/** Schedules of faults: of each operation to come, whether it fails for a reason outside
    the model. Past the end of a schedule nothing fails. */
module Faults {

  /** `later` is what remains of a schedule. */
  predicate UsesUp(earlier: seq<bool>, later: seq<bool>) {
    |later| <= |earlier| && earlier[|earlier| - |later|..] == later
  }

  /** `later` is what remains, and no fault struck on the way. */
  predicate FaultFree(earlier: seq<bool>, later: seq<bool>) {
    UsesUp(earlier, later) && forall i :: 0 <= i < |earlier| - |later| ==> !earlier[i]
  }

  method Draw(faults: seq<bool>) returns (fails: bool, rest: seq<bool>)
    ensures UsesUp(faults, rest)
    ensures fails <==> !FaultFree(faults, rest)
  {
    if faults == [] {
      fails, rest := false, [];
    } else {
      fails, rest := faults[0], faults[1..];
    }
  }

  lemma FaultFreeOn(a: seq<bool>, b: seq<bool>, c: seq<bool>)
    requires UsesUp(a, b) && UsesUp(b, c)
    ensures UsesUp(a, c) && (FaultFree(a, c) <==> FaultFree(a, b) && FaultFree(b, c))
  {
    var i, j := |a| - |b|, |b| - |c|;
    assert a[i..][j..] == a[i + j..];
    if FaultFree(a, c) {
      forall k | 0 <= k < j ensures !b[k] {
        assert b[k] == a[i + k];
      }
    }
    if FaultFree(a, b) && FaultFree(b, c) {
      forall k | 0 <= k < i + j ensures !a[k] {
        assert k >= i ==> a[k] == b[k - i];
      }
    }
  }
}
