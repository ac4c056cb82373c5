/** Decoding the predefined entities of XML 1.0 (section 4.6) by five global replacements,
    `&amp;` last, against a single left-to-right pass. */
module XmlEntities {

  const Quot: string := "&quot;"
  const Apos: string := "&apos;"
  const Lt: string := "&lt;"
  const Gt: string := "&gt;"
  const Amp: string := "&amp;"

  /** `text.replace(/entity/g, c)`: every occurrence, left to right. */
  function ReplaceAll(text: string, entity: string, c: char): string
    requires entity != []
    decreases |text|
  {
    if text == [] then []
    else if entity <= text then [c] + ReplaceAll(text[|entity|..], entity, c)
    else [text[0]] + ReplaceAll(text[1..], entity, c)
  }

  /** The decoding chain of `parseExecutablePaths`. */
  function Decode(text: string): string {
    ReplaceAll(ReplaceAll(ReplaceAll(ReplaceAll(ReplaceAll(text, Quot, '"'), Apos, '\''), Lt, '<'), Gt, '>'), Amp, '&')
  }

  /** What a single left-to-right pass makes of the text. */
  function OnePass(text: string): string
    decreases |text|
  {
    if text == [] then []
    else if Quot <= text then ['"'] + OnePass(text[|Quot|..])
    else if Apos <= text then ['\''] + OnePass(text[|Apos|..])
    else if Lt <= text then ['<'] + OnePass(text[|Lt|..])
    else if Gt <= text then ['>'] + OnePass(text[|Gt|..])
    else if Amp <= text then ['&'] + OnePass(text[|Amp|..])
    else [text[0]] + OnePass(text[1..])
  }

  function EscapeChar(c: char): string {
    if c == '"' then Quot
    else if c == '\'' then Apos
    else if c == '<' then Lt
    else if c == '>' then Gt
    else if c == '&' then Amp
    else [c]
  }

  /** The standard escaping of attribute values. */
  function Escape(text: string): string {
    if text == [] then [] else EscapeChar(text[0]) + Escape(text[1..])
  }

  // ---- one replacement ----

  /** An entity: an ampersand, then letters and a semicolon. */
  predicate IsEntity(e: string) {
    |e| >= 2 && e[0] == '&' && NoAmp(e[1..])
  }

  predicate NoAmp(u: string) {
    forall i :: 0 <= i < |u| ==> u[i] != '&'
  }

  /** Text without an ampersand is copied. */
  lemma {:induction false} CopiesPlain(u: string, text: string, e: string, c: char)
    requires IsEntity(e) && NoAmp(u)
    ensures ReplaceAll(u + text, e, c) == u + ReplaceAll(text, e, c)
    decreases |u|
  {
    if u == [] {
      assert u + text == text;
    } else {
      assert (u + text)[0] == u[0] && e[0] == '&';
      assert (u + text)[1..] == u[1..] + text;
      CopiesPlain(u[1..], text, e, c);
    }
  }

  /** An entity other than the one being replaced is copied. */
  lemma CopiesOther(f: string, text: string, e: string, c: char)
    requires IsEntity(e) && IsEntity(f) && !(e <= f + text)
    ensures ReplaceAll(f + text, e, c) == f + ReplaceAll(text, e, c)
  {
    assert (f + text)[1..] == f[1..] + text && f == [f[0]] + f[1..];
    CopiesPlain(f[1..], text, e, c);
  }

  lemma Replaces(text: string, e: string, c: char)
    requires IsEntity(e)
    ensures ReplaceAll(e + text, e, c) == [c] + ReplaceAll(text, e, c)
  {
    assert (e + text)[|e|..] == text;
  }

  /** A replacement cannot produce the tail of an entity that was not there before. */
  lemma {:induction false} NoNewTail(u: string, text: string, e: string, c: char)
    requires IsEntity(e) && c !in u && u <= ReplaceAll(text, e, c)
    ensures u <= text
    decreases |text|
  {
    if u != [] {
      var out := ReplaceAll(text, e, c);
      assert u[0] == out[0];
      assert !(e <= text);
      assert out[1..] == ReplaceAll(text[1..], e, c);
      NoNewTail(u[1..], text[1..], e, c);
    }
  }

  /** ... so a lone ampersand does not become the start of an entity. */
  lemma NoNewEntity(f: string, text: string, e: string, c: char)
    requires IsEntity(e) && IsEntity(f) && c !in f[1..]
    requires f <= ['&'] + ReplaceAll(text, e, c)
    ensures f <= ['&'] + text
  {
    var out := ['&'] + ReplaceAll(text, e, c);
    assert f[1..] <= out[1..] == ReplaceAll(text, e, c);
    NoNewTail(f[1..], text, e, c);
    assert f == ['&'] + f[1..];
  }

  lemma CopiesAmp(text: string, e: string, c: char)
    requires IsEntity(e) && !(e <= ['&'] + text)
    ensures ReplaceAll(['&'] + text, e, c) == ['&'] + ReplaceAll(text, e, c)
  {
    assert (['&'] + text)[1..] == text;
  }

  // ---- the chain ----

  predicate IsPredefined(e: string) {
    e == Quot || e == Apos || e == Lt || e == Gt || e == Amp
  }

  /** The predefined entities differ within their first three characters. */
  lemma EntitiesDiffer(e: string, f: string, text: string)
    requires IsPredefined(e) && IsPredefined(f) && e != f
    ensures IsEntity(e) && IsEntity(f) && !(e <= f + text)
  {
    assert (f + text)[1] == f[1] && (f + text)[2] == f[2];
  }

  function S1(text: string): string { ReplaceAll(text, Quot, '"') }
  function S2(text: string): string { ReplaceAll(S1(text), Apos, '\'') }
  function S3(text: string): string { ReplaceAll(S2(text), Lt, '<') }
  function S4(text: string): string { ReplaceAll(S3(text), Gt, '>') }

  lemma CharPasses(c: char, text: string)
    requires c != '&'
    ensures S1([c] + text) == [c] + S1(text) && S2([c] + text) == [c] + S2(text)
    ensures S3([c] + text) == [c] + S3(text) && S4([c] + text) == [c] + S4(text)
    ensures Decode([c] + text) == [c] + Decode(text)
  {
    CopiesPlain([c], text, Quot, '"');
    CopiesPlain([c], S1(text), Apos, '\'');
    CopiesPlain([c], S2(text), Lt, '<');
    CopiesPlain([c], S3(text), Gt, '>');
    CopiesPlain([c], S4(text), Amp, '&');
  }

  /** A predefined entity passes the steps before its own. */
  lemma EntityPasses(f: string, text: string)
    requires IsPredefined(f)
    ensures f != Quot ==> S1(f + text) == f + S1(text)
    ensures f != Quot && f != Apos ==> S2(f + text) == f + S2(text)
    ensures f == Gt || f == Amp ==> S3(f + text) == f + S3(text)
    ensures f == Amp ==> S4(f + text) == f + S4(text)
  {
    if f != Quot { EntitiesDiffer(Quot, f, text); CopiesOther(f, text, Quot, '"'); }
    if f != Apos { EntitiesDiffer(Apos, f, S1(text)); CopiesOther(f, S1(text), Apos, '\''); }
    if f != Lt { EntitiesDiffer(Lt, f, S2(text)); CopiesOther(f, S2(text), Lt, '<'); }
    if f != Gt { EntitiesDiffer(Gt, f, S3(text)); CopiesOther(f, S3(text), Gt, '>'); }
  }

  function Meaning(f: string): char
    requires IsPredefined(f)
  {
    if f == Quot then '"' else if f == Apos then '\'' else if f == Lt then '<' else if f == Gt then '>' else '&'
  }

  /** An entity is replaced in its own step, and what replaces it passes the later ones. */
  lemma DecodesEntity(f: string, text: string)
    requires IsPredefined(f)
    ensures Decode(f + text) == [Meaning(f)] + Decode(text)
  {
    EntityPasses(f, text);
    if f == Quot {
      DecodesQuot(text);
    } else if f == Apos {
      DecodesApos(S1(text));
    } else if f == Lt {
      DecodesLt(S2(text));
    } else if f == Gt {
      Replaces(S3(text), Gt, '>');
      CopiesPlain(['>'], S4(text), Amp, '&');
    } else {
      Replaces(S4(text), Amp, '&');
    }
  }

  lemma DecodesQuot(text: string)
    ensures Decode(Quot + text) == ['"'] + Decode(text)
  {
    Replaces(text, Quot, '"');
    CopiesPlain(['"'], S1(text), Apos, '\'');
    CopiesPlain(['"'], S2(text), Lt, '<');
    CopiesPlain(['"'], S3(text), Gt, '>');
    CopiesPlain(['"'], S4(text), Amp, '&');
  }

  /** The steps from the second on. */
  function FromApos(text: string): string {
    FromLt(ReplaceAll(text, Apos, '\''))
  }

  function FromLt(text: string): string {
    ReplaceAll(ReplaceAll(ReplaceAll(text, Lt, '<'), Gt, '>'), Amp, '&')
  }

  lemma DecodesApos(text: string)
    ensures FromApos(Apos + text) == ['\''] + FromApos(text)
  {
    Replaces(text, Apos, '\'');
    var next := ReplaceAll(text, Apos, '\'');
    CopiesPlain(['\''], next, Lt, '<');
    CopiesPlain(['\''], ReplaceAll(next, Lt, '<'), Gt, '>');
    CopiesPlain(['\''], ReplaceAll(ReplaceAll(next, Lt, '<'), Gt, '>'), Amp, '&');
  }

  lemma DecodesLt(text: string)
    ensures FromLt(Lt + text) == ['<'] + FromLt(text)
  {
    Replaces(text, Lt, '<');
    var next := ReplaceAll(text, Lt, '<');
    CopiesPlain(['<'], next, Gt, '>');
    CopiesPlain(['<'], ReplaceAll(next, Gt, '>'), Amp, '&');
  }

  /** An ampersand that starts no entity stays, whatever is decoded behind it. */
  lemma LoneAmpStays(text: string)
    requires forall f :: f in [Quot, Apos, Lt, Gt, Amp] ==> !(f <= ['&'] + text)
    ensures Decode(['&'] + text) == ['&'] + Decode(text)
  {
    StillLone(text);
    CopiesAmp(text, Quot, '"');
    CopiesAmp(S1(text), Apos, '\'');
    CopiesAmp(S2(text), Lt, '<');
    CopiesAmp(S3(text), Gt, '>');
    CopiesAmp(S4(text), Amp, '&');
  }

  lemma StillLone(text: string)
    requires forall f :: f in [Quot, Apos, Lt, Gt, Amp] ==> !(f <= ['&'] + text)
    ensures !(Quot <= ['&'] + text) && !(Apos <= ['&'] + S1(text)) && !(Lt <= ['&'] + S2(text))
    ensures !(Gt <= ['&'] + S3(text)) && !(Amp <= ['&'] + S4(text))
  {
    assert Quot in [Quot, Apos, Lt, Gt, Amp] && Apos in [Quot, Apos, Lt, Gt, Amp];
    assert Lt in [Quot, Apos, Lt, Gt, Amp] && Gt in [Quot, Apos, Lt, Gt, Amp] && Amp in [Quot, Apos, Lt, Gt, Amp];
    LoneAfter1(Apos, text);
    LoneAfter2(Lt, text);
    LoneAfter3(Gt, text);
    LoneAfter4(Amp, text);
  }

  lemma LoneAfter1(f: string, text: string)
    requires IsPredefined(f) && !(f <= ['&'] + text)
    ensures !(f <= ['&'] + S1(text))
  {
    if f <= ['&'] + S1(text) { NoNewEntity(f, text, Quot, '"'); }
  }

  lemma LoneAfter2(f: string, text: string)
    requires IsPredefined(f) && !(f <= ['&'] + text)
    ensures !(f <= ['&'] + S2(text))
  {
    LoneAfter1(f, text);
    if f <= ['&'] + S2(text) { NoNewEntity(f, S1(text), Apos, '\''); }
  }

  lemma LoneAfter3(f: string, text: string)
    requires IsPredefined(f) && !(f <= ['&'] + text)
    ensures !(f <= ['&'] + S3(text))
  {
    LoneAfter2(f, text);
    if f <= ['&'] + S3(text) { NoNewEntity(f, S2(text), Lt, '<'); }
  }

  lemma LoneAfter4(f: string, text: string)
    requires IsPredefined(f) && !(f <= ['&'] + text)
    ensures !(f <= ['&'] + S4(text))
  {
    LoneAfter3(f, text);
    if f <= ['&'] + S4(text) { NoNewEntity(f, S3(text), Gt, '>'); }
  }

  /** Which predefined entity the text starts with, or the empty string. */
  function Leading(text: string): (f: string)
    ensures f == "" || (IsPredefined(f) && f <= text)
    ensures f == "" ==> forall e :: IsPredefined(e) ==> !(e <= text)
  {
    if Quot <= text then Quot
    else if Apos <= text then Apos
    else if Lt <= text then Lt
    else if Gt <= text then Gt
    else if Amp <= text then Amp
    else ""
  }

  /** The five replacements in sequence are one left-to-right pass, on every text, with or
      without stray ampersands: nothing is decoded twice. */
  lemma {:induction false} DecodeIsOnePass(text: string)
    ensures Decode(text) == OnePass(text)
    decreases |text|
  {
    var f := Leading(text);
    if text == [] {
    } else if f != "" {
      var rest := text[|f|..];
      assert text == f + rest;
      DecodesEntity(f, rest);
      DecodeIsOnePass(rest);
    } else {
      assert text == [text[0]] + text[1..];
      if text[0] == '&' {
        LoneAmpStays(text[1..]);
      } else {
        CharPasses(text[0], text[1..]);
      }
      DecodeIsOnePass(text[1..]);
    }
  }

  lemma DecodesChar(c: char, rest: string)
    ensures Decode(EscapeChar(c) + rest) == [c] + Decode(rest)
  {
    if IsPredefined(EscapeChar(c)) {
      DecodesEntity(EscapeChar(c), rest);
    } else {
      CharPasses(c, rest);
    }
  }

  /** Decoding inverts escaping, for every string. */
  lemma {:induction false} DecodeInvertsEscape(text: string)
    ensures Decode(Escape(text)) == text
  {
    if text != [] {
      var c, rest := text[0], Escape(text[1..]);
      DecodeInvertsEscape(text[1..]);
      DecodesChar(c, rest);
      assert text == [c] + text[1..];
    }
  }
}
