/**
 * Strings as the program sees them: sequences of UTF-16 code units, with the white space that
 * `trim` removes and the surrogate pairs that a cut must not divide.
 *
 * `Strip` is what the theorems about cutting compare: a text without its white space.  It distributes
 * over concatenation and is left alone by trimming, so a cut and the trims around it lose no other
 * unit (`StripConcat`, `StripTrim`).  A text is `WellFormed` when every surrogate in it is half of a
 * pair; parts cut between two units that are no pair, concatenations and trimmed texts of well-formed
 * texts are well-formed again (`WellFormedParts`, `WellFormedConcat`, `WellFormedTrim`).
 */
module TextUnits {
  type Unit = u: int | 0 <= u < 0x10000
  type Text = seq<Unit>

  const NEWLINE: Unit := 10
  const SPACE: Unit := 32

  predicate IsSpace(u: Unit) {
    9 <= u <= 13 || u == 32 || u == 0xA0 || u == 0x1680 || 0x2000 <= u <= 0x200A || u == 0x2028 || u == 0x2029
    || u == 0x202F || u == 0x205F || u == 0x3000 || u == 0xFEFF
  }

  predicate IsHighSurrogate(u: Unit) { 0xD800 <= u <= 0xDBFF }
  predicate IsLowSurrogate(u: Unit) { 0xDC00 <= u <= 0xDFFF }

  predicate PairedAt(s: Text, i: nat)
    requires i < |s|
  {
    && (IsHighSurrogate(s[i]) ==> i + 1 < |s| && IsLowSurrogate(s[i + 1]))
    && (IsLowSurrogate(s[i]) ==> i > 0 && IsHighSurrogate(s[i - 1]))
  }

  // Every surrogate is half of a pair.
  predicate WellFormed(s: Text) { forall i: nat | i < |s| :: PairedAt(s, i) }

  // The text without its white space.
  function Strip(s: Text): (r: Text)
    ensures |r| <= |s|
  {
    if |s| == 0 then []
    else if IsSpace(s[|s| - 1]) then Strip(s[..|s| - 1])
    else Strip(s[..|s| - 1]) + [s[|s| - 1]]
  }

  predicate IsBlank(s: Text) { Strip(s) == [] }

  function TrimEnd(s: Text): (r: Text)
    ensures |r| <= |s|
  {
    if |s| > 0 && IsSpace(s[|s| - 1]) then TrimEnd(s[..|s| - 1]) else s
  }

  function TrimStart(s: Text): (r: Text)
    ensures |r| <= |s|
  {
    if |s| > 0 && IsSpace(s[0]) then TrimStart(s[1..]) else s
  }

  lemma {:induction false} TrimEndShape(s: Text)
    ensures var r := TrimEnd(s);
            r <= s && (r != [] ==> !IsSpace(r[|r| - 1])) && forall i | |r| <= i < |s| :: IsSpace(s[i])
  {
    if |s| > 0 && IsSpace(s[|s| - 1]) { TrimEndShape(s[..|s| - 1]); }
  }

  lemma {:induction false} TrimStartShape(s: Text)
    ensures var r := TrimStart(s);
            r == s[|s| - |r|..] && (r != [] ==> !IsSpace(r[0])) && forall i | 0 <= i < |s| - |r| :: IsSpace(s[i])
  {
    if |s| > 0 && IsSpace(s[0]) { TrimStartShape(s[1..]); }
  }

  function Trim(s: Text): (r: Text)
    ensures |r| <= |s|
  {
    TrimEnd(TrimStart(s))
  }

  function LastIndexOf(s: Text, u: Unit): (k: int)
    ensures -1 <= k < |s| && (k >= 0 ==> s[k] == u)
    ensures forall j | 0 <= j && k < j < |s| :: s[j] != u
  {
    if |s| == 0 then -1 else if s[|s| - 1] == u then |s| - 1 else LastIndexOf(s[..|s| - 1], u)
  }

  lemma {:induction false} StripConcat(a: Text, b: Text)
    ensures Strip(a + b) == Strip(a) + Strip(b)
  {
    if |b| == 0 {
      assert a + b == a;
    } else {
      assert (a + b)[..|a + b| - 1] == a + b[..|b| - 1];
      StripConcat(a, b[..|b| - 1]);
    }
  }

  lemma {:induction false} StripSplit(s: Text, k: nat)
    requires k <= |s|
    ensures Strip(s) == Strip(s[..k]) + Strip(s[k..])
  {
    assert s == s[..k] + s[k..];
    StripConcat(s[..k], s[k..]);
  }

  lemma {:induction false} StripSpaces(s: Text)
    requires forall i | 0 <= i < |s| :: IsSpace(s[i])
    ensures Strip(s) == []
  {
    if |s| > 0 { StripSpaces(s[..|s| - 1]); }
  }

  lemma {:induction false} StripTrim(s: Text)
    ensures Strip(TrimEnd(s)) == Strip(s) && Strip(TrimStart(s)) == Strip(s) && Strip(Trim(s)) == Strip(s)
  {
    StripTrimEnd(s);
    StripTrimStart(s);
    StripTrimEnd(TrimStart(s));
  }

  lemma {:induction false} StripTrimEnd(s: Text)
    ensures Strip(TrimEnd(s)) == Strip(s)
  {
    TrimEndShape(s);
    var r := TrimEnd(s);
    assert s[..|r|] == r;
    StripSplit(s, |r|);
    StripSpaces(s[|r|..]);
  }

  lemma {:induction false} StripTrimStart(s: Text)
    ensures Strip(TrimStart(s)) == Strip(s)
  {
    TrimStartShape(s);
    var r := TrimStart(s);
    StripSplit(s, |s| - |r|);
    StripSpaces(s[..|s| - |r|]);
  }

  lemma {:induction false} EndsInText(s: Text)
    requires s != [] && !IsSpace(s[|s| - 1])
    ensures !IsBlank(s)
  {
  }

  lemma {:induction false} StartsInText(s: Text)
    requires s != [] && !IsSpace(s[0])
    ensures !IsBlank(s)
  {
    StripSplit(s, 1);
    EndsInText(s[..1]);
  }

  // A trimmed text is empty exactly when the text is blank.
  lemma {:induction false} TrimBlank(s: Text)
    ensures Trim(s) == [] <==> IsBlank(s)
  {
    StripTrim(s);
    TrimEndShape(TrimStart(s));
    var t := Trim(s);
    if t != [] { EndsInText(t); }
  }

  lemma {:induction false} TrimEndBlank(s: Text)
    ensures TrimEnd(s) == [] <==> IsBlank(s)
  {
    StripTrimEnd(s);
    TrimEndShape(s);
    var t := TrimEnd(s);
    if t != [] { EndsInText(t); }
  }

  lemma {:induction false} TrimStartBlank(s: Text)
    ensures TrimStart(s) == [] <==> IsBlank(s)
  {
    StripTrimStart(s);
    TrimStartShape(s);
    var t := TrimStart(s);
    if t != [] { StartsInText(t); }
  }

  lemma {:induction false} WellFormedParts(s: Text, k: nat)
    requires WellFormed(s) && k <= |s| && (k > 0 ==> !IsHighSurrogate(s[k - 1]))
    ensures WellFormed(s[..k]) && WellFormed(s[k..])
  {
    forall i: nat | i < |s[k..]| ensures PairedAt(s[k..], i) { assert PairedAt(s, k + i); }
    forall i: nat | i < |s[..k]| ensures PairedAt(s[..k], i) { assert PairedAt(s, i); }
  }

  lemma {:induction false} WellFormedConcat(a: Text, b: Text)
    requires WellFormed(a) && WellFormed(b)
    ensures WellFormed(a + b)
  {
    forall i: nat | i < |a + b| ensures PairedAt(a + b, i) {
      if i < |a| { assert PairedAt(a, i); } else { assert PairedAt(b, i - |a|); }
    }
  }

  lemma {:induction false} WellFormedTrim(s: Text)
    requires WellFormed(s)
    ensures WellFormed(TrimEnd(s)) && WellFormed(TrimStart(s)) && WellFormed(Trim(s))
  {
    WellFormedTrimEnd(s);
    WellFormedTrimStart(s);
    WellFormedTrimEnd(TrimStart(s));
  }

  lemma {:induction false} WellFormedTrimStart(s: Text)
    requires WellFormed(s)
    ensures WellFormed(TrimStart(s))
  {
    TrimStartShape(s);
    var k := |s| - |TrimStart(s)|;
    if k > 0 { assert IsSpace(s[k - 1]); }
    WellFormedParts(s, k);
  }

  lemma {:induction false} WellFormedTrimEnd(s: Text)
    requires WellFormed(s)
    ensures WellFormed(TrimEnd(s))
  {
    TrimEndShape(s);
    var k := |TrimEnd(s)|;
    if 0 < k < |s| { assert IsSpace(s[k]) && PairedAt(s, k - 1); }
    assert k == 0 || k == |s| || !IsHighSurrogate(s[k - 1]);
    if k == |s| { assert TrimEnd(s) == s; } else { WellFormedParts(s, k); assert TrimEnd(s) == s[..k]; }
  }
}
