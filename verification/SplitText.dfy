/**
 * Splitting prose and code into pieces
 * (packages/cardano-agent/src/knowledge/chunkDocument.ts:155-226).
 *
 * Prose pieces overlap: each may begin with up to 150 units that end the piece before it.  A
 * `Fragment` is a piece together with the number of its leading non-blank units that are such a
 * repetition.
 *
 * `Prose` is the loop as a recursion: `CutProse` makes one turn of it.  The proofs first say what a
 * turn does to the text (`TurnKeepsText`, `TurnEchoes`, `TurnIsGood`) and then follow the recursion:
 * nothing is lost, and no piece is blank, too long or cut inside a surrogate pair.
 */
module SplitText {
  import opened TextUnits

  const TARGET_CHARS := 1000
  const HARD_CAP_CHARS := 1200
  const MAX_PROSE_CARRY := 150
  const MAX_HEADING_CHARS := 200

  datatype Fragment = Fragment(text: Text, overlap: nat)

  function SafeCut(value: Text, requested: int): (cut: nat)
    requires |value| > 1
    ensures 1 <= cut < |value|
    ensures 1 <= requested < |value| ==> requested - 1 <= cut <= requested
  {
    var wanted := if requested < |value| - 1 then requested else |value| - 1;
    var cut := if wanted > 1 then wanted else 1;
    var kept := if IsHighSurrogate(value[cut - 1]) then cut - 1 else cut;
    if kept > 1 then kept else 1
  }

  lemma {:induction false} SafeCutIsSafe(value: Text, requested: int)
    requires WellFormed(value) && requested > 1 && |value| > 2
    ensures !IsHighSurrogate(value[SafeCut(value, requested) - 1])
  {
    var wanted := if requested < |value| - 1 then requested else |value| - 1;
    assert PairedAt(value, wanted - 1) && PairedAt(value, wanted - 2);
  }

  function SuffixSafe(value: Text, maxLength: nat): (r: Text)
    ensures |r| <= |value| && |r| <= maxLength && r == value[|value| - |r|..]
  {
    var start := if |value| > maxLength then |value| - maxLength else 0;
    var kept := if 0 < start < |value| && IsLowSurrogate(value[start]) then start + 1 else start;
    value[kept..]
  }

  lemma {:induction false} SuffixSafeIsSafe(value: Text, maxLength: nat)
    requires WellFormed(value)
    ensures WellFormed(SuffixSafe(value, maxLength))
  {
    var kept := |value| - |SuffixSafe(value, maxLength)|;
    if 0 < kept < |value| { assert PairedAt(value, kept - 1) && PairedAt(value, kept); }
    if kept == |value| { assert value[kept..] == []; } else { WellFormedParts(value, kept); }
  }

  function TruncateSafe(value: Text, maxLength: nat): (r: Text)
    ensures r <= value && |r| <= maxLength
  {
    var end := if |value| < maxLength then |value| else maxLength;
    var kept := if end > 0 && IsHighSurrogate(value[end - 1]) then end - 1 else end;
    TrimEndShape(value[..kept]);
    TrimEnd(value[..kept])
  }

  lemma {:induction false} TruncateSafeIsSafe(value: Text, maxLength: nat)
    requires WellFormed(value)
    ensures WellFormed(TruncateSafe(value, maxLength))
  {
    var end := if |value| < maxLength then |value| else maxLength;
    var kept := if end > 0 && IsHighSurrogate(value[end - 1]) then end - 1 else end;
    if kept > 0 { assert PairedAt(value, kept - 1); }
    if 0 < kept < end { assert PairedAt(value, kept); }
    WellFormedParts(value, kept);
    WellFormedTrimEnd(value[..kept]);
  }

  // The last space or newline at or before the target, unless it lies in the first half.
  function ProseCut(content: Text, target: nat): (cut: int)
    requires |content| > 1 && target > 1
    ensures var safeTarget := if target < |content| - 1 then target else |content| - 1;
            && safeTarget / 2 < cut <= safeTarget
            && (cut == safeTarget || content[cut] == SPACE || content[cut] == NEWLINE)
            && ((exists j :: safeTarget / 2 < j <= safeTarget && (content[j] == SPACE || content[j] == NEWLINE)) ==>
                  content[cut] == SPACE || content[cut] == NEWLINE)
            && (cut < safeTarget ==> forall j | cut < j <= safeTarget :: content[j] != SPACE && content[j] != NEWLINE)
  {
    var safeTarget := if target < |content| - 1 then target else |content| - 1;
    var space, newline := LastIndexOf(content[..safeTarget + 1], SPACE),
        LastIndexOf(content[..safeTarget + 1], NEWLINE);
    var boundary := if space >= newline then space else newline;
    if boundary > safeTarget / 2 then boundary else safeTarget
  }

  function Joined(carry: Text, tail: Text): Text {
    if carry == [] then tail else carry + [NEWLINE] + tail
  }

  function CutOf(remaining: Text): (cut: nat)
    requires |remaining| > HARD_CAP_CHARS
    ensures TARGET_CHARS / 2 <= cut <= TARGET_CHARS
  {
    SafeCut(remaining, ProseCut(remaining, TARGET_CHARS))
  }

  // One turn of the loop: the piece, the end of it carried over, and the text after it.
  datatype Turn = Turn(piece: Text, carry: Text, tail: Text)

  function CutProse(remaining: Text): (t: Turn)
    requires |remaining| > HARD_CAP_CHARS
    ensures |t.piece| <= TARGET_CHARS && |t.carry| <= MAX_PROSE_CARRY
    ensures |Joined(t.carry, t.tail)| < |remaining|
  {
    var cut := CutOf(remaining);
    var piece, tail := TrimEnd(remaining[..cut]), TrimStart(remaining[cut..]);
    var carry := SuffixSafe(piece, MAX_PROSE_CARRY);
    Turn(piece, if carry <= tail then [] else carry, tail)
  }

  function Here(turn: Turn, carry: Text): seq<Fragment> {
    if turn.piece == [] then [] else [Fragment(turn.piece, |Strip(carry)|)]
  }

  // What the loop makes of the carried end of the last piece and the text after it.
  function Prose(carry: Text, tail: Text): seq<Fragment>
    decreases |Joined(carry, tail)|, 2
  {
    Loop(carry, Joined(carry, tail))
  }

  function Loop(carry: Text, remaining: Text): seq<Fragment>
    decreases |remaining|, 1
  {
    if |remaining| > HARD_CAP_CHARS then OneTurn(carry, remaining)
    else if Trim(remaining) == [] then []
    else [Fragment(Trim(remaining), |Strip(carry)|)]
  }

  function OneTurn(carry: Text, remaining: Text): seq<Fragment>
    requires |remaining| > HARD_CAP_CHARS
    decreases |remaining|, 0
  {
    var turn := CutProse(remaining);
    Here(turn, carry) + Prose(turn.carry, turn.tail)
  }

  function ProseFragments(content: Text): seq<Fragment> {
    if |content| <= HARD_CAP_CHARS then [Fragment(content, 0)] else Prose([], content)
  }

  function Texts(fragments: seq<Fragment>): (texts: seq<Text>)
    ensures |texts| == |fragments|
  {
    if |fragments| == 0 then [] else [fragments[0].text] + Texts(fragments[1..])
  }

  lemma {:induction false} TextsHere(turn: Turn, carry: Text, rest: seq<Fragment>)
    ensures Texts(Here(turn, carry) + rest) == (if turn.piece == [] then [] else [turn.piece]) + Texts(rest)
  {
    if turn.piece == [] {
      assert Here(turn, carry) + rest == rest;
    } else {
      assert (Here(turn, carry) + rest)[1..] == rest;
    }
  }

  lemma {:induction false} ProseUnfolds(carry: Text, tail: Text, turn: Turn)
    requires |Joined(carry, tail)| > HARD_CAP_CHARS && turn == CutProse(Joined(carry, tail))
    ensures Prose(carry, tail) == Here(turn, carry) + Prose(turn.carry, turn.tail)
  {
    hide CutProse, Joined, Here;
    var remaining := Joined(carry, tail);
    assert OneTurn(carry, remaining) == Here(turn, carry) + Prose(turn.carry, turn.tail);
    assert Loop(carry, remaining) == OneTurn(carry, remaining);
  }

  lemma {:induction false} TextsOfTurn(all: seq<Text>, before: seq<Text>, carry: Text, turn: Turn, rest: seq<Fragment>)
    requires all == before + Texts(Here(turn, carry) + rest)
    ensures all == (if turn.piece == [] then before else before + [turn.piece]) + Texts(rest)
  {
    TextsHere(turn, carry, rest);
  }

  lemma {:induction false} TurnInvariant(all: seq<Text>, before: seq<Text>, carry: Text, tail: Text, turn: Turn)
    requires |Joined(carry, tail)| > HARD_CAP_CHARS && turn == CutProse(Joined(carry, tail))
    requires all == before + Texts(Prose(carry, tail))
    ensures all == (if turn.piece == [] then before else before + [turn.piece]) + Texts(Prose(turn.carry, turn.tail))
  {
    ProseUnfolds(carry, tail, turn);
    TextsOfTurn(all, before, carry, turn, Prose(turn.carry, turn.tail));
  }

  lemma {:induction false} LastTexts(carry: Text, tail: Text)
    requires |Joined(carry, tail)| <= HARD_CAP_CHARS
    ensures Texts(Prose(carry, tail)) == if Trim(Joined(carry, tail)) == [] then [] else [Trim(Joined(carry, tail))]
  {
  }

  method SplitProse(content: Text) returns (pieces: seq<Text>)
    ensures pieces == Texts(ProseFragments(content))
  {
    if |content| <= HARD_CAP_CHARS { return [content]; }
    pieces := [];
    var remaining := content;
    ghost var carried: Text, rest := [], content;
    ghost var all := Texts(ProseFragments(content));
    while |remaining| > HARD_CAP_CHARS
      invariant remaining == Joined(carried, rest)
      invariant all == pieces + Texts(Prose(carried, rest))
      decreases |remaining|
    {
      ghost var turn := CutProse(remaining);
      TurnInvariant(all, pieces, carried, rest, turn);
      var cut := CutOf(remaining);
      var piece := TrimEnd(remaining[..cut]);
      if piece != [] { pieces := pieces + [piece]; }
      var carry := SuffixSafe(piece, MAX_PROSE_CARRY);
      var tail := TrimStart(remaining[cut..]);
      remaining := if carry != [] && !(carry <= tail) then carry + [NEWLINE] + tail else tail;
      carried, rest := turn.carry, turn.tail;
    }
    LastTexts(carried, rest);
    if Trim(remaining) != [] { pieces := pieces + [Trim(remaining)]; }
  }

  // At the last newline within the cap, or else at the cap.
  function CodeCut(remaining: Text): (cut: nat)
    requires |remaining| > HARD_CAP_CHARS
    ensures 1 <= cut <= HARD_CAP_CHARS
  {
    var newline := LastIndexOf(remaining[..HARD_CAP_CHARS + 1], NEWLINE);
    SafeCut(remaining, if newline <= 0 then HARD_CAP_CHARS else newline)
  }

  function Code(remaining: Text): seq<Text>
    decreases |remaining|
  {
    if |remaining| > HARD_CAP_CHARS then
      var cut := CodeCut(remaining);
      var piece := TrimEnd(remaining[..cut]);
      (if piece == [] then [] else [piece]) + Code(TrimStart(remaining[cut..]))
    else if remaining == [] then []
    else [remaining]
  }

  function CodePieces(content: Text): seq<Text> {
    if |content| <= HARD_CAP_CHARS then [content] else Code(content)
  }

  function NonEmpty(pieces: seq<Text>): seq<Text> {
    if |pieces| == 0 then []
    else NonEmpty(pieces[..|pieces| - 1]) + if pieces[|pieces| - 1] == [] then [] else [pieces[|pieces| - 1]]
  }

  lemma {:induction false} NonEmptyPush(all: seq<Text>, pieces: seq<Text>, piece: Text, rest: seq<Text>)
    requires all == NonEmpty(pieces) + ((if piece == [] then [] else [piece]) + rest)
    ensures all == NonEmpty(pieces + [piece]) + rest
  {
    assert (pieces + [piece])[..|pieces|] == pieces;
  }

  lemma {:induction false} CodeUnfolds(remaining: Text, cut: nat)
    requires |remaining| > HARD_CAP_CHARS && cut == CodeCut(remaining)
    ensures var piece := TrimEnd(remaining[..cut]);
            Code(remaining) == (if piece == [] then [] else [piece]) + Code(TrimStart(remaining[cut..]))
  {
  }

  method SplitCode(content: Text) returns (pieces: seq<Text>)
    ensures pieces == CodePieces(content)
  {
    if |content| <= HARD_CAP_CHARS { return [content]; }
    pieces := [];
    var remaining := content;
    ghost var all := Code(content);
    while |remaining| > HARD_CAP_CHARS
      invariant all == NonEmpty(pieces) + Code(remaining)
      decreases |remaining|
    {
      var cut: int := LastIndexOf(remaining[..HARD_CAP_CHARS + 1], NEWLINE);
      if cut <= 0 { cut := HARD_CAP_CHARS; }
      cut := SafeCut(remaining, cut);
      CodeUnfolds(remaining, cut);
      NonEmptyPush(all, pieces, TrimEnd(remaining[..cut]), Code(TrimStart(remaining[cut..])));
      pieces := pieces + [TrimEnd(remaining[..cut])];
      remaining := TrimStart(remaining[cut..]);
    }
    if remaining != [] {
      NonEmptyPush(all, pieces, remaining, []);
      pieces := pieces + [remaining];
    }
    pieces := NonEmpty(pieces);
  }

  // ---------------------------------------------------------------- what the pieces hold

  // The text of the fragments without what each repeats of the one before.
  function Fresh(fragments: seq<Fragment>): Text {
    if |fragments| == 0 then []
    else
      var own := Strip(fragments[0].text);
      own[if fragments[0].overlap <= |own| then fragments[0].overlap else |own|..] + Fresh(fragments[1..])
  }

  function StripAll(pieces: seq<Text>): Text {
    if |pieces| == 0 then [] else Strip(pieces[0]) + StripAll(pieces[1..])
  }

  lemma {:induction false} StripJoined(carry: Text, tail: Text)
    ensures Strip(Joined(carry, tail)) == Strip(carry) + Strip(tail)
  {
    if carry != [] {
      StripConcat(carry + [NEWLINE], tail);
      StripConcat(carry, [NEWLINE]);
      assert Strip([NEWLINE]) == [];
    }
  }

  lemma {:induction false} StripPrefix(s: Text, k: nat, cut: nat)
    requires k <= cut <= |s|
    ensures Strip(s[..k]) <= Strip(s[..cut])
  {
    assert s[..cut] == s[..k] + s[k..cut];
    StripConcat(s[..k], s[k..cut]);
  }

  lemma {:induction false} TurnSplits(remaining: Text)
    requires |remaining| > HARD_CAP_CHARS
    ensures var turn := CutProse(remaining); Strip(remaining) == Strip(turn.piece) + Strip(turn.tail)
  {
    var cut := CutOf(remaining);
    StripSplit(remaining, cut);
    StripTrimEnd(remaining[..cut]);
    StripTrimStart(remaining[cut..]);
  }

  lemma {:induction false} TurnKeepsPrefix(remaining: Text, k: nat)
    requires |remaining| > HARD_CAP_CHARS && k <= MAX_PROSE_CARRY
    ensures Strip(remaining[..k]) <= Strip(CutProse(remaining).piece)
  {
    var cut := CutOf(remaining);
    StripPrefix(remaining, k, cut);
    StripTrimEnd(remaining[..cut]);
  }

  lemma {:induction false} DropPrefix(p: Text, t: Text, q: Text, r: Text)
    requires p + t == q + r && p <= q
    ensures t == q[|p|..] + r
  {
    assert t == (p + t)[|p|..];
    assert (q + r)[|p|..] == q[|p|..] + r;
  }

  // One turn: the piece repeats the carry and goes on with text of the tail, the rest stays behind.
  lemma {:induction false} TurnKeepsText(carry: Text, tail: Text, turn: Turn)
    requires |Joined(carry, tail)| > HARD_CAP_CHARS && |carry| <= MAX_PROSE_CARRY
             && turn == CutProse(Joined(carry, tail))
    ensures Strip(carry) <= Strip(turn.piece)
    ensures Strip(tail) == Strip(turn.piece)[|Strip(carry)|..] + Strip(turn.tail)
  {
    StripJoined(carry, tail);
    TurnSplits(Joined(carry, tail));
    assert Joined(carry, tail)[..|carry|] == carry;
    TurnKeepsPrefix(Joined(carry, tail), |carry|);
    DropPrefix(Strip(carry), Strip(tail), Strip(turn.piece), Strip(turn.tail));
  }

  lemma {:induction false} FreshTurn(carry: Text, tail: Text, turn: Turn, rest: seq<Fragment>)
    requires Strip(carry) <= Strip(turn.piece)
    requires Strip(tail) == Strip(turn.piece)[|Strip(carry)|..] + Strip(turn.tail)
    requires Fresh(rest) == Strip(turn.tail) && turn.piece != []
    ensures Fresh([Fragment(turn.piece, |Strip(carry)|)] + rest) == Strip(tail)
  {
    FreshCons(Fragment(turn.piece, |Strip(carry)|), rest);
  }

  lemma {:induction false} BlankTurn(carry: Text, tail: Text, turn: Turn, rest: seq<Fragment>)
    requires Strip(carry) <= Strip(turn.piece)
    requires Strip(tail) == Strip(turn.piece)[|Strip(carry)|..] + Strip(turn.tail)
    requires Fresh(rest) == Strip(turn.tail) && turn.piece == []
    ensures Fresh(rest) == Strip(tail)
  {
  }

  lemma {:induction false} AnyTurnKeepsFresh(carry: Text, tail: Text, turn: Turn, rest: seq<Fragment>)
    requires Strip(carry) <= Strip(turn.piece)
    requires Strip(tail) == Strip(turn.piece)[|Strip(carry)|..] + Strip(turn.tail)
    requires Fresh(rest) == Strip(turn.tail)
    ensures Fresh(Here(turn, carry) + rest) == Strip(tail)
  {
    if turn.piece == [] {
      BlankTurn(carry, tail, turn, rest);
      assert [] + rest == rest;
    } else {
      FreshTurn(carry, tail, turn, rest);
    }
  }

  lemma {:induction false} TurnKeepsFresh(carry: Text, tail: Text, turn: Turn, rest: seq<Fragment>)
    requires |Joined(carry, tail)| > HARD_CAP_CHARS && |carry| <= MAX_PROSE_CARRY
             && turn == CutProse(Joined(carry, tail))
    requires Fresh(rest) == Strip(turn.tail)
    ensures Fresh(Here(turn, carry) + rest) == Strip(tail)
  {
    TurnKeepsText(carry, tail, turn);
    AnyTurnKeepsFresh(carry, tail, turn, rest);
  }

  // Dropping the overlaps, every non-blank unit survives once and in order.
  lemma {:induction false} ProseKeepsText(carry: Text, tail: Text)
    requires |carry| <= MAX_PROSE_CARRY
    ensures Fresh(Prose(carry, tail)) == Strip(tail)
    decreases |Joined(carry, tail)|
  {
    var remaining := Joined(carry, tail);
    if |remaining| > HARD_CAP_CHARS {
      var turn := CutProse(remaining);
      ProseUnfolds(carry, tail, turn);
      ProseKeepsText(turn.carry, turn.tail);
      TurnKeepsFresh(carry, tail, turn, Prose(turn.carry, turn.tail));
    } else {
      LastProseKeepsText(carry, tail);
    }
  }

  lemma {:induction false} LastProseKeepsText(carry: Text, tail: Text)
    requires |Joined(carry, tail)| <= HARD_CAP_CHARS
    ensures Fresh(Prose(carry, tail)) == Strip(tail)
  {
    StripJoined(carry, tail);
    var last := Trim(Joined(carry, tail));
    StripTrim(Joined(carry, tail));
    if last != [] { FreshCons(Fragment(last, |Strip(carry)|), []); }
  }

  lemma {:induction false} FreshCons(f: Fragment, fs: seq<Fragment>)
    requires f.overlap <= |Strip(f.text)|
    ensures Fresh([f] + fs) == Strip(f.text)[f.overlap..] + Fresh(fs)
  {
    assert ([f] + fs)[1..] == fs;
  }

  // ... and what is dropped really repeats the end of the fragment before.
  predicate Echoes(f: Fragment, g: Fragment) {
    && g.overlap <= MAX_PROSE_CARRY && g.overlap <= |Strip(f.text)| && g.overlap <= |Strip(g.text)|
    && Strip(g.text)[..g.overlap] == Strip(f.text)[|Strip(f.text)| - g.overlap..]
  }

  predicate EchoChain(before: Fragment, fs: seq<Fragment>)
    decreases fs
  {
    |fs| > 0 ==> Echoes(before, fs[0]) && EchoChain(fs[0], fs[1..])
  }

  const NOTHING := Fragment([], 0)

  lemma {:induction false} EchoCons(before: Fragment, f: Fragment, fs: seq<Fragment>)
    requires Echoes(before, f) && EchoChain(f, fs)
    ensures EchoChain(before, [f] + fs)
  {
    assert ([f] + fs)[1..] == fs;
  }

  lemma {:induction false} SuffixEchoes(f: Fragment, carry: Text, g: Fragment)
    requires |carry| <= MAX_PROSE_CARRY && |carry| <= |f.text| && carry == f.text[|f.text| - |carry|..]
    requires Strip(carry) <= Strip(g.text) && g.overlap == |Strip(carry)|
    ensures Echoes(f, g)
  {
    StripSplit(f.text, |f.text| - |carry|);
  }

  lemma {:induction false} ProseEchoes(before: Fragment, carry: Text, tail: Text)
    requires |carry| <= MAX_PROSE_CARRY && |carry| <= |before.text| && carry == before.text[|before.text| - |carry|..]
    ensures EchoChain(before, Prose(carry, tail))
    decreases |Joined(carry, tail)|
  {
    var remaining := Joined(carry, tail);
    if |remaining| > HARD_CAP_CHARS {
      var turn := CutProse(remaining);
      ProseUnfolds(carry, tail, turn);
      if turn.piece != [] { TurnEchoes(before, carry, tail, turn); }
      var here := if turn.piece == [] then before else Fragment(turn.piece, |Strip(carry)|);
      TurnCarriesSuffix(remaining);
      ProseEchoes(here, turn.carry, turn.tail);
      if turn.piece == [] {
        assert Here(turn, carry) + Prose(turn.carry, turn.tail) == Prose(turn.carry, turn.tail);
      } else {
        EchoCons(before, here, Prose(turn.carry, turn.tail));
      }
    } else {
      LastEchoes(before, carry, tail);
    }
  }

  lemma {:induction false} TurnCarriesSuffix(remaining: Text)
    requires |remaining| > HARD_CAP_CHARS
    ensures var turn := CutProse(remaining);
            |turn.carry| <= |turn.piece| && turn.carry == turn.piece[|turn.piece| - |turn.carry|..]
  {
  }

  lemma {:induction false} TurnEchoes(before: Fragment, carry: Text, tail: Text, turn: Turn)
    requires |Joined(carry, tail)| > HARD_CAP_CHARS && turn == CutProse(Joined(carry, tail)) && turn.piece != []
    requires |carry| <= MAX_PROSE_CARRY && |carry| <= |before.text| && carry == before.text[|before.text| - |carry|..]
    ensures Echoes(before, Fragment(turn.piece, |Strip(carry)|))
  {
    TurnKeepsText(carry, tail, turn);
    SuffixEchoes(before, carry, Fragment(turn.piece, |Strip(carry)|));
  }

  lemma {:induction false} LastEchoes(before: Fragment, carry: Text, tail: Text)
    requires |Joined(carry, tail)| <= HARD_CAP_CHARS
    requires |carry| <= MAX_PROSE_CARRY && |carry| <= |before.text| && carry == before.text[|before.text| - |carry|..]
    ensures EchoChain(before, Prose(carry, tail))
  {
    var last := Trim(Joined(carry, tail));
    StripJoined(carry, tail);
    StripTrim(Joined(carry, tail));
    if last != [] {
      SuffixEchoes(before, carry, Fragment(last, |Strip(carry)|));
      EchoCons(before, Fragment(last, |Strip(carry)|), []);
    }
  }

  lemma {:induction false} ProseFragmentsAreSound(content: Text, before: Fragment)
    ensures Fresh(ProseFragments(content)) == Strip(content)
    ensures EchoChain(before, ProseFragments(content))
  {
    if |content| > HARD_CAP_CHARS {
      ProseKeepsText([], content);
      ProseEchoes(before, [], content);
    } else {
      FreshCons(Fragment(content, 0), []);
    }
  }

  // Every fragment is a non-blank text within the cap, with no surrogate pair cut in two.
  predicate GoodFragment(f: Fragment, wellFormed: bool) {
    && 1 <= |f.text| <= HARD_CAP_CHARS && !IsBlank(f.text) && f.overlap <= |Strip(f.text)|
    && (wellFormed ==> WellFormed(f.text))
  }

  lemma {:induction false} TurnIsGood(remaining: Text)
    requires |remaining| > HARD_CAP_CHARS
    ensures CutProse(remaining).piece != [] ==> !IsBlank(CutProse(remaining).piece)
  {
    var cut := CutOf(remaining);
    TrimEndShape(remaining[..cut]);
    if CutProse(remaining).piece != [] { EndsInText(CutProse(remaining).piece); }
  }

  lemma {:induction false} TurnIsWellFormed(remaining: Text)
    requires |remaining| > HARD_CAP_CHARS && WellFormed(remaining)
    ensures var turn := CutProse(remaining); WellFormed(turn.piece) && WellFormed(turn.carry) && WellFormed(turn.tail)
  {
    var cut := CutOf(remaining);
    SafeCutIsSafe(remaining, ProseCut(remaining, TARGET_CHARS));
    WellFormedParts(remaining, cut);
    WellFormedTrimEnd(remaining[..cut]);
    SuffixSafeIsSafe(TrimEnd(remaining[..cut]), MAX_PROSE_CARRY);
    WellFormedTrimStart(remaining[cut..]);
  }

  lemma {:induction false} ProseIsGood(carry: Text, tail: Text, wellFormed: bool)
    requires |carry| <= MAX_PROSE_CARRY && (wellFormed ==> WellFormed(carry) && WellFormed(tail))
    ensures forall f <- Prose(carry, tail) :: GoodFragment(f, wellFormed)
    decreases |Joined(carry, tail)|
  {
    var remaining := Joined(carry, tail);
    if wellFormed { WellFormedJoined(carry, tail); }
    if |remaining| > HARD_CAP_CHARS {
      var turn := CutProse(remaining);
      if wellFormed { TurnIsWellFormed(remaining); }
      TurnIsGood(remaining);
      TurnKeepsText(carry, tail, turn);
      ProseUnfolds(carry, tail, turn);
      ProseIsGood(turn.carry, turn.tail, wellFormed);
    } else {
      if wellFormed { WellFormedTrim(remaining); }
      StripJoined(carry, tail);
      StripTrim(remaining);
      TrimBlank(remaining);
    }
  }

  lemma {:induction false} WellFormedJoined(carry: Text, tail: Text)
    requires WellFormed(carry) && WellFormed(tail)
    ensures WellFormed(Joined(carry, tail))
  {
    if carry != [] {
      WellFormedConcat(carry, [NEWLINE]);
      WellFormedConcat(carry + [NEWLINE], tail);
    }
  }

  lemma {:induction false} ProseFragmentsAreGood(content: Text, wellFormed: bool)
    requires !IsBlank(content) && (wellFormed ==> WellFormed(content))
    ensures ProseFragments(content) != [] && forall f <- ProseFragments(content) :: GoodFragment(f, wellFormed)
  {
    if |content| > HARD_CAP_CHARS {
      ProseIsGood([], content, wellFormed);
      ProseKeepsText([], content);
    }
  }

  predicate GoodPiece(piece: Text, wellFormed: bool) {
    1 <= |piece| <= HARD_CAP_CHARS && !IsBlank(piece) && (wellFormed ==> WellFormed(piece))
  }

  lemma {:induction false} CodeCutIsSafe(remaining: Text)
    requires |remaining| > HARD_CAP_CHARS && WellFormed(remaining)
    ensures !IsHighSurrogate(remaining[CodeCut(remaining) - 1])
  {
    var newline := LastIndexOf(remaining[..HARD_CAP_CHARS + 1], NEWLINE);
    assert PairedAt(remaining, 0);
    if newline != 1 { SafeCutIsSafe(remaining, if newline <= 0 then HARD_CAP_CHARS else newline); }
  }

  lemma {:induction false} CodeCutSplits(remaining: Text)
    requires |remaining| > HARD_CAP_CHARS
    ensures var cut := CodeCut(remaining);
            && Strip(remaining) == Strip(TrimEnd(remaining[..cut])) + Strip(TrimStart(remaining[cut..]))
            && (TrimEnd(remaining[..cut]) != [] ==> !IsBlank(TrimEnd(remaining[..cut])))
            && (TrimStart(remaining[cut..]) != [] ==> !IsBlank(TrimStart(remaining[cut..])))
  {
    var cut := CodeCut(remaining);
    StripSplit(remaining, cut);
    StripTrimEnd(remaining[..cut]);
    StripTrimStart(remaining[cut..]);
    TrimEndBlank(remaining[..cut]);
    TrimStartBlank(remaining[cut..]);
  }

  lemma {:induction false} CodeIsGood(remaining: Text, wellFormed: bool)
    requires |remaining| <= HARD_CAP_CHARS ==> remaining == [] || !IsBlank(remaining)
    requires wellFormed ==> WellFormed(remaining)
    ensures forall piece <- Code(remaining) :: GoodPiece(piece, wellFormed)
    decreases |remaining|
  {
    if |remaining| > HARD_CAP_CHARS {
      var cut := CodeCut(remaining);
      if wellFormed {
        CodeCutIsSafe(remaining);
        WellFormedParts(remaining, cut);
        WellFormedTrimEnd(remaining[..cut]);
        WellFormedTrimStart(remaining[cut..]);
      }
      CodeCutSplits(remaining);
      CodeIsGood(TrimStart(remaining[cut..]), wellFormed);
    }
  }

  lemma {:induction false} StripAllCons(piece: Text, rest: seq<Text>)
    ensures StripAll((if piece == [] then [] else [piece]) + rest) == Strip(piece) + StripAll(rest)
  {
    if piece == [] { assert [] + rest == rest; } else { assert ([piece] + rest)[1..] == rest; }
  }

  lemma {:induction false} CodeKeepsText(remaining: Text)
    ensures StripAll(Code(remaining)) == Strip(remaining)
    decreases |remaining|
  {
    if |remaining| > HARD_CAP_CHARS {
      var cut := CodeCut(remaining);
      var rest := TrimStart(remaining[cut..]);
      CodeKeepsText(rest);
      CodeCutSplits(remaining);
      StripAllCons(TrimEnd(remaining[..cut]), Code(rest));
    }
  }
}
