/**
 * Sources the walk accepts although a stream has not its dictionary's own Length
 * (packages/cardano-agent/src/privateComparison/privateDocumentWorker.ts:502-522, 596-611 and 624-641).
 *
 * Both are one dictionary and its stream of one byte (`SourceOf`).  In the first the members are
 * "/Length 1()": a string too many for pairs of a name and a value, so that they are no dictionary and have
 * no Length, yet the walk, which only asks which key waits for a value, passes over the string and uses the
 * 1.  It does so whatever integer objects the file has.  In the second they are a name of over 128
 * bytes, "/Length", another such name, and "1": as pairs the first name has the value Length
 * and the other the value 1, but the walk is shown no long name and reads a Length of 1.  That the walk
 * accepts them is shown by the forest they read as (`MisreadDictionary`).
 */
module PdfMisread {
  import opened Wrappers
  import opened PdfTokens
  import opened PdfWalk
  import opened PdfItems
  import opened PdfForest
  import opened PdfSafety
  import opened PdfLength

  // Node i is a stream of dictionary j and has not the Length of that dictionary.
  predicate IsMisread(s: string, objects: Objects, forest: seq<Node>, j: nat, i: nat) {
    && Tiles(s, objects, Top, forest, 0, |s|) && j < i < |forest| && IsStreamOf(s, objects, forest[j], forest[i])
    && DictionaryLength(s, forest[j].kids, objects) != Some(forest[i].bodyTo - forest[i].bodyFrom)
  }

  ghost predicate HasMisreadStream(s: string, objects: Objects) {
    exists forest, j, i :: IsMisread(s, objects, forest, j, i)
  }

  // A dictionary with these members and its stream of one byte.
  function SourceOf(members: string): string { "<<" + members + ">>" + "\n" + "stream" + "\nX\n" + "endstream" }

  lemma {:induction false} PartOf(s: string, a: string, b: string)
    requires a + b <= s
    ensures a <= s && StartsAt(s, b, |a|)
  {
    assert s[|a|..|a| + |b|] == (a + b)[|a|..];
  }

  lemma {:induction false} Parts(open: string, members: string, close: string, gap: string, word: string,
                                 body: string, end: string)
    ensures var s := open + members + close + gap + word + body + end;
            && StartsAt(s, open, 0) && StartsAt(s, members, |open|) && StartsAt(s, close, |open + members|)
            && StartsAt(s, gap, |open + members + close|) && StartsAt(s, word, |open + members + close + gap|)
            && StartsAt(s, body, |open + members + close + gap + word|)
            && StartsAt(s, end, |open + members + close + gap + word + body|)
  {
    hide StartsAt;
    var p2 := open + members;
    var p3 := p2 + close;
    var p4 := p3 + gap;
    var p5 := p4 + word;
    var p6 := p5 + body;
    var s := p6 + end;
    PartOf(s, p6, end);
    PartOf(s, p5, body);
    PartOf(s, p4, word);
    PartOf(s, p3, gap);
    PartOf(s, p2, close);
    PartOf(s, open, members);
    assert "" + open == open;
    PartOf(s, "", open);
  }

  lemma {:induction false} SourceParts(members: string)
    ensures var s := SourceOf(members);
            var e := 2 + |members|;
            && |s| == e + 21 && s[2..e] == members && StartsAt(s, "<<", 0) && StartsAt(s, ">>", e)
            && s[e + 2..e + 3] == "\n" && StartsAt(s, "stream", e + 3) && s[e + 9] == '\n' && s[e + 10] == 'X'
            && s[e + 11] == '\n' && StartsAt(s, "endstream", e + 12)
  {
    var s, e := SourceOf(members), 2 + |members|;
    Parts("<<", members, ">>", "\n", "stream", "\nX\n", "endstream");
    assert s[e + 9] == s[e + 9..e + 12][0] && s[e + 10] == s[e + 9..e + 12][1] && s[e + 11] == s[e + 9..e + 12][2];
  }

  // A dictionary that shows a Length of one and has not that Length makes such a source.
  lemma {:induction false} MisreadDictionary(members: string, objects: Objects, kids: seq<Node>)
    requires var s := SourceOf(members);
             && Tiles(s, objects, Members(true), kids, 2, 2 + |members|)
             && KeyWaiting(Items(s, kids)) == None && !EndsInReference(Items(s, kids))
             && LengthOf(Items(s, kids), objects) == Some(1) && DictionaryLength(s, kids, objects) != Some(1)
    ensures Walk(SourceOf(members), objects, START) == Safe && HasMisreadStream(SourceOf(members), objects)
  {
    hide Tiles, Items, KeyWaiting, EndsInReference, LengthOf, DictionaryLength, Walk, SourceOf;
    var s, e := SourceOf(members), 2 + |members|;
    SourceParts(members);
    assert s[e + 2] == s[e + 2..e + 3][0];
    var d, white, body := Group(true, 0, e + 2, kids), Leaf(White, e + 2, e + 3), Body(e + 3, e + 21, e + 10, e + 11);
    assert StartsAt(s, Opener(true), 0) && StartsAt(s, Closer(true), e);
    assert Tiles(s, objects, Top, [], 0, 0) by { NoTiles(s, objects); }
    TilesSnoc(s, objects, Top, [], 0, d);
    assert [] + [d] == [d];
    TilesSnoc(s, objects, Top, [d], 0, white);
    assert [d] + [white] == [d, white];
    assert IsGap(s[d.to..body.from]) by { NewlineIsGap(); }
    assert IsStreamOf(s, objects, d, body);
    assert HasStreamOf(s, objects, [d, white], body) by { assert [d, white][0] == d; }
    TilesSnoc(s, objects, Top, [d, white], 0, body);
    var forest := [d, white, body];
    assert [d, white] + [body] == forest;
    assert Tiles(s, objects, Top, forest, 0, |s|);
    assert IsMisread(s, objects, forest, 0, 2);
    SafeExactlyWhenReadable(s, objects);
  }

  lemma {:induction false} NoTiles(s: string, objects: Objects)
    ensures Tiles(s, objects, Top, [], 0, 0) && Tiles(s, objects, Members(true), [], 2, 2)
  {
  }

  lemma {:induction false} NoItems(s: string)
    ensures Items(s, []) == []
  {
  }

  lemma {:induction false} NewlineIsGap()
    ensures IsGap("\n")
  {
    assert "\n"[..0] == "";
  }

  // One more leaf among the members.
  lemma {:induction false} OneMoreLeaf(s: string, objects: Objects, kids: seq<Node>, n: Node)
    requires Tiles(s, objects, Members(true), kids, 2, n.from) && n.Leaf? && IsLeaf(s, n.kind, n.from, n.to)
    requires n.kind.Name? ==>
               Decoded(s[n.from + 1..n.to]) == "Length" || n.to - n.from - 1 > PDF_MAX_NAME_TOKEN_BYTES
    ensures Tiles(s, objects, Members(true), kids + [n], 2, n.to)
    ensures Items(s, kids + [n]) == Items(s, kids) + match ItemOf(s, n) case None => [] case Some(x) => [x]
  {
    hide Tiles, IsLeaf, Decoded, ItemOf;
    assert (kids + [n])[..|kids|] == kids;
    LeafMoves(s, n);
    LeafIsSound(s, objects, n);
    if n.kind.Name? && n.to - n.from - 1 > PDF_MAX_NAME_TOKEN_BYTES { LongNamesAreHarmless(s[n.from + 1..n.to]); }
    TilesSnoc(s, objects, Members(true), kids, 2, n);
  }

  lemma {:induction false} LeafMoves(s: string, n: Node)
    requires n.Leaf? && IsLeaf(s, n.kind, n.from, n.to)
    ensures n.from < n.to <= |s|
  {
  }

  lemma {:induction false} WordLeaf(s: string, from: nat, c: char)
    requires from + 1 < |s| && s[from] == c && !IsDelimiter(c) && IsDelimiter(s[from + 1])
    ensures IsLeaf(s, Word, from, from + 1) && ItemOf(s, Leaf(Word, from, from + 1)) == Some(WordItem([c]))
    ensures WordOf(s, Leaf(Word, from, from + 1)) == [c]
  {
    hide IsDelimiter, WordItem;
    assert s[from..from + 1] == [c];
    assert |s[from..from + 1]| == 1 && |"stream"| == 6;
  }

  lemma {:induction false} WhiteLeaf(s: string, from: nat)
    requires from < |s| && s[from] == ' '
    ensures IsLeaf(s, White, from, from + 1) && ItemOf(s, Leaf(White, from, from + 1)) == None
  {
  }

  lemma {:induction false} SmallNumbers()
    ensures WordItem("1") == NumberItem(1) && IsInteger("1") && IntegerValue("1") == 1
  {
    assert "1"[..0] == "";
  }

  lemma {:induction false} PlainLength()
    ensures Decoded("Length") == "Length"
  {
    assert "Length"[1..] == "ength" && "ength"[1..] == "ngth" && "ngth"[1..] == "gth" && "gth"[1..] == "th";
    assert "th"[1..] == "h" && "h"[1..] == "";
  }

  // ---------------------------------------------------------------- members that are no pairs

  function OddMembers(): seq<Node> { [Leaf(Name, 2, 9), Leaf(White, 9, 10), Leaf(Word, 10, 11), Leaf(Str, 11, 13)] }

  const ODD_ITEMS: seq<Item> := [NameItem("Length"), NumberItem(1), OtherItem]

  lemma {:induction false} OddSays(objects: Objects)
    ensures KeyWaiting(ODD_ITEMS) == None && !EndsInReference(ODD_ITEMS) && LengthOf(ODD_ITEMS, objects) == Some(1)
  {
    hide KeyWaiting, EndsInReference, IsOrderly, LengthValue, HasLength, LastField, LastNumber;
    NothingSaid(objects);
    NameSays(FRESH, [], objects, "Length");
    var d1, x1 := FeedName(FRESH, "Length"), [] + [NameItem("Length")];
    ValueSays(d1, x1, objects, NumberValue, Some(1), NumberItem(1));
    var d2, x2 := Assign(d1, NumberValue, Some(1)), x1 + [NumberItem(1)];
    ValueSays(d2, x2, objects, OtherValue, None, OtherItem);
    assert x2 + [OtherItem] == ODD_ITEMS;
  }

  lemma {:induction false} OddIsNoDictionary(s: string)
    ensures Entries(s, OddMembers()) == None
  {
    hide WordOf, IsInteger, IntegerValue, NameText;
    var kids := OddMembers();
    assert Skip(kids) == kids && Skip(kids[1..]) == kids[2..] by { assert kids[1..][1..] == kids[2..]; }
    assert kids[2..][1..] == kids[3..] && Skip(kids[3..]) == kids[3..];
    assert !StartsReference(s, kids[2..]);
    assert ValueAt(s, kids[2..]).value.1 == kids[3..];
    assert Entries(s, kids[3..]) == None;
  }

  lemma {:induction false} OddChars(s: string)
    requires |s| > 13 && s[2..13] == "/Length 1()" && s[13] == '>'
    ensures s[3..9] == "Length" && IsLeaf(s, Name, 2, 9)
            && ItemOf(s, Leaf(Name, 2, 9)) == Some(NameItem(Decoded("Length")))
    ensures IsLeaf(s, White, 9, 10) && ItemOf(s, Leaf(White, 9, 10)) == None
    ensures IsLeaf(s, Word, 10, 11) && ItemOf(s, Leaf(Word, 10, 11)) == Some(WordItem("1"))
    ensures IsLeaf(s, Str, 11, 13) && ItemOf(s, Leaf(Str, 11, 13)) == Some(OtherItem)
  {
    hide WordItem, WordOf, Decoded;
    var members := "/Length 1()";
    assert forall k | 0 <= k < 11 :: members[k] == s[2..13][k];
    WhiteLeaf(s, 9);
    WordLeaf(s, 10, '1');
    LengthLeaf(s, 2);
  }

  // "<</Length 1()>>" has a value without a name and is no dictionary, whatever objects there are, yet the
  // walk takes the 1 for the Length of its stream.
  lemma {:induction false} PairsAreNeeded(objects: Objects)
    ensures Walk(SourceOf("/Length 1()"), objects, START) == Safe && HasMisreadStream(SourceOf("/Length 1()"), objects)
  {
    hide Walk, SourceOf, Tiles, Items, ItemOf, IsLeaf, KeyWaiting, EndsInReference, LengthOf, Entries, Decoded,
         WordItem, WordOf, HasMisreadStream, Allowed, Sound;
    var members := "/Length 1()";
    var s := SourceOf(members);
    SourceParts(members);
    assert s[13] == s[13..15][0];
    OddChars(s);
    SmallNumbers();
    PlainLength();
    NoTiles(s, objects);
    NoItems(s);
    var k0 := [];
    OneMoreLeaf(s, objects, k0, Leaf(Name, 2, 9));
    var k1 := k0 + [Leaf(Name, 2, 9)];
    OneMoreLeaf(s, objects, k1, Leaf(White, 9, 10));
    var k2 := k1 + [Leaf(White, 9, 10)];
    OneMoreLeaf(s, objects, k2, Leaf(Word, 10, 11));
    var k3 := k2 + [Leaf(Word, 10, 11)];
    OneMoreLeaf(s, objects, k3, Leaf(Str, 11, 13));
    assert k3 + [Leaf(Str, 11, 13)] == OddMembers();
    var x1 := [NameItem("Length")];
    assert Items(s, k1) == [] + x1 == x1 && Items(s, k2) == x1 + [] == x1;
    assert Items(s, k3) == x1 + [NumberItem(1)];
    assert Items(s, OddMembers()) == x1 + [NumberItem(1)] + [OtherItem] == ODD_ITEMS;
    OddSays(objects);
    OddIsNoDictionary(s);
    MisreadDictionary(members, objects, OddMembers());
  }

  // "/Length" at an offset, ended there.
  lemma {:induction false} LengthLeaf(s: string, from: nat)
    requires from + 7 < |s| && s[from] == '/' && s[from + 1] == 'L' && s[from + 2] == 'e' && s[from + 3] == 'n'
             && s[from + 4] == 'g'
    requires s[from + 5] == 't' && s[from + 6] == 'h' && IsDelimiter(s[from + 7])
    ensures IsLeaf(s, Name, from, from + 7) && s[from + 1..from + 7] == "Length"
    ensures ItemOf(s, Leaf(Name, from, from + 7)) == Some(NameItem(Decoded("Length")))
  {
    hide IsLeaf, ItemOf, Decoded;
    assert s[from + 1..from + 7] == "Length";
    NameLeaf(s, from, from + 7);
  }

  lemma {:induction false} NameLeaf(s: string, from: nat, to: nat)
    requires from + 1 < to < |s| && s[from] == '/' && IsDelimiter(s[to])
             && forall k | from < k < to :: !IsDelimiter(s[k])
    ensures IsLeaf(s, Name, from, to)
    ensures ItemOf(s, Leaf(Name, from, to))
            == if to - from - 1 > PDF_MAX_NAME_TOKEN_BYTES then None else Some(NameItem(Decoded(s[from + 1..to])))
  {
    hide Decoded, IsDelimiter;
  }

  // ---------------------------------------------------------------- names that are too long

  function LongMembers(a: string): string { "/" + a + "/Length/" + a + " 1" }

  function LongKids(n: nat): seq<Node> {
    [Leaf(Name, 2, 3 + n), Leaf(Name, 3 + n, 10 + n), Leaf(Name, 10 + n, 11 + 2 * n),
     Leaf(White, 11 + 2 * n, 12 + 2 * n),
     Leaf(Word, 12 + 2 * n, 13 + 2 * n)]
  }

  lemma {:induction false} Shifted(s: string, m: string, at: nat, w: string, i: nat)
    requires StartsAt(s, m, at) && StartsAt(m, w, i)
    ensures StartsAt(s, w, at + i)
  {
    forall k | 0 <= k < |w| ensures s[at + i + k] == w[k] {
      assert s[at + i + k] == s[at..at + |m|][i + k] && m[i..i + |w|][k] == m[i + k];
    }
  }

  lemma {:induction false} LongParts(s: string, a: string)
    requires StartsAt(s, LongMembers(a), 2)
    ensures var n := |a|;
            && StartsAt(s, "/", 2) && StartsAt(s, a, 3) && StartsAt(s, "/Length/", 3 + n) && StartsAt(s, a, 11 + n)
            && StartsAt(s, " 1", 11 + 2 * n)
  {
    hide StartsAt;
    var m, n := LongMembers(a), |a|;
    Parts("/", a, "/Length/", a, " 1", "", "");
    assert m == "/" + a + "/Length/" + a + " 1" + "" + "";
    Shifted(s, m, 2, "/", 0);
    Shifted(s, m, 2, a, 1);
    Shifted(s, m, 2, "/Length/", 1 + n);
    Shifted(s, m, 2, a, 9 + n);
    Shifted(s, m, 2, " 1", 9 + 2 * n);
  }

  lemma {:induction false} NamedLeaf(s: string, from: nat, a: string)
    requires from + 1 + |a| < |s| && s[from] == '/' && StartsAt(s, a, from + 1) && IsDelimiter(s[from + 1 + |a|])
    requires |a| > 0 && forall k | 0 <= k < |a| :: !IsDelimiter(a[k])
    ensures IsLeaf(s, Name, from, from + 1 + |a|)
    ensures ItemOf(s, Leaf(Name, from, from + 1 + |a|))
            == if |a| > PDF_MAX_NAME_TOKEN_BYTES then None else Some(NameItem(Decoded(a)))
  {
    hide IsDelimiter, IsLeaf, ItemOf, Decoded;
    forall k | from < k < from + 1 + |a| ensures !IsDelimiter(s[k]) {
      assert s[k] == s[from + 1..from + 1 + |a|][k - from - 1] == a[k - from - 1];
    }
    NameLeaf(s, from, from + 1 + |a|);
  }

  lemma {:induction false} LongChars(s: string, n: nat)
    requires StartsAt(s, "/", 2) && StartsAt(s, "/Length/", 3 + n) && StartsAt(s, " 1", 11 + 2 * n)
    ensures |s| > 12 + 2 * n && s[2] == '/' && s[3 + n] == '/' && s[4 + n] == 'L' && s[5 + n] == 'e' && s[6 + n] == 'n'
    ensures s[7 + n] == 'g' && s[8 + n] == 't' && s[9 + n] == 'h' && s[10 + n] == '/'
    ensures s[11 + 2 * n] == ' ' && s[12 + 2 * n] == '1'
  {
    assert s[2] == s[2..3][0] && s[11 + 2 * n] == s[11 + 2 * n..13 + 2 * n][0]
        && s[12 + 2 * n] == s[11 + 2 * n..13 + 2 * n][1];
    var word := "/Length/";
    assert forall k | 0 <= k < 8 :: word[k] == s[3 + n..11 + n][k];
  }

  lemma {:induction false} LongLeaves(s: string, a: string)
    requires |s| > 13 + 2 * |a| && StartsAt(s, LongMembers(a), 2) && s[13 + 2 * |a|] == '>'
    requires |a| > PDF_MAX_NAME_TOKEN_BYTES && forall k | 0 <= k < |a| :: !IsDelimiter(a[k])
    ensures var n := |a|;
            && StartsAt(s, a, 3) && s[4 + n..10 + n] == "Length" && StartsAt(s, a, 11 + n)
            && IsLeaf(s, Name, 2, 3 + n) && IsLeaf(s, Name, 3 + n, 10 + n) && IsLeaf(s, Name, 10 + n, 11 + 2 * n)
            && IsLeaf(s, White, 11 + 2 * n, 12 + 2 * n) && IsLeaf(s, Word, 12 + 2 * n, 13 + 2 * n)
            && ItemOf(s, Leaf(Name, 2, 3 + n)) == None && ItemOf(s, Leaf(Name, 10 + n, 11 + 2 * n)) == None
            && ItemOf(s, Leaf(Name, 3 + n, 10 + n)) == Some(NameItem(Decoded("Length")))
            && ItemOf(s, Leaf(White, 11 + 2 * n, 12 + 2 * n)) == None
            && ItemOf(s, Leaf(Word, 12 + 2 * n, 13 + 2 * n)) == Some(WordItem("1"))
            && WordOf(s, Leaf(Word, 12 + 2 * n, 13 + 2 * n)) == "1"
  {
    hide IsLeaf, ItemOf, WordItem, WordOf, Decoded, LongMembers, IsDelimiter, StartsAt;
    var n := |a|;
    LongSize(a);
    LongParts(s, a);
    LongChars(s, n);
    PlainDelimiters();
    NamedLeaf(s, 2, a);
    LengthLeaf(s, 3 + n);
    NamedLeaf(s, 10 + n, a);
    WhiteLeaf(s, 11 + 2 * n);
    WordLeaf(s, 12 + 2 * n, '1');
  }

  lemma {:induction false} PlainDelimiters()
    ensures IsDelimiter('/') && IsDelimiter(' ') && IsDelimiter('>') && !IsDelimiter('1')
  {
  }

  lemma {:induction false} LongEntries(s: string, a: Node, length: Node, b: Node, white: Node, one: Node)
    requires IsNameLeaf(a) && IsNameLeaf(length) && IsNameLeaf(b) && IsSkipped(white) && one.Leaf? && one.kind.Word?
    requires WordOf(s, one) == "1"
    ensures Entries(s, [a, length, b, white, one])
            == Some([Entry(NameText(s, a), NameOf(NameText(s, length))), Entry(NameText(s, b), Int(1))])
  {
    hide IsInteger, IntegerValue, NameText, WordOf;
    SmallNumbers();
    var kids := [a, length, b, white, one];
    assert kids[1..] == [length, b, white, one] && [length, b, white, one][1..] == [b, white, one];
    assert [b, white, one][1..] == [white, one] && [white, one][1..] == [one] && [one][1..] == [];
    assert Skip([]) == [] && Skip([one]) == [one] && Skip([white, one]) == [one];
    var last := Entry(NameText(s, b), Int(1));
    assert Entries(s, []) == Some([]);
    assert ValueAt(s, [one]) == Some((Int(1), []));
    assert Entries(s, [b, white, one]) == Some([last] + []);
    assert [last] + [] == [last];
    assert ValueAt(s, kids[1..]) == Some((NameOf(NameText(s, length)), [b, white, one]));
    var first := Entry(NameText(s, a), NameOf(NameText(s, length)));
    assert [first] + [last] == [first, last];
  }

  lemma {:induction false} LengthOfOne(objects: Objects)
    ensures var xs := [NameItem("Length"), NumberItem(1)];
            KeyWaiting(xs) == None && !EndsInReference(xs) && LengthOf(xs, objects) == Some(1)
  {
    hide KeyWaiting, EndsInReference, IsOrderly, LengthValue, HasLength, LastField, LastNumber;
    NothingSaid(objects);
    NameSays(FRESH, [], objects, "Length");
    var x1 := [] + [NameItem("Length")];
    ValueSays(FeedName(FRESH, "Length"), x1, objects, NumberValue, Some(1), NumberItem(1));
    assert x1 + [NumberItem(1)] == [NameItem("Length"), NumberItem(1)];
  }

  lemma {:induction false} NoLengthAmong(key: string, key': string, value: Value)
    requires key != "Length" && key' != "Length"
    ensures Lengths([Entry(key, value), Entry(key', Int(1))]) == []
  {
    var es := [Entry(key, value), Entry(key', Int(1))];
    assert es[1..] == [Entry(key', Int(1))] && [Entry(key', Int(1))][1..] == [];
    assert Lengths([]) == [] && Lengths(es[1..]) == [];
  }

  lemma {:induction false} LongTiles(s: string, a: string, objects: Objects)
    requires |s| > 13 + 2 * |a| && StartsAt(s, LongMembers(a), 2) && s[13 + 2 * |a|] == '>'
    requires |a| > PDF_MAX_NAME_TOKEN_BYTES && forall k | 0 <= k < |a| :: !IsDelimiter(a[k])
    ensures Tiles(s, objects, Members(true), LongKids(|a|), 2, 13 + 2 * |a|)
    ensures Items(s, LongKids(|a|)) == [NameItem("Length"), NumberItem(1)]
  {
    hide LongMembers, Tiles, Items, ItemOf, IsLeaf, Decoded, WordItem, WordOf, Allowed, Sound, IsDelimiter, StartsAt;
    var n := |a|;
    LongLeaves(s, a);
    SmallNumbers();
    PlainLength();
    NoTiles(s, objects);
    NoItems(s);
    var l1, l2, l3 := Leaf(Name, 2, 3 + n), Leaf(Name, 3 + n, 10 + n), Leaf(Name, 10 + n, 11 + 2 * n);
    var l4, l5 := Leaf(White, 11 + 2 * n, 12 + 2 * n), Leaf(Word, 12 + 2 * n, 13 + 2 * n);
    var k0 := [];
    OneMoreLeaf(s, objects, k0, l1);
    var k1 := k0 + [l1];
    OneMoreLeaf(s, objects, k1, l2);
    var k2 := k1 + [l2];
    OneMoreLeaf(s, objects, k2, l3);
    var k3 := k2 + [l3];
    OneMoreLeaf(s, objects, k3, l4);
    var k4 := k3 + [l4];
    OneMoreLeaf(s, objects, k4, l5);
    var k5 := k4 + [l5];
    assert k5 == LongKids(n);
    var x2 := [NameItem("Length")];
    assert Items(s, k1) == [] + [] == [] && Items(s, k2) == [] + x2 == x2;
    assert Items(s, k3) == x2 + [] == x2 && Items(s, k4) == x2 + [] == x2;
    assert Items(s, k5) == x2 + [NumberItem(1)] == [NameItem("Length"), NumberItem(1)];
  }

  // Two names too long to be looked at, the one as a key and the other as the next key: the dictionary
  // has no Length, and the walk takes the name between them for one.
  lemma {:induction false} LongNamesMislead(a: string, objects: Objects)
    requires |a| > PDF_MAX_NAME_TOKEN_BYTES && forall k | 0 <= k < |a| :: !IsDelimiter(a[k])
    ensures Walk(SourceOf(LongMembers(a)), objects, START) == Safe
            && HasMisreadStream(SourceOf(LongMembers(a)), objects)
  {
    hide Walk, SourceOf, LongMembers, Tiles, Items, IsLeaf, ItemOf, KeyWaiting, EndsInReference, LengthOf, Entries,
         Decoded, WordItem, WordOf, HasMisreadStream, Lengths, IsDelimiter;
    var members, n := LongMembers(a), |a|;
    var s := SourceOf(members);
    LongSize(a);
    SourceParts(members);
    assert s[13 + 2 * n] == s[13 + 2 * n..15 + 2 * n][0];
    LongLeaves(s, a);
    LongTiles(s, a, objects);
    LengthOfOne(objects);
    var kids := LongKids(n);
    LongEntries(s, kids[0], kids[1], kids[2], kids[3], kids[4]);
    assert kids == [kids[0], kids[1], kids[2], kids[3], kids[4]];
    RawAtMostThrice(a);
    NoLengthAmong(NameText(s, kids[0]), NameText(s, kids[2]), NameOf(NameText(s, kids[1])));
    MisreadDictionary(members, objects, kids);
  }

  lemma {:induction false} LongSize(a: string)
    ensures |LongMembers(a)| == 11 + 2 * |a|
  {
  }

  // Such names exist.
  lemma {:induction false} ShortNamesAreNeeded(objects: Objects)
    ensures var s := SourceOf(LongMembers(seq(129, i => 'a')));
            Walk(s, objects, START) == Safe && HasMisreadStream(s, objects)
  {
    LongNamesMislead(seq(129, i => 'a'), objects);
  }
}
