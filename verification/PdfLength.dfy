/**
 * The Length of a stream, as the walk sees it and as a dictionary gives it
 * (packages/cardano-agent/src/privateComparison/privateDocumentWorker.ts:502-522, 600-611 and 642-657).
 *
 * Section 7.3.7 of ISO 32000-1 makes a dictionary a list of pairs of a name and a value.  `Entries`
 * reads the direct members that way, and `DictionaryLength` is the value of the one Length entry.  The
 * walk passes over names of over 128 bytes, so it reads the Length of what is left (`Shown`); the two are
 * the same Length exactly when the hidden names make no difference.
 *
 * `Tally` is what one entry does to the walk's three marks; `FoldEntries` shows that the walk, which
 * sees tokens and not entries, comes to the same.
 */
module PdfLength {
  import opened Wrappers
  import opened PdfTokens
  import opened PdfWalk
  import opened PdfItems
  import opened PdfForest

  datatype Value = Int(n: int) | Ref(number: int, generation: int) | NameOf(name: string) | Plain | Other
  datatype Entry = Entry(key: string, value: Value)

  predicate IsSkipped(n: Node) { n.Leaf? && (n.kind.White? || n.kind.Comment?) }

  // The members without leading white space and comments.
  function Skip(kids: seq<Node>): (r: seq<Node>)
    ensures |r| <= |kids|
    decreases |kids|
  {
    if |kids| > 0 && IsSkipped(kids[0]) then Skip(kids[1..]) else kids
  }

  predicate Inside(s: string, n: Node) { n.Leaf? ==> n.from < n.to <= |s| }

  predicate AllInside(s: string, kids: seq<Node>)
    decreases |kids|
  {
    |kids| > 0 ==> Inside(s, kids[0]) && AllInside(s, kids[1..])
  }

  function WordOf(s: string, n: Node): string {
    if n.Leaf? && n.kind.Word? && n.from < n.to <= |s| then s[n.from..n.to] else ""
  }

  predicate IsNumber(s: string, n: Node) { n.Leaf? && n.kind.Word? && IsInteger(WordOf(s, n)) }

  function NumberOf(s: string, n: Node): int
    requires IsNumber(s, n)
  {
    IntegerValue(WordOf(s, n))
  }

  function NameText(s: string, n: Node): string {
    if n.Leaf? && n.kind.Name? && n.from < n.to <= |s| then Decoded(s[n.from + 1..n.to]) else ""
  }

  predicate IsNameLeaf(n: Node) { n.Leaf? && n.kind.Name? }

  // "n g R" at the front?
  predicate StartsReference(s: string, v: seq<Node>) {
    && |v| > 0 && IsNumber(s, v[0])
    && |Skip(v[1..])| > 0 && IsNumber(s, Skip(v[1..])[0])
    && |Skip(Skip(v[1..])[1..])| > 0 && WordOf(s, Skip(Skip(v[1..])[1..])[0]) == "R"
  }

  // The value at the front of the members, and the members behind it.
  function ValueAt(s: string, v: seq<Node>): (r: Option<(Value, seq<Node>)>)
    requires |v| > 0
    ensures r.Some? ==> |r.value.1| < |v|
  {
    if StartsReference(s, v) then
      var second := Skip(v[1..]);
      Some((Ref(NumberOf(s, v[0]), NumberOf(s, second[0])), Skip(second[1..])[1..]))
    else
      match v[0]
      case Group(_, _, _, _) => Some((Other, v[1..]))
      case Body(_, _, _, _) => None
      case Leaf(kind, _, _) =>
        match kind
        case Str => Some((Other, v[1..]))
        case Hex => Some((Other, v[1..]))
        case Name => Some((NameOf(NameText(s, v[0])), v[1..]))
        case Word => Some((if IsNumber(s, v[0]) then Int(NumberOf(s, v[0])) else Plain, v[1..]))
        case _ => None
  }

  function Entries(s: string, kids: seq<Node>): Option<seq<Entry>>
    decreases |kids|
  {
    var k := Skip(kids);
    if |k| == 0 then Some([])
    else if !IsNameLeaf(k[0]) || |Skip(k[1..])| == 0 then None
    else
      match ValueAt(s, Skip(k[1..]))
      case None => None
      case Some(found) =>
        match Entries(s, found.1)
        case None => None
        case Some(es) => Some([Entry(NameText(s, k[0]), found.0)] + es)
  }

  // The values of the Length entries, in order.
  function Lengths(es: seq<Entry>): seq<Value> {
    if |es| == 0 then [] else (if es[0].key == "Length" then [es[0].value] else []) + Lengths(es[1..])
  }

  predicate HasPlain(es: seq<Entry>) { exists i :: 0 <= i < |es| && es[i].value.Plain? }

  function Resolved(v: Value, objects: Objects): Option<int> {
    match v
    case Int(n) => Some(n)
    case Ref(number, generation) => if generation == 0 && number in objects then Some(objects[number]) else None
    case _ => None
  }

  // The single Length, direct or resolved.
  function SingleLength(es: seq<Entry>, objects: Objects): Option<int> {
    if |Lengths(es)| != 1 then None else Resolved(Lengths(es)[0], objects)
  }

  // The Length the members give, if they are a dictionary at all.
  function DictionaryLength(s: string, kids: seq<Node>, objects: Objects): Option<int> {
    match Entries(s, kids)
    case None => None
    case Some(es) => SingleLength(es, objects)
  }

  // The walk uses no Length at all where a value is a word like true or null.
  function StrictLength(es: seq<Entry>, objects: Objects): Option<int> {
    if HasPlain(es) then None else SingleLength(es, objects)
  }

  predicate IsShort(n: Node) { IsNameLeaf(n) ==> n.to - n.from - 1 <= PDF_MAX_NAME_TOKEN_BYTES }

  predicate ShortNames(kids: seq<Node>)
    decreases |kids|
  {
    |kids| > 0 ==> IsShort(kids[0]) && ShortNames(kids[1..])
  }

  // Members within the source, no name among them too long.
  predicate Fine(s: string, kids: seq<Node>) { AllInside(s, kids) && ShortNames(kids) }

  lemma {:induction false} FineFirst(s: string, kids: seq<Node>)
    requires Fine(s, kids) && |kids| > 0
    ensures Inside(s, kids[0]) && IsShort(kids[0]) && Fine(s, kids[1..])
  {
  }

  lemma {:induction false} FineSkip(s: string, kids: seq<Node>)
    requires Fine(s, kids)
    ensures Fine(s, Skip(kids))
    decreases |kids|
  {
    if |kids| > 0 && IsSkipped(kids[0]) { FineSkip(s, kids[1..]); }
  }

  // ---------------------------------------------------------------- entry by entry

  lemma {:induction false} FoldSkip(s: string, objects: Objects, d: Dictionary, kids: seq<Node>)
    ensures Fold(s, objects, d, kids) == Fold(s, objects, d, Skip(kids))
    decreases |kids|
  {
    if |kids| > 0 && IsSkipped(kids[0]) { FoldSkip(s, objects, d, kids[1..]); }
  }

  lemma {:induction false} MalformedStays(s: string, objects: Objects, d: Dictionary, kids: seq<Node>)
    requires d.malformed
    ensures Fold(s, objects, d, kids).malformed
    decreases |kids|
  {
    if |kids| > 0 {
      FeedKeepsMalformed(s, objects, d, kids[0]);
      MalformedStays(s, objects, Feed(s, objects, d, kids[0]), kids[1..]);
    }
  }

  lemma {:induction false} FeedKeepsMalformed(s: string, objects: Objects, d: Dictionary, n: Node)
    requires d.malformed
    ensures Feed(s, objects, d, n).malformed
  {
    hide IsInteger, Decoded, IntegerValue;
  }

  // Between entries.
  predicate IsRested(d: Dictionary) { d.pendingKey == None && !d.referencePending }

  // What one entry does to malformed, lengthSeen and lengthValue.
  function Tally(d: Dictionary, e: Entry, objects: Objects): (bool, bool, Option<int>) {
    if e.key != "Length" then (d.malformed, d.lengthSeen, d.lengthValue)
    else
      match e.value
      case Int(n) => (d.malformed || d.lengthSeen, true, Some(n))
      case Ref(number, generation) =>
        (d.malformed || d.lengthSeen || generation != 0 || number !in objects, true,
         if generation == 0 && number in objects then Some(objects[number]) else Some(number))
      case _ => (d.malformed || d.lengthSeen, true, d.lengthValue)
  }

  function TallyOf(d: Dictionary): (bool, bool, Option<int>) { (d.malformed, d.lengthSeen, d.lengthValue) }

  function KeyTaken(d: Dictionary, key: string): Dictionary { d.(pendingKey := Some(key)) }

  lemma {:induction false} FeedKey(s: string, objects: Objects, d: Dictionary, n: Node)
    requires IsRested(d) && IsNameLeaf(n) && n.from < n.to <= |s| && n.to - n.from - 1 <= PDF_MAX_NAME_TOKEN_BYTES
    ensures Feed(s, objects, d, n) == KeyTaken(d, NameText(s, n))
  {
    hide Decoded;
  }

  lemma {:induction false} FoldFirst(s: string, objects: Objects, d: Dictionary, v: seq<Node>)
    requires |v| > 0
    ensures Fold(s, objects, d, v) == Fold(s, objects, Feed(s, objects, d, v[0]), v[1..])
  {
  }

  // A value of one node, behind its key.
  lemma {:induction false} FeedValue(s: string, objects: Objects, d: Dictionary, key: string, n: Node, value: Value)
    requires IsRested(d) && Inside(s, n)
    requires (n.Group? && value == Other) || (n.Leaf? && (n.kind.Str? || n.kind.Hex?) && value == Other)
             || (IsNameLeaf(n) && n.to - n.from - 1 <= PDF_MAX_NAME_TOKEN_BYTES && value == NameOf(NameText(s, n)))
             || (IsNumber(s, n) && value == Int(NumberOf(s, n)))
    ensures var f := Feed(s, objects, KeyTaken(d, key), n);
            IsRested(f) && TallyOf(f) == Tally(d, Entry(key, value), objects)
  {
    hide Decoded, IsInteger, IntegerValue;
  }

  lemma {:induction false} FeedPlain(s: string, objects: Objects, d: Dictionary, key: string, n: Node)
    requires IsRested(d) && Inside(s, n) && n.Leaf? && n.kind.Word? && !IsNumber(s, n)
    ensures Feed(s, objects, KeyTaken(d, key), n).malformed
  {
    hide IsInteger, IntegerValue;
  }

  // The three nodes of a reference, behind its key.
  lemma {:induction false} FeedReference(s: string, objects: Objects, d: Dictionary, key: string, a: Node, b: Node,
                                         r: Node)
    requires IsRested(d) && Inside(s, a) && Inside(s, b) && Inside(s, r)
    requires IsNumber(s, a) && IsNumber(s, b) && WordOf(s, r) == "R"
    ensures var f := Feed(s, objects, Feed(s, objects, Feed(s, objects, KeyTaken(d, key), a), b), r);
            IsRested(f) && TallyOf(f) == Tally(d, Entry(key, Ref(NumberOf(s, a), NumberOf(s, b))), objects)
  {
    hide IntegerValue;
    assert !IsInteger("R");
  }

  lemma {:induction false} FoldReference(s: string, objects: Objects, d: Dictionary, v: seq<Node>)
    requires StartsReference(s, v)
    ensures var second := Skip(v[1..]);
            var third := Skip(second[1..]);
            Fold(s, objects, d, v)
            == Fold(s, objects, Feed(s, objects, Feed(s, objects, Feed(s, objects, d, v[0]), second[0]), third[0]),
                    third[1..])
  {
    hide Feed, Fold, Skip, IsNumber, WordOf;
    var second := Skip(v[1..]);
    var third := Skip(second[1..]);
    var d1 := Feed(s, objects, d, v[0]);
    var d2 := Feed(s, objects, d1, second[0]);
    FoldFirst(s, objects, d, v);
    FoldSkip(s, objects, d1, v[1..]);
    FoldFirst(s, objects, d1, second);
    FoldSkip(s, objects, d2, second[1..]);
    FoldFirst(s, objects, d2, third);
  }

  // Behind a value: the dictionary is rested and has tallied the entry, or is malformed for good.
  predicate TookEntry(d: Dictionary, e: Entry, objects: Objects, after: Dictionary) {
    if e.value.Plain? then after.malformed else IsRested(after) && TallyOf(after) == Tally(d, e, objects)
  }

  lemma {:induction false} FoldValue(s: string, objects: Objects, d: Dictionary, key: string, v: seq<Node>)
    returns (after: Dictionary)
    requires IsRested(d) && |v| > 0 && Fine(s, v) && ValueAt(s, v).Some?
    ensures Fine(s, ValueAt(s, v).value.1)
    ensures TookEntry(d, Entry(key, ValueAt(s, v).value.0), objects, after)
    ensures Fold(s, objects, KeyTaken(d, key), v) == Fold(s, objects, after, ValueAt(s, v).value.1)
  {
    hide Feed, Fold, Decoded, IsInteger, IntegerValue, Tally, TallyOf, IsRested, KeyTaken, Fine, Skip, WordOf, NameText;
    FineFirst(s, v);
    if StartsReference(s, v) {
      var second := Skip(v[1..]);
      FineSkip(s, v[1..]);
      FineFirst(s, second);
      var third := Skip(second[1..]);
      FineSkip(s, second[1..]);
      FineFirst(s, third);
      FeedReference(s, objects, d, key, v[0], second[0], third[0]);
      FoldReference(s, objects, KeyTaken(d, key), v);
      after := Feed(s, objects, Feed(s, objects, Feed(s, objects, KeyTaken(d, key), v[0]), second[0]), third[0]);
    } else {
      after := Feed(s, objects, KeyTaken(d, key), v[0]);
      FoldFirst(s, objects, KeyTaken(d, key), v);
      var value := ValueAt(s, v).value.0;
      if value.Plain? {
        FeedPlain(s, objects, d, key, v[0]);
      } else {
        FeedValue(s, objects, d, key, v[0], value);
      }
    }
  }

  // ---------------------------------------------------------------- the whole dictionary

  // malformed, lengthSeen and lengthValue after all the entries.
  function TallyAll(t: (bool, bool, Option<int>), es: seq<Entry>, objects: Objects): (bool, bool, Option<int>)
    decreases |es|
  {
    if |es| == 0 then t
    else TallyAll(Tally(FRESH.(malformed := t.0, lengthSeen := t.1, lengthValue := t.2), es[0], objects), es[1..],
                  objects)
  }

  lemma {:induction false} SameTally(d: Dictionary, e: Entry, objects: Objects)
    ensures Tally(d, e, objects)
            == Tally(FRESH.(malformed := d.malformed, lengthSeen := d.lengthSeen, lengthValue := d.lengthValue), e,
                     objects)
  {
  }

  lemma {:induction false} PlainCons(e: Entry, es: seq<Entry>)
    ensures HasPlain([e] + es) <==> e.value.Plain? || HasPlain(es)
  {
    if e.value.Plain? { assert ([e] + es)[0].value.Plain?; }
    if HasPlain(es) {
      var i :| 0 <= i < |es| && es[i].value.Plain?;
      assert ([e] + es)[i + 1].value.Plain?;
    }
  }

  lemma {:induction false} FoldEntries(s: string, objects: Objects, d: Dictionary, kids: seq<Node>)
    requires IsRested(d) && Fine(s, kids) && Entries(s, kids).Some?
    ensures var es := Entries(s, kids).value;
            var f := Fold(s, objects, d, kids);
            if HasPlain(es) then f.malformed else TallyOf(f) == TallyAll(TallyOf(d), es, objects)
    decreases |kids|
  {
    hide Feed, Fold, Tally, ValueAt, NameText, KeyTaken, HasPlain, Fine, Skip;
    var k := Skip(kids);
    FoldSkip(s, objects, d, kids);
    FineSkip(s, kids);
    if |k| == 0 {
      NoEntries(s, objects, d);
    } else {
      var key := NameText(s, k[0]);
      var v := Skip(k[1..]);
      FineFirst(s, k);
      FineSkip(s, k[1..]);
      FoldFirst(s, objects, d, k);
      FeedKey(s, objects, d, k[0]);
      FoldSkip(s, objects, KeyTaken(d, key), k[1..]);
      var after := FoldValue(s, objects, d, key, v);
      var found := ValueAt(s, v).value;
      var es := Entries(s, found.1).value;
      var e := Entry(key, found.0);
      PlainCons(e, es);
      if e.value.Plain? {
        MalformedStays(s, objects, after, found.1);
      } else {
        FoldEntries(s, objects, after, found.1);
        SameTally(d, e, objects);
        assert ([e] + es)[1..] == es;
      }
    }
  }

  lemma {:induction false} NoEntries(s: string, objects: Objects, d: Dictionary)
    ensures Fold(s, objects, d, []) == d && !HasPlain([]) && TallyAll(TallyOf(d), [], objects) == TallyOf(d)
  {
  }

  lemma {:induction false} TallySeen(t: (bool, bool, Option<int>), es: seq<Entry>, objects: Objects)
    requires t.1 && !HasPlain(es)
    ensures var r := TallyAll(t, es, objects);
            if |Lengths(es)| == 0 then r == t else r.0
    decreases |es|
  {
    if |es| > 0 {
      var next := Tally(FRESH.(malformed := t.0, lengthSeen := t.1, lengthValue := t.2), es[0], objects);
      assert [es[0]] + es[1..] == es;
      PlainCons(es[0], es[1..]);
      TallySeen(next, es[1..], objects);
      if es[0].key == "Length" { TallyBad(next, es[1..], objects); }
    }
  }

  lemma {:induction false} TallyBad(t: (bool, bool, Option<int>), es: seq<Entry>, objects: Objects)
    requires t.0
    ensures TallyAll(t, es, objects).0
    decreases |es|
  {
    if |es| > 0 {
      TallyBad(Tally(FRESH.(malformed := t.0, lengthSeen := t.1, lengthValue := t.2), es[0], objects), es[1..],
               objects);
    }
  }

  lemma {:induction false} TallyIsStrict(es: seq<Entry>, objects: Objects)
    requires !HasPlain(es)
    ensures var r := TallyAll((false, false, None), es, objects);
            (if r.0 then None else r.2) == StrictLength(es, objects)
    decreases |es|
  {
    if |es| > 0 {
      assert [es[0]] + es[1..] == es;
      PlainCons(es[0], es[1..]);
      if es[0].key == "Length" {
        var next := Tally(FRESH, es[0], objects);
        TallySeen(next, es[1..], objects);
        if next.0 { TallyBad(next, es[1..], objects); }
        assert Lengths(es) == [es[0].value] + Lengths(es[1..]);
      } else {
        TallyIsStrict(es[1..], objects);
      }
    }
  }

  // ---------------------------------------------------------------- what the walk is shown

  // The members without the names that are too long to be looked at.
  function Shown(kids: seq<Node>): (r: seq<Node>)
    ensures |r| <= |kids|
  {
    if |kids| == 0 then [] else (if IsShort(kids[0]) then [kids[0]] else []) + Shown(kids[1..])
  }

  lemma {:induction false} ShownIsFine(s: string, kids: seq<Node>)
    requires AllInside(s, kids)
    ensures Fine(s, Shown(kids))
    decreases |kids|
  {
    hide Inside, IsShort;
    if |kids| > 0 {
      ShownIsFine(s, kids[1..]);
      assert [] + Shown(kids[1..]) == Shown(kids[1..]);
      if IsShort(kids[0]) { assert ([kids[0]] + Shown(kids[1..]))[1..] == Shown(kids[1..]); }
    }
  }

  lemma {:induction false} LongIsSkipped(s: string, objects: Objects, d: Dictionary, n: Node)
    requires !IsShort(n) && Inside(s, n)
    ensures Feed(s, objects, d, n) == d
  {
    hide Decoded;
  }

  lemma {:induction false} ShownFoldsAlike(s: string, objects: Objects, d: Dictionary, kids: seq<Node>)
    requires AllInside(s, kids)
    ensures Fold(s, objects, d, Shown(kids)) == Fold(s, objects, d, kids)
    decreases |kids|
  {
    hide Inside, IsShort, Feed;
    if |kids| > 0 {
      if IsShort(kids[0]) {
        ShownFoldsAlike(s, objects, Feed(s, objects, d, kids[0]), kids[1..]);
        assert ([kids[0]] + Shown(kids[1..]))[1..] == Shown(kids[1..]);
      } else {
        LongIsSkipped(s, objects, d, kids[0]);
        assert [] + Shown(kids[1..]) == Shown(kids[1..]);
        ShownFoldsAlike(s, objects, d, kids[1..]);
      }
    }
  }

  lemma {:induction false} NothingHidden(kids: seq<Node>)
    requires ShortNames(kids)
    ensures Shown(kids) == kids
    decreases |kids|
  {
    hide IsShort;
    if |kids| > 0 { NothingHidden(kids[1..]); }
  }

  // Where what is shown is a list of pairs, the Length the walk uses is the single Length among them,
  // direct or resolved, and it uses none when there is no single one or a value is a plain word.
  lemma {:induction false} WalkReadsTheShownLength(s: string, objects: Objects, kids: seq<Node>)
    requires AllInside(s, kids) && Entries(s, Shown(kids)).Some?
    ensures LengthOf(Items(s, kids), objects) == StrictLength(Entries(s, Shown(kids)).value, objects)
  {
    hide Fold, TallyAll, Entries, Lengths, LengthOf, Items, Shown;
    var shown := Shown(kids);
    ShownIsFine(s, kids);
    ShownFoldsAlike(s, objects, FRESH, kids);
    UsableLengthIsRead(s, objects, kids);
    FoldEntries(s, objects, FRESH, shown);
    if !HasPlain(Entries(s, shown).value) { TallyIsStrict(Entries(s, shown).value, objects); }
  }

  // So the walk uses the dictionary's own Length exactly when the members give it as they are and as
  // they are shown; and where no name is too long, a Length it uses is the dictionary's own exactly when
  // the members are a list of pairs.
  lemma {:induction false} OwnLengthExactly(s: string, objects: Objects, kids: seq<Node>)
    requires AllInside(s, kids)
    ensures Entries(s, Shown(kids)).Some? ==>
              (LengthOf(Items(s, kids), objects) == DictionaryLength(s, kids, objects)
               <==> DictionaryLength(s, kids, objects) == StrictLength(Entries(s, Shown(kids)).value, objects))
    ensures ShortNames(kids) && LengthOf(Items(s, kids), objects).Some? ==>
              (LengthOf(Items(s, kids), objects) == DictionaryLength(s, kids, objects) <==> Entries(s, kids).Some?)
  {
    hide Entries, Lengths, LengthOf, Items, Shown, ShortNames, AllInside;
    if Entries(s, Shown(kids)).Some? { WalkReadsTheShownLength(s, objects, kids); }
    if ShortNames(kids) { NothingHidden(kids); }
  }

  // Every stream body an accepted source skips has the Length of what its dictionary shows, and has its
  // dictionary's own Length exactly when the two are the same.  In a dictionary without a name that is too
  // long this is so exactly when the members are a list of pairs.
  lemma {:induction false} StreamsHaveTheShownLength(s: string, objects: Objects, forest: seq<Node>, i: nat)
    requires Tiles(s, objects, Top, forest, 0, |s|) && i < |forest| && forest[i].Body?
    ensures exists j :: 0 <= j < i && IsStreamOf(s, objects, forest[j], forest[i])
              && var kids, length := forest[j].kids, forest[i].bodyTo - forest[i].bodyFrom;
                 && LengthOf(Items(s, kids), objects) == Some(length)
                 && (Entries(s, Shown(kids)).Some? ==>
                       && DictionaryLength(s, Shown(kids), objects) == Some(length)
                       && (DictionaryLength(s, kids, objects) == Some(length)
                           <==> DictionaryLength(s, kids, objects) == DictionaryLength(s, Shown(kids), objects)))
                 && (ShortNames(kids) ==>
                       (DictionaryLength(s, kids, objects) == Some(length) <==> Entries(s, kids).Some?))
  {
    hide Tiles, Entries, SingleLength, LengthOf, Items, Shown, HasPlain, ShortNames, AllInside, IsGap, StartsAt;
    MemberIsSound(s, objects, Top, forest, 0, |s|, i);
    var j :| 0 <= j < i && IsStreamOf(s, objects, forest[..i][j], forest[i]);
    assert forest[..i][j] == forest[j];
    MemberIsSound(s, objects, Top, forest, 0, |s|, j);
    MembersAreInside(s, objects, forest[j]);
    var kids := forest[j].kids;
    if Entries(s, Shown(kids)).Some? { WalkReadsTheShownLength(s, objects, kids); }
    OwnLengthExactly(s, objects, kids);
  }

  lemma {:induction false} MembersAreInside(s: string, objects: Objects, g: Node)
    requires g.Group? && Sound(s, objects, g)
    ensures AllInside(s, g.kids)
  {
    GroupTiles(s, objects, g);
    TilesAreInside(s, objects, Members(g.dict), g.kids, g.from + Width(g.dict), g.to - Width(g.dict));
  }

  lemma {:induction false} TilesAreInside(s: string, objects: Objects, c: Context, kids: seq<Node>, from: nat, to: nat)
    requires Tiles(s, objects, c, kids, from, to)
    ensures AllInside(s, kids)
    decreases |kids|
  {
    hide Sound, Allowed;
    if |kids| > 0 {
      TilesAreInside(s, objects, c, kids[..|kids| - 1], from, kids[|kids| - 1].from);
      InsideSnoc(s, kids[..|kids| - 1], kids[|kids| - 1]);
      assert kids[..|kids| - 1] + [kids[|kids| - 1]] == kids;
    }
  }

  lemma {:induction false} InsideSnoc(s: string, kids: seq<Node>, n: Node)
    requires AllInside(s, kids) && Inside(s, n)
    ensures AllInside(s, kids + [n])
    decreases |kids|
  {
    if |kids| > 0 {
      InsideSnoc(s, kids[1..], n);
      assert (kids + [n])[1..] == kids[1..] + [n];
    } else {
      assert (kids + [n])[1..] == [];
    }
  }
}
