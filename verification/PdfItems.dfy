/**
 * What the members of a dictionary amount to, read without the walk's record of it
 * (packages/cardano-agent/src/privateComparison/privateDocumentWorker.ts:502-522 and 575-611).
 *
 * The walk keeps a record of five fields per open dictionary and updates it token by token.  Here the
 * members are a list of items, and everything the walk decides by its record is said of the list: which
 * key waits for its value, whether a reference is open, and the Length.
 */
module PdfItems {
  import opened Wrappers
  import opened PdfTokens
  import opened PdfWalk

  datatype Item = NameItem(name: string) | NumberItem(n: int) | RefItem | PlainItem | OtherItem

  // White space, comments, a lone solidus, stream bodies and names of over 128 bytes are passed over.
  function ItemOf(s: string, n: Node): Option<Item> {
    match n
    case Group(_, _, _, _) => Some(OtherItem)
    case Body(_, _, _, _) => None
    case Leaf(kind, from, to) =>
      if !(from < to <= |s|) then None
      else
        match kind
        case Str => Some(OtherItem)
        case Hex => Some(OtherItem)
        case Name => if to - from - 1 > PDF_MAX_NAME_TOKEN_BYTES then None else Some(NameItem(Decoded(s[from + 1..to])))
        case Word => Some(WordItem(s[from..to]))
        case _ => None
  }

  function WordItem(word: string): Item {
    if IsInteger(word) then NumberItem(IntegerValue(word)) else if word == "R" then RefItem else PlainItem
  }

  function Items(s: string, kids: seq<Node>): seq<Item> {
    if |kids| == 0 then []
    else
      Items(s, kids[..|kids| - 1])
      + match ItemOf(s, kids[|kids| - 1]) case None => [] case Some(x) => [x]
  }

  predicate IsWordy(x: Item) { x.RefItem? || x.PlainItem? }

  // The key that still waits for its value: names alternate, and a word that is no number is no value.
  function KeyWaiting(xs: seq<Item>): Option<string> {
    if |xs| == 0 then None
    else
      var before, x := xs[..|xs| - 1], xs[|xs| - 1];
      if IsWordy(x) then KeyWaiting(before)
      else if x.NameItem? && KeyWaiting(before) == None then Some(x.name)
      else None
  }

  datatype Field = Field(key: string, value: Item)

  // The last key that has got a value, and the value.
  function LastField(xs: seq<Item>): Option<Field> {
    if |xs| == 0 then None
    else
      var before, x := xs[..|xs| - 1], xs[|xs| - 1];
      if IsWordy(x) || KeyWaiting(before) == None then LastField(before)
      else Some(Field(KeyWaiting(before).value, x))
  }

  function LastNumber(xs: seq<Item>): int {
    if |xs| == 0 then 0
    else if xs[|xs| - 1].NumberItem? then xs[|xs| - 1].n else LastNumber(xs[..|xs| - 1])
  }

  predicate HasNumberLast(xs: seq<Item>) { LastField(xs).Some? && LastField(xs).value.value.NumberItem? }

  // A number behind a number that is a value: a reference has begun and has not met its R.
  predicate EndsInReference(xs: seq<Item>) {
    |xs| > 0
    && var before, x := xs[..|xs| - 1], xs[|xs| - 1];
       match x
       case NumberItem(_) => KeyWaiting(before) == None && HasNumberLast(before)
       case OtherItem => KeyWaiting(before) == None && EndsInReference(before)
       case PlainItem => EndsInReference(before)
       case NameItem(_) => false
       case RefItem => false
  }

  // Item i is the value of a Length.
  predicate IsLengthAt(xs: seq<Item>, i: nat)
    requires i < |xs|
  {
    !IsWordy(xs[i]) && KeyWaiting(xs[..i]) == Some("Length")
  }

  predicate HasLength(xs: seq<Item>) { exists i | 0 <= i < |xs| :: IsLengthAt(xs, i) }

  // May the item stand behind these?  An R ends a reference, that of a Length leads to an integer object
  // of generation 0, no key stands in an open reference, and there is one Length.
  predicate InOrder(before: seq<Item>, x: Item, objects: Objects) {
    match x
    case PlainItem => false
    case RefItem =>
      EndsInReference(before)
      && (LastField(before).Some? && LastField(before).value.key == "Length" && HasNumberLast(before) ==>
            LastNumber(before) == 0 && LastField(before).value.value.n in objects)
    case _ =>
      && (x.NameItem? && KeyWaiting(before) == None ==> !EndsInReference(before))
      && (KeyWaiting(before) == Some("Length") ==> !HasLength(before))
  }

  predicate IsOrderly(xs: seq<Item>, objects: Objects) {
    forall i | 0 <= i < |xs| :: InOrder(xs[..i], xs[i], objects)
  }

  // The value of the Length, or of the object it refers to.
  function LengthValue(xs: seq<Item>, objects: Objects): Option<int> {
    if |xs| == 0 then None
    else
      var before, x := xs[..|xs| - 1], xs[|xs| - 1];
      if IsLengthAt(xs, |xs| - 1) then if x.NumberItem? then Some(x.n) else None
      else if x.RefItem? && LastField(before).Some? && LastField(before).value.key == "Length" && HasNumberLast(before)
              && LastField(before).value.value.n in objects
      then Some(objects[LastField(before).value.value.n])
      else LengthValue(before, objects)
  }

  function LengthOf(xs: seq<Item>, objects: Objects): Option<int> {
    if IsOrderly(xs, objects) then LengthValue(xs, objects) else None
  }

  // ---------------------------------------------------------------- the walk's record says the same

  predicate SameField(last: Option<Assigned>, f: Option<Field>) {
    && (last.Some? <==> f.Some?)
    && (f.Some? ==>
          && last.value.key == f.value.key
          && (last.value.kind.NumberValue? <==> f.value.value.NumberItem?)
          && (f.value.value.NumberItem? ==> last.value.value == Some(f.value.value.n)))
  }

  predicate Says(d: Dictionary, xs: seq<Item>, objects: Objects) {
    && d.pendingKey == KeyWaiting(xs) && d.referencePending == EndsInReference(xs)
    && SameField(d.lastAssigned, LastField(xs))
    && (d.referencePending ==> HasNumberLast(xs) && d.referenceGeneration == Some(LastNumber(xs)))
    && (d.malformed <==> !IsOrderly(xs, objects)) && (d.lengthSeen <==> HasLength(xs))
    && (LastField(xs).Some? && LastField(xs).value.key == "Length" ==> d.lengthSeen)
    && (!d.lengthSeen ==> d.lengthValue == None && LengthValue(xs, objects) == None)
    && (!d.malformed ==> d.lengthValue == LengthValue(xs, objects))
  }

  lemma {:induction false} OneMoreItem(xs: seq<Item>, x: Item, objects: Objects)
    ensures (xs + [x])[..|xs|] == xs && (xs + [x])[|xs|] == x
    ensures IsOrderly(xs + [x], objects) <==> IsOrderly(xs, objects) && InOrder(xs, x, objects)
    ensures HasLength(xs + [x]) <==> HasLength(xs) || IsLengthAt(xs + [x], |xs|)
  {
    hide InOrder, KeyWaiting;
    var all := xs + [x];
    assert all[..|xs|] == xs;
    assert forall i | 0 <= i < |xs| :: all[..i] == xs[..i] && all[i] == xs[i];
    if HasLength(xs) {
      var i :| 0 <= i < |xs| && IsLengthAt(xs, i);
      assert IsLengthAt(all, i);
    }
    if HasLength(all) {
      var i :| 0 <= i < |all| && IsLengthAt(all, i);
      if i < |xs| { assert IsLengthAt(xs, i); }
    }
    if IsOrderly(all, objects) {
      forall i | 0 <= i < |xs| ensures InOrder(xs[..i], xs[i], objects) { assert InOrder(all[..i], all[i], objects); }
      assert InOrder(all[..|xs|], all[|xs|], objects);
    }
  }

  lemma {:induction false} NameSays(d: Dictionary, xs: seq<Item>, objects: Objects, name: string)
    requires Says(d, xs, objects)
    ensures Says(FeedName(d, name), xs + [NameItem(name)], objects)
  {
    hide IsOrderly, HasLength;
    OneMoreItem(xs, NameItem(name), objects);
  }

  lemma {:induction false} ValueSays(d: Dictionary, xs: seq<Item>, objects: Objects, kind: ValueKind,
                                     value: Option<int>, x: Item)
    requires Says(d, xs, objects)
    requires if x.NumberItem? then kind.NumberValue? && value == Some(x.n)
             else x.OtherItem? && !kind.NumberValue? && !kind.NameValue?
    ensures Says(Assign(d, kind, value), xs + [x], objects)
  {
    hide IsOrderly, HasLength;
    OneMoreItem(xs, x, objects);
  }

  lemma {:induction false} WordSays(d: Dictionary, xs: seq<Item>, objects: Objects, word: string)
    requires Says(d, xs, objects)
    ensures Says(FeedWord(d, objects, word), xs + [WordItem(word)], objects)
  {
    hide IsOrderly, HasLength, IsInteger, IntegerValue;
    OneMoreItem(xs, WordItem(word), objects);
    if IsInteger(word) { ValueSays(d, xs, objects, NumberValue, Some(IntegerValue(word)), WordItem(word)); }
  }

  lemma {:induction false} MemberSays(s: string, objects: Objects, d: Dictionary, xs: seq<Item>, n: Node)
    requires Says(d, xs, objects)
    ensures Says(Feed(s, objects, d, n), xs + (match ItemOf(s, n) case None => [] case Some(x) => [x]), objects)
  {
    hide Says, FeedName, FeedWord, Assign, Decoded, WordItem;
    match n
    case Group(_, _, _, _) => ValueSays(d, xs, objects, ContainerValue, None, OtherItem);
    case Body(_, _, _, _) => assert xs + [] == xs;
    case Leaf(kind, from, to) =>
      assert xs + [] == xs;
      if from < to <= |s| {
        match kind
        case Str => ValueSays(d, xs, objects, OtherValue, None, OtherItem);
        case Hex => ValueSays(d, xs, objects, OtherValue, None, OtherItem);
        case Name => if to - from - 1 <= PDF_MAX_NAME_TOKEN_BYTES {
          NameSays(d, xs, objects, Decoded(s[from + 1..to]));
        }
        case Word => WordSays(d, xs, objects, s[from..to]);
        case _ =>
      }
  }

  // Whatever the members are, the record the walk has made of them says what the items say.
  lemma {:induction false} RecordSaysTheItems(s: string, objects: Objects, kids: seq<Node>)
    ensures Says(DictionaryOf(s, objects, kids), Items(s, kids), objects)
    decreases |kids|
  {
    hide Feed, ItemOf;
    if |kids| == 0 {
      NothingSaid(objects);
    } else {
      var before, n := kids[..|kids| - 1], kids[|kids| - 1];
      RecordSaysTheItems(s, objects, before);
      FoldSnoc(s, objects, FRESH, before, n);
      assert before + [n] == kids;
      MemberSays(s, objects, DictionaryOf(s, objects, before), Items(s, before), n);
    }
  }

  lemma {:induction false} NothingSaid(objects: Objects)
    ensures Says(FRESH, [], objects)
  {
  }

  function UsableLength(d: Dictionary): Option<int> { if d.malformed then None else d.lengthValue }

  // In particular the Length it uses is the one of the items, and it uses none exactly when they have none.
  lemma {:induction false} UsableLengthIsRead(s: string, objects: Objects, kids: seq<Node>)
    ensures UsableLength(DictionaryOf(s, objects, kids)) == LengthOf(Items(s, kids), objects)
    ensures DictionaryOf(s, objects, kids).pendingKey == KeyWaiting(Items(s, kids))
    ensures DictionaryOf(s, objects, kids).referencePending == EndsInReference(Items(s, kids))
  {
    hide IsOrderly, LengthValue, KeyWaiting, EndsInReference, DictionaryOf, Items;
    RecordSaysTheItems(s, objects, kids);
  }
}
