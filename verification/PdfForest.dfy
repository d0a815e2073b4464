/**
 * What the PDF safety walk accepts
 * (packages/cardano-agent/src/privateComparison/privateDocumentWorker.ts:536-661).
 *
 * `Tiles` reads a source as a forest, recursively and without a stack; the walk returns false
 * exactly when such a forest covers the whole source.
 *
 * One direction keeps, beside the walk's stack, a stack of frames: the nodes read so far in each
 * open bracket.  `Inv` ties the two together, and at the end of a safe walk the last frame is the
 * forest (`SafeIsReadable`).  The other direction follows a given forest node by node: the walk
 * passes over each and comes out behind it with the dictionary its members amount to
 * (`FollowNode`, `FollowKids`).
 */
module PdfForest {
  import opened Wrappers
  import opened PdfTokens
  import opened PdfWalk
  import opened PdfItems

  // Where a node stands: at the top, or as a direct member of a dictionary or an array.
  datatype Context = Top | Members(dict: bool)

  function Opener(dict: bool): string { if dict then "<<" else "[" }
  function Closer(dict: bool): string { if dict then ">>" else "]" }

  // A stream body behind the dictionary d: a blank line end, the keyword, a line end, exactly as many
  // bytes as the dictionary's Length, and "endstream".
  predicate IsStreamOf(s: string, objects: Objects, d: Node, n: Node) {
    && d.Group? && d.dict && n.Body? && d.to <= n.from && n.from + 6 < n.bodyFrom <= n.bodyTo <= |s|
    && IsGap(s[d.to..n.from]) && StartsAt(s, "stream", n.from) && n.bodyFrom == LineEndAfter(s, n.from + 6)
    && LengthOf(Items(s, d.kids), objects) == Some(n.bodyTo - n.bodyFrom)
    && n.bodyTo - n.bodyFrom <= PRIVATE_DOCUMENT_MAX_BYTES
    && StartsAt(s, "endstream", LineEndAfter(s, n.bodyTo)) && n.to == LineEndAfter(s, n.bodyTo) + 9 && EndsWord(s, n.to)
  }

  predicate HasStreamOf(s: string, objects: Objects, before: seq<Node>, n: Node) {
    exists j :: 0 <= j < |before| && IsStreamOf(s, objects, before[j], n)
  }

  // The names refused only as direct members of a dictionary, given the key that waits for its value.
  predicate IsActiveMember(waiting: Option<string>, name: string) {
    || name == "A" || name == "AA"
    || (name == "OpenAction" && waiting == None)
    || (waiting == Some("S") && IsActionType(name))
  }

  // May the node stand here, behind these members?  A name must be none of the active ones, however
  // it is escaped and however long it is; a stream body follows its dictionary, at the top only.
  predicate Allowed(s: string, objects: Objects, c: Context, before: seq<Node>, n: Node) {
    match n
    case Leaf(kind, from, to) =>
      kind.Name? && from < to <= |s| ==>
        && !IsGloballyActive(Decoded(s[from + 1..to]))
        && (c == Members(true) && to - from - 1 <= PDF_MAX_NAME_TOKEN_BYTES ==>
              !IsActiveMember(KeyWaiting(Items(s, before)), Decoded(s[from + 1..to])))
    case Group(_, _, _, _) => true
    case Body(_, _, _, _) => c == Top && HasStreamOf(s, objects, before, n)
  }

  predicate Sound(s: string, objects: Objects, n: Node)
    decreases n
  {
    match n
    case Leaf(kind, from, to) => IsLeaf(s, kind, from, to)
    case Body(_, _, _, _) => true
    case Group(dict, from, to, kids) =>
      && from + 2 * Width(dict) <= to <= |s|
      && StartsAt(s, Opener(dict), from) && StartsAt(s, Closer(dict), to - Width(dict))
      && Tiles(s, objects, Members(dict), kids, from + Width(dict), to - Width(dict))
      && (dict ==> KeyWaiting(Items(s, kids)) == None && !EndsInReference(Items(s, kids)))
  }

  // The nodes cover the stretch from..to, one behind the other.
  predicate Tiles(s: string, objects: Objects, c: Context, kids: seq<Node>, from: nat, to: nat)
    decreases kids
  {
    if |kids| == 0 then from == to
    else
      var before, n := kids[..|kids| - 1], kids[|kids| - 1];
      && n.to == to && n.from < n.to <= |s|
      && Sound(s, objects, n) && Allowed(s, objects, c, before, n) && Tiles(s, objects, c, before, from, n.from)
  }

  ghost predicate IsReadable(s: string, objects: Objects) {
    exists forest :: Tiles(s, objects, Top, forest, 0, |s|)
  }

  lemma {:induction false} TilesSnoc(s: string, objects: Objects, c: Context, kids: seq<Node>, from: nat, n: Node)
    requires Tiles(s, objects, c, kids, from, n.from) && n.from < n.to <= |s| && Sound(s, objects, n)
             && Allowed(s, objects, c, kids, n)
    ensures Tiles(s, objects, c, kids + [n], from, n.to)
  {
    hide Sound, Allowed;
    assert (kids + [n])[..|kids|] == kids;
  }

  // ---------------------------------------------------------------- accepted sources are readable

  // An open bracket with the members read so far; the first frame stands for the top.
  datatype Frame = Frame(dict: bool, from: nat, kids: seq<Node>)

  function ContainerOf(s: string, objects: Objects, f: Frame, topLevel: bool): Container {
    if f.dict then InDict(DictionaryOf(s, objects, f.kids), topLevel) else InArray
  }

  predicate Stack(s: string, objects: Objects, containers: seq<Container>, frames: seq<Frame>, end: nat)
    decreases |containers|
  {
    && |frames| == |containers| + 1
    && var f := frames[|frames| - 1];
       if |containers| == 0 then Tiles(s, objects, Top, f.kids, 0, end)
       else
         && Tiles(s, objects, Members(f.dict), f.kids, f.from + Width(f.dict), end)
         && f.from + Width(f.dict) <= end && StartsAt(s, Opener(f.dict), f.from)
         && containers[|containers| - 1] == ContainerOf(s, objects, f, |containers| == 1)
         && Stack(s, objects, containers[..|containers| - 1], frames[..|frames| - 1], f.from)
  }

  function ContextOf(containers: seq<Container>): Context {
    if |containers| == 0 then Top else Members(containers[|containers| - 1].InDict?)
  }

  function Grown(frames: seq<Frame>, n: Node): seq<Frame>
    requires |frames| > 0
  {
    var f := frames[|frames| - 1];
    frames[..|frames| - 1] + [f.(kids := f.kids + [n])]
  }

  lemma {:induction false} AddMember(s: string, objects: Objects, containers: seq<Container>, frames: seq<Frame>,
                                     n: Node)
    requires Stack(s, objects, containers, frames, n.from) && n.from < n.to <= |s|
    requires Sound(s, objects, n) && Allowed(s, objects, ContextOf(containers), frames[|frames| - 1].kids, n)
    ensures Stack(s, objects, FeedTop(s, objects, containers, n), Grown(frames, n), n.to)
    ensures |FeedTop(s, objects, containers, n)| == |containers|
  {
    hide Sound, Allowed, Tiles, Feed;
    var f := frames[|frames| - 1];
    var grown := Grown(frames, n);
    TilesSnoc(s, objects, ContextOf(containers), f.kids, if |containers| == 0 then 0 else f.from + Width(f.dict), n);
    assert grown[..|grown| - 1] == frames[..|frames| - 1];
    if |containers| > 0 && f.dict {
      FoldSnoc(s, objects, FRESH, f.kids, n);
      var fed := FeedTop(s, objects, containers, n);
      assert fed[..|fed| - 1] == containers[..|containers| - 1];
    }
  }

  // The candidate is the last dictionary at the top.
  predicate IsCandidate(s: string, objects: Objects, c: Candidate, n: Node) {
    n.Group? && n.dict && n.to == c.endOffset && DictionaryOf(s, objects, n.kids) == c.dictionary
  }

  predicate HasCandidate(s: string, objects: Objects, c: Candidate, kids: seq<Node>) {
    exists j :: 0 <= j < |kids| && IsCandidate(s, objects, c, kids[j])
  }

  predicate Inv(s: string, objects: Objects, st: State, frames: seq<Frame>) {
    && st.index <= |s| && Stack(s, objects, st.containers, frames, st.index)
    && (st.candidate.Some? && st.candidate.value.topLevel ==>
          |st.containers| == 0 && HasCandidate(s, objects, st.candidate.value, frames[0].kids))
  }

  // A name of an active kind is short, so the walk has looked at it.
  lemma {:induction false} LongNamesAreHarmless(raw: string)
    requires |raw| > PDF_MAX_NAME_TOKEN_BYTES
    ensures !IsGloballyActive(Decoded(raw))
  {
    RawAtMostThrice(raw);
  }

  // What the walk rejects by its record of a dictionary is what the members before the name refuse.
  lemma {:induction false} RejectionIsRead(s: string, objects: Objects, kids: seq<Node>, name: string)
    ensures IsRejected(Some(DictionaryOf(s, objects, kids)), name)
            <==> IsActiveMember(KeyWaiting(Items(s, kids)), name) || IsGloballyActive(name)
  {
    hide DictionaryOf, Items, KeyWaiting, IsGloballyActive, IsActionType;
    UsableLengthIsRead(s, objects, kids);
  }

  lemma {:induction false} LeafIsAllowed(s: string, objects: Objects, st: State, frames: seq<Frame>, kind: LeafKind,
                                         to: nat)
    requires Stack(s, objects, st.containers, frames, st.index) && st.index < to <= |s|
             && OnLeaf(s, objects, st, kind, to).Running?
    ensures Allowed(s, objects, ContextOf(st.containers), frames[|frames| - 1].kids, Leaf(kind, st.index, to))
  {
    hide Tiles, IsGloballyActive, IsActionType, IsActiveMember, IsRejected, DictionaryOf, Items, KeyWaiting, Decoded,
         FeedTop;
    if kind.Name? {
      var name := Decoded(s[st.index + 1..to]);
      RejectionIsRead(s, objects, frames[|frames| - 1].kids, name);
      GloballyRejected(Current(st.containers), name);
    }
    if kind.Name? && to - st.index - 1 > PDF_MAX_NAME_TOKEN_BYTES { LongNamesAreHarmless(s[st.index + 1..to]); }
  }

  lemma {:induction false} GloballyRejected(d: Option<Dictionary>, name: string)
    ensures IsGloballyActive(name) ==> IsRejected(d, name)
    ensures d == None && IsRejected(d, name) ==> IsGloballyActive(name)
  {
  }

  lemma {:induction false} LeafKeepsInv(s: string, objects: Objects, st: State, frames: seq<Frame>)
    requires Inv(s, objects, st, frames) && st.index < |s| && TokenAt(s, st.index).LeafToken?
    requires st.index < TokenAt(s, st.index).to <= |s|
    requires OnLeaf(s, objects, st, TokenAt(s, st.index).kind, TokenAt(s, st.index).to).Running?
    ensures var token := TokenAt(s, st.index);
            Inv(s, objects, OnLeaf(s, objects, st, token.kind, token.to).state,
                Grown(frames, Leaf(token.kind, st.index, token.to)))
  {
    hide TokenAt, Stack, FeedTop, IsLeaf, IsCandidate, Allowed, Sound, IsRejected;
    var token := TokenAt(s, st.index);
    var n := Leaf(token.kind, st.index, token.to);
    TokensAreLeaves(s, st.index);
    StackHasFrames(s, objects, st.containers, frames, st.index);
    LeafIsAllowed(s, objects, st, frames, token.kind, token.to);
    LeafIsSound(s, objects, n);
    AddMember(s, objects, st.containers, frames, n);
    if st.candidate.Some? && st.candidate.value.topLevel {
      CandidateStays(s, objects, st.candidate.value, frames[0].kids, n);
    }
  }

  lemma {:induction false} StackHasFrames(s: string, objects: Objects, containers: seq<Container>, frames: seq<Frame>,
                                          end: nat)
    requires Stack(s, objects, containers, frames, end)
    ensures |frames| == |containers| + 1
  {
  }

  lemma {:induction false} LeafIsSound(s: string, objects: Objects, n: Node)
    requires n.Leaf? && IsLeaf(s, n.kind, n.from, n.to)
    ensures Sound(s, objects, n)
  {
  }

  lemma {:induction false} CandidateStays(s: string, objects: Objects, c: Candidate, kids: seq<Node>, n: Node)
    requires HasCandidate(s, objects, c, kids)
    ensures HasCandidate(s, objects, c, kids + [n])
  {
    hide IsCandidate;
    var j :| 0 <= j < |kids| && IsCandidate(s, objects, c, kids[j]);
    assert (kids + [n])[j] == kids[j];
  }

  lemma {:induction false} BracketsAre(s: string, i: nat, dict: bool)
    requires i < |s|
    ensures TokenAt(s, i) == Open(dict) ==> i + Width(dict) <= |s| && StartsAt(s, Opener(dict), i)
    ensures TokenAt(s, i) == Close(dict) ==> i + Width(dict) <= |s| && StartsAt(s, Closer(dict), i)
  {
    hide WordEnd, CommentEnd, HexEnd, StringEnd;
  }

  lemma {:induction false} PushFrame(s: string, objects: Objects, containers: seq<Container>, frames: seq<Frame>,
                                     from: nat, dict: bool)
    requires Stack(s, objects, containers, frames, from) && StartsAt(s, Opener(dict), from)
    ensures Stack(s, objects, containers + [if dict then InDict(FRESH, |containers| == 0) else InArray],
                  frames + [Frame(dict, from, [])],
                  from + Width(dict))
  {
    hide StartsAt;
    var f := Frame(dict, from, []);
    var more := containers + [if dict then InDict(FRESH, |containers| == 0) else InArray];
    assert more[..|more| - 1] == containers && (frames + [f])[..|frames|] == frames;
  }

  lemma {:induction false} OpenKeepsInv(s: string, objects: Objects, st: State, frames: seq<Frame>, dict: bool)
    requires Inv(s, objects, st, frames) && st.index < |s| && TokenAt(s, st.index) == Open(dict)
    ensures Inv(s, objects, OnePass(s, objects, st).state, frames + [Frame(dict, st.index, [])])
  {
    hide IsCandidate, TokenAt, Stack;
    BracketsAre(s, st.index, dict);
    PushFrame(s, objects, st.containers, frames, st.index, dict);
  }

  lemma {:induction false} ClosingGroup(s: string, objects: Objects, containers: seq<Container>, frames: seq<Frame>,
                                        end: nat, dict: bool)
    requires Stack(s, objects, containers, frames, end) && StartsAt(s, Closer(dict), end) && end + Width(dict) <= |s|
    requires |containers| > 0 && IsClosable(containers[|containers| - 1], dict)
    ensures |frames| == |containers| + 1 >= 2
    ensures var f := frames[|frames| - 1];
            && f.dict == dict && Sound(s, objects, Group(dict, f.from, end + Width(dict), f.kids))
            && Stack(s, objects, containers[..|containers| - 1], frames[..|frames| - 1], f.from)
            && containers[|containers| - 1] == ContainerOf(s, objects, f, |containers| == 1)
  {
    hide Tiles, StartsAt, DictionaryOf, Items, KeyWaiting, EndsInReference;
    UsableLengthIsRead(s, objects, frames[|frames| - 1].kids);
  }

  lemma {:induction false} CloseKeepsInv(s: string, objects: Objects, st: State, frames: seq<Frame>, dict: bool)
    requires Inv(s, objects, st, frames) && st.index < |s| && TokenAt(s, st.index) == Close(dict) && |frames| >= 2
    requires OnClose(s, objects, st, dict).Running?
    ensures var f := frames[|frames| - 1];
            Inv(s, objects, OnClose(s, objects, st, dict).state,
                Grown(frames[..|frames| - 1], Group(dict, f.from, st.index + Width(dict), f.kids)))
  {
    hide TokenAt, Sound, Tiles, Stack, StartsAt, FeedTop, HasCandidate, DictionaryOf;
    BracketsAre(s, st.index, dict);
    ClosingGroup(s, objects, st.containers, frames, st.index, dict);
    var f, rest, left := frames[|frames| - 1], st.containers[..|st.containers| - 1], frames[..|frames| - 1];
    var n := Group(dict, f.from, st.index + Width(dict), f.kids);
    assert Allowed(s, objects, ContextOf(rest), left[|left| - 1].kids, n);
    GroupMoves(s, objects, n);
    AddMember(s, objects, rest, left, n);
    SameFeed(s, objects, rest, n);
    if dict && |rest| == 0 { NewCandidate(s, objects, left[0].kids, n, st.containers[0]); }
  }

  lemma {:induction false} GroupMoves(s: string, objects: Objects, n: Node)
    requires n.Group? && Sound(s, objects, n)
    ensures n.from < n.to <= |s|
  {
  }

  lemma {:induction false} NewCandidate(s: string, objects: Objects, kids: seq<Node>, n: Node, c: Container)
    requires n.Group? && n.dict && c.InDict? && c.dictionary == DictionaryOf(s, objects, n.kids)
    ensures HasCandidate(s, objects, Candidate(c.dictionary, c.topLevel, n.to), kids + [n])
  {
    assert IsCandidate(s, objects, Candidate(c.dictionary, c.topLevel, n.to), (kids + [n])[|kids|]);
  }

  lemma {:induction false} SameFeed(s: string, objects: Objects, containers: seq<Container>, n: Node)
    requires n.Group?
    ensures FeedTop(s, objects, containers, n) == FeedTop(s, objects, containers, Group(n.dict, 0, n.to, []))
  {
  }

  lemma {:induction false} StreamIsOne(s: string, objects: Objects, c: Candidate, d: Node, from: nat, to: nat)
    requires IsCandidate(s, objects, c, d) && from < to <= |s| && to == from + 6 && StartsAt(s, "stream", from)
    requires StreamAfter(s, Some(c), from, to) != -1
    ensures var start := LineEndAfter(s, to);
            var n := Body(from, StreamAfter(s, Some(c), from, to), start, start + c.dictionary.lengthValue.value);
            c.dictionary.lengthValue.Some? && c.dictionary.lengthValue.value >= 0 && IsStreamOf(s, objects, d, n)
  {
    hide IsGap, Items, LengthOf, DictionaryOf;
    UsableLengthIsRead(s, objects, d.kids);
  }

  lemma {:induction false} StreamKeepsInv(s: string, objects: Objects, st: State, frames: seq<Frame>)
    returns (frames': seq<Frame>)
    requires Inv(s, objects, st, frames) && st.index < |s| && TokenAt(s, st.index).StreamWord?
             && OnePass(s, objects, st).Running?
    ensures Inv(s, objects, OnePass(s, objects, st).state, frames')
  {
    hide Sound, Tiles, Stack, IsStreamOf, StreamAfter;
    var to := TokenAt(s, st.index).to;
    StreamWordIs(s, st.index);
    StackHasFrames(s, objects, st.containers, frames, st.index);
    var c := NeedsCandidate(s, st, to);
    var j :| 0 <= j < |frames[0].kids| && IsCandidate(s, objects, c, frames[0].kids[j]);
    StreamIsOne(s, objects, c, frames[0].kids[j], st.index, to);
    var start := LineEndAfter(s, to);
    var n := Body(st.index, StreamAfter(s, Some(c), st.index, to), start, start + c.dictionary.lengthValue.value);
    assert Sound(s, objects, n) by { BodyIsSound(s, objects, n); }
    AddMember(s, objects, st.containers, frames, n);
    frames' := Grown(frames, n);
  }

  lemma {:induction false} BodyIsSound(s: string, objects: Objects, n: Node)
    requires n.Body?
    ensures Sound(s, objects, n)
  {
  }

  lemma {:induction false} NeedsCandidate(s: string, st: State, to: nat) returns (c: Candidate)
    requires st.index < to <= |s| && StreamAfter(s, st.candidate, st.index, to) != -1
    ensures st.candidate == Some(c) && c.topLevel
  {
    c := st.candidate.value;
  }

  lemma {:induction false} StreamWordIs(s: string, i: nat)
    requires i < |s| && TokenAt(s, i).StreamWord?
    ensures TokenAt(s, i).to == i + 6 <= |s| && StartsAt(s, "stream", i)
  {
    assert |s[i..WordEnd(s, i)]| == 6;
  }

  // One turn that moves on keeps the stack of what has been read.
  lemma {:induction false} PassKeepsInv(s: string, objects: Objects, st: State, frames: seq<Frame>)
    returns (frames': seq<Frame>)
    requires Inv(s, objects, st, frames) && st.index < |s| && !IsStuck(s, st) && OnePass(s, objects, st).Running?
    ensures Inv(s, objects, OnePass(s, objects, st).state, frames')
  {
    hide Inv, TokenAt, OnLeaf, OnClose, StreamAfter;
    match TokenAt(s, st.index)
    case LeafToken(kind, to) =>
      LeafKeepsInv(s, objects, st, frames);
      InvHasFrames(s, objects, st, frames);
      frames' := Grown(frames, Leaf(kind, st.index, to));
    case Open(dict) =>
      OpenKeepsInv(s, objects, st, frames, dict);
      frames' := frames + [Frame(dict, st.index, [])];
    case Close(dict) =>
      CloseNeedsFrames(s, objects, st, frames, dict);
      CloseKeepsInv(s, objects, st, frames, dict);
      var f := frames[|frames| - 1];
      frames' := Grown(frames[..|frames| - 1], Group(dict, f.from, st.index + Width(dict), f.kids));
    case StreamWord(_) => frames' := StreamKeepsInv(s, objects, st, frames);
  }

  lemma {:induction false} InvHasFrames(s: string, objects: Objects, st: State, frames: seq<Frame>)
    requires Inv(s, objects, st, frames)
    ensures |frames| == |st.containers| + 1
  {
  }

  lemma {:induction false} CloseNeedsFrames(s: string, objects: Objects, st: State, frames: seq<Frame>, dict: bool)
    requires Inv(s, objects, st, frames) && OnClose(s, objects, st, dict).Running?
    ensures |frames| >= 2
  {
  }

  lemma {:induction false} SafeIsReadable(s: string, objects: Objects, st: State, frames: seq<Frame>)
    requires Inv(s, objects, st, frames) && Walk(s, objects, st) == Safe
    ensures IsReadable(s, objects)
    decreases |s| - st.index
  {
    hide Inv, OnePass, IsStuck;
    InvIsInside(s, objects, st, frames);
    if st.index < |s| {
      SafeRuns(s, objects, st);
      var frames' := PassKeepsInv(s, objects, st, frames);
      PassAdvances(s, objects, st);
      SafeIsReadable(s, objects, OnePass(s, objects, st).state, frames');
    } else {
      WalkEnds(s, objects, st);
      assert Tiles(s, objects, Top, frames[0].kids, 0, |s|) by { AllRead(s, objects, st, frames); }
    }
  }

  lemma {:induction false} InvIsInside(s: string, objects: Objects, st: State, frames: seq<Frame>)
    requires Inv(s, objects, st, frames)
    ensures st.index <= |s| && |frames| > 0
  {
  }

  lemma {:induction false} AllRead(s: string, objects: Objects, st: State, frames: seq<Frame>)
    requires Inv(s, objects, st, frames) && st.index == |s| && |st.containers| == 0
    ensures Tiles(s, objects, Top, frames[0].kids, 0, |s|)
  {
    hide Tiles;
  }

  lemma {:induction false} SafeRuns(s: string, objects: Objects, st: State)
    requires st.index < |s| && Walk(s, objects, st) == Safe
    ensures !IsStuck(s, st) && OnePass(s, objects, st).Running?
            && Walk(s, objects, OnePass(s, objects, st).state) == Safe
  {
    hide IsStuck, TokenAt;
    if OnePass(s, objects, st).Returned? { OnlyTheEndIsSafe(s, objects, st); }
  }

  lemma {:induction false} OnlyTheEndIsSafe(s: string, objects: Objects, st: State)
    requires st.index < |s| && OnePass(s, objects, st).Returned?
    ensures OnePass(s, objects, st) == Returned(true)
  {
  }

  // ---------------------------------------------------------------- readable sources are accepted

  // The containers of the walk around and behind these members.
  function Around(s: string, objects: Objects, base: seq<Container>, c: Context, kids: seq<Node>): seq<Container> {
    match c
    case Top => base
    case Members(dict) => base + [if dict then InDict(DictionaryOf(s, objects, kids), |base| == 0) else InArray]
  }

  // The stream candidate behind these members.
  function After(s: string, objects: Objects, c: Context, kids: seq<Node>): Option<Candidate> {
    if |kids| == 0 then None
    else
      match kids[|kids| - 1]
      case Leaf(kind, _, _) => if kind.White? || kind.Comment? then After(s, objects, c, kids[..|kids| - 1]) else None
      case Group(dict, _, to, members) => if dict
          then Some(Candidate(DictionaryOf(s, objects, members), c == Top, to)) else None
      case Body(_, _, _, _) => None
  }

  predicate Fits(base: seq<Container>, c: Context) { c == Top ==> |base| == 0 }

  function StateAt(s: string, objects: Objects, base: seq<Container>, c: Context, kids: seq<Node>, index: nat): State {
    State(Around(s, objects, base, c, kids), After(s, objects, c, kids), index)
  }

  lemma {:induction false} LeavesAreTokens(s: string, kind: LeafKind, from: nat, to: nat)
    requires IsLeaf(s, kind, from, to)
    ensures TokenAt(s, from) == LeafToken(kind, to)
  {
    hide StringEnd, BodyEnd, CommentEnd, HexEnd, WordEnd;
    match kind
    case White =>
    case Comment => SameEnd(s, from, CommentEnd(s, from + 1), to);
    case Str => CountingIsNesting(s, from + 1, 1); ClosedString(s, from);
    case Hex =>
    case Solidus =>
    case Name =>
    case Word => NotABracket(s, from, to);
  }

  lemma {:induction false} SameEnd(s: string, from: nat, e: nat, to: nat)
    requires from < e <= |s| && from < to <= |s|
    requires (e < |s| ==> IsLineEnd(s[e])) && forall k | from < k < e :: !IsLineEnd(s[k])
    requires (to < |s| ==> IsLineEnd(s[to])) && forall k | from < k < to :: !IsLineEnd(s[k])
    ensures e == to
  {
  }

  lemma {:induction false} ClosedString(s: string, from: nat)
    requires from < |s|
    ensures BodyEnd(s, from + 1) != -1 ==> StringEnd(s, BodyEnd(s, from + 1) + 1, 0) == BodyEnd(s, from + 1) + 1
  {
  }

  lemma {:induction false} NotABracket(s: string, from: nat, to: nat)
    requires IsLeaf(s, Word, from, to)
    ensures !IsDelimiter(s[from]) && WordEnd(s, from) == to
  {
  }

  lemma {:induction false} AroundSnoc(s: string, objects: Objects, base: seq<Container>, c: Context, kids: seq<Node>,
                                      n: Node)
    requires Fits(base, c)
    ensures Around(s, objects, base, c, kids + [n]) == FeedTop(s, objects, Around(s, objects, base, c, kids), n)
  {
    hide Feed;
    FoldSnoc(s, objects, FRESH, kids, n);
    if c.Members? && c.dict {
      var around := Around(s, objects, base, c, kids);
      assert around[..|around| - 1] == base;
    }
  }

  lemma {:induction false} CurrentOf(s: string, objects: Objects, base: seq<Container>, c: Context, kids: seq<Node>)
    requires Fits(base, c)
    ensures Current(Around(s, objects, base, c, kids)) == if c == Members(true)
            then Some(DictionaryOf(s, objects, kids)) else None
  {
  }

  lemma {:induction false} AfterSnoc(s: string, objects: Objects, c: Context, kids: seq<Node>, n: Node)
    ensures After(s, objects, c, kids + [n])
            == match n
               case Leaf(kind, _, _) => if kind.White? || kind.Comment? then After(s, objects, c, kids) else None
               case Group(dict, _, to, members) => if dict
                   then Some(Candidate(DictionaryOf(s, objects, members), c == Top, to)) else None
               case Body(_, _, _, _) => None
  {
    assert (kids + [n])[..|kids|] == kids;
  }

  lemma {:induction false} FollowLeaf(s: string, objects: Objects, base: seq<Container>, c: Context,
                                      before: seq<Node>, n: Node)
    requires Fits(base, c) && n.Leaf? && Sound(s, objects, n) && Allowed(s, objects, c, before, n)
             && n.from < n.to <= |s|
    ensures Walk(s, objects, StateAt(s, objects, base, c, before, n.from)) == Walk(s, objects,
            StateAt(s, objects, base, c, before + [n], n.to))
  {
    hide TokenAt, FeedTop, DictionaryOf, Decoded, IsGloballyActive, IsActionType, IsActiveMember, IsRejected, Items,
         KeyWaiting, Walk, Around, After, IsLeaf;
    var st := StateAt(s, objects, base, c, before, n.from);
    LeavesAreTokens(s, n.kind, n.from, n.to);
    CurrentOf(s, objects, base, c, before);
    if n.kind.Name? {
      RejectionIsRead(s, objects, before, Decoded(s[n.from + 1..n.to]));
      GloballyRejected(Current(st.containers), Decoded(s[n.from + 1..n.to]));
    }
    AroundSnoc(s, objects, base, c, before, n);
    AfterSnoc(s, objects, c, before, n);
    assert OnePass(s, objects, st) == Running(StateAt(s, objects, base, c, before + [n], n.to));
    WalkStep(s, objects, st, StateAt(s, objects, base, c, before + [n], n.to));
  }

  lemma {:induction false} OpensAt(s: string, from: nat, dict: bool)
    requires StartsAt(s, Opener(dict), from)
    ensures TokenAt(s, from) == Open(dict)
  {
    hide WordEnd, CommentEnd, HexEnd, StringEnd;
    assert s[from] == s[from..from + Width(dict)][0];
    if dict { assert s[from + 1] == s[from..from + 2][1]; }
  }

  lemma {:induction false} ClosesAt(s: string, from: nat, dict: bool)
    requires StartsAt(s, Closer(dict), from)
    ensures TokenAt(s, from) == Close(dict)
  {
    hide WordEnd, CommentEnd, HexEnd, StringEnd;
    assert s[from] == s[from..from + Width(dict)][0];
    if dict { assert s[from + 1] == s[from..from + 2][1]; }
  }

  lemma {:induction false} FollowOpen(s: string, objects: Objects, base: seq<Container>, c: Context,
                                      before: seq<Node>, from: nat, dict: bool)
    requires Fits(base, c) && StartsAt(s, Opener(dict), from) && from < |s|
    ensures from + Width(dict) <= |s|
    ensures Walk(s, objects, StateAt(s, objects, base, c, before, from))
            == Walk(s, objects, StateAt(s, objects, Around(s, objects, base, c, before), Members(dict), [],
                                        from + Width(dict)))
  {
    hide TokenAt, Walk, StartsAt;
    OpensAt(s, from, dict);
    BracketsAre(s, from, dict);
    WalkStep(s, objects, StateAt(s, objects, base, c, before, from),
             StateAt(s, objects, Around(s, objects, base, c, before), Members(dict), [], from + Width(dict)));
  }

  lemma {:induction false} FollowClose(s: string, objects: Objects, base: seq<Container>, c: Context,
                                       before: seq<Node>, n: Node)
    requires Fits(base, c) && n.Group? && Sound(s, objects, n)
    ensures n.from + Width(n.dict) <= n.to - Width(n.dict) && n.to <= |s|
    ensures Walk(s, objects,
                 StateAt(s, objects, Around(s, objects, base, c, before), Members(n.dict), n.kids,
                         n.to - Width(n.dict)))
            == Walk(s, objects, StateAt(s, objects, base, c, before + [n], n.to))
  {
    hide TokenAt, Walk, StartsAt, Tiles, FeedTop, DictionaryOf, Items, KeyWaiting, EndsInReference;
    UsableLengthIsRead(s, objects, n.kids);
    var around := Around(s, objects, base, c, before);
    var st := StateAt(s, objects, around, Members(n.dict), n.kids, n.to - Width(n.dict));
    ClosesAt(s, n.to - Width(n.dict), n.dict);
    AroundSnoc(s, objects, base, c, before, n);
    AfterSnoc(s, objects, c, before, n);
    SameFeed(s, objects, around, n);
    assert st.containers[..|st.containers| - 1] == around;
    assert OnePass(s, objects, st) == Running(StateAt(s, objects, base, c, before + [n], n.to));
    WalkStep(s, objects, st, StateAt(s, objects, base, c, before + [n], n.to));
  }

  lemma {:induction false} FollowNode(s: string, objects: Objects, base: seq<Container>, c: Context,
                                      before: seq<Node>, from: nat, n: Node)
    requires Fits(base, c) && Tiles(s, objects, c, before, from, n.from) && n.from < n.to <= |s|
    requires Sound(s, objects, n) && Allowed(s, objects, c, before, n)
    ensures Walk(s, objects, StateAt(s, objects, base, c, before, n.from)) == Walk(s, objects,
            StateAt(s, objects, base, c, before + [n], n.to))
    decreases n
  {
    hide Walk, StateAt, Around, Allowed, StartsAt, DictionaryOf;
    match n
    case Leaf(_, _, _) => FollowLeaf(s, objects, base, c, before, n);
    case Body(_, _, _, _) => FollowBody(s, objects, base, c, before, from, n);
    case Group(dict, _, _, kids) =>
      FollowOpen(s, objects, base, c, before, n.from, dict);
      FollowKids(s, objects, Around(s, objects, base, c, before), Members(dict), kids, n.from + Width(dict),
                 n.to - Width(dict));
      FollowClose(s, objects, base, c, before, n);
  }

  // The walk passes over well-placed nodes and comes out behind them.
  lemma {:induction false} FollowKids(s: string, objects: Objects, base: seq<Container>, c: Context, kids: seq<Node>,
                                      from: nat, to: nat)
    requires Fits(base, c) && Tiles(s, objects, c, kids, from, to) && from <= |s|
    ensures to <= |s|
    ensures Walk(s, objects, StateAt(s, objects, base, c, [], from)) == Walk(s, objects,
            StateAt(s, objects, base, c, kids, to))
    decreases kids
  {
    hide Walk, StateAt, Sound, Allowed;
    if |kids| > 0 {
      var before, n := kids[..|kids| - 1], kids[|kids| - 1];
      FollowKids(s, objects, base, c, before, from, n.from);
      FollowNode(s, objects, base, c, before, from, n);
      assert before + [n] == kids;
    }
  }

  // Between a dictionary and its stream there is only white space.
  predicate AllWhite(s: string, from: nat, to: nat)
    requires to <= |s|
  {
    forall k | from <= k < to :: IsWhite(s[k])
  }

  lemma {:induction false} GapIsWhite(s: string, from: nat, to: nat)
    requires from <= to <= |s| && IsGap(s[from..to])
    ensures AllWhite(s, from, to)
  {
    var gap := s[from..to];
    forall k | from <= k < to ensures IsWhite(s[k]) {
      assert s[k] == gap[k - from];
      if |gap| >= 2 && gap[|gap| - 2..] == "\r\n" && AreBlanks(gap[..|gap| - 2]) {
        if k - from < |gap| - 2 {
          assert gap[..|gap| - 2][k - from] == gap[k - from];
        } else {
          assert gap[|gap| - 2..][k - from - (|gap| - 2)] == gap[k - from];
        }
      } else if k - from < |gap| - 1 {
        assert gap[..|gap| - 1][k - from] == gap[k - from];
      }
    }
  }

  lemma {:induction false} WhiteNode(s: string, objects: Objects, c: Context, before: seq<Node>, n: Node)
    requires n.from < n.to <= |s| && Sound(s, objects, n) && Allowed(s, objects, c, before, n)
    ensures IsWhite(s[n.from]) ==> n.Leaf? && n.kind.White?
  {
    hide Tiles, BodyEnd, DictionaryOf, IsRejected, IsGloballyActive;
    match n
    case Leaf(kind, from, to) =>
    case Group(dict, from, _, _) => assert s[from..from + Width(dict)][0] == s[from];
    case Body(from, _, _, _) => assert s[from..from + 6][0] == s[from];
  }

  lemma {:induction false} TilesInOrder(s: string, objects: Objects, c: Context, kids: seq<Node>, from: nat, to: nat,
                                        j: nat)
    requires Tiles(s, objects, c, kids, from, to) && j < |kids|
    ensures kids[j].to <= to && from <= kids[j].from
    ensures j < |kids| - 1 ==> kids[j].to <= kids[|kids| - 1].from
    decreases |kids|
  {
    hide Sound, Allowed;
    var before, n := kids[..|kids| - 1], kids[|kids| - 1];
    TilesForward(s, objects, c, before, from, n.from);
    if j < |kids| - 1 { TilesInOrder(s, objects, c, before, from, n.from, j); }
  }

  lemma {:induction false} TilesForward(s: string, objects: Objects, c: Context, kids: seq<Node>, from: nat, to: nat)
    requires Tiles(s, objects, c, kids, from, to)
    ensures from <= to
    decreases |kids|
  {
    hide Sound, Allowed;
    if |kids| > 0 { TilesForward(s, objects, c, kids[..|kids| - 1], from, kids[|kids| - 1].from); }
  }

  lemma {:induction false} CandidateSurvives(s: string, objects: Objects, kids: seq<Node>, from: nat, to: nat, j: nat)
    requires Tiles(s, objects, Top, kids, from, to) && j < |kids| && kids[j].Group? && kids[j].dict && to <= |s|
    requires kids[j].to <= to && AllWhite(s, kids[j].to, to)
    ensures After(s, objects, Top, kids) == Some(Candidate(DictionaryOf(s, objects, kids[j].kids), true, kids[j].to))
    decreases |kids|
  {
    hide Sound, Allowed, DictionaryOf;
    if j < |kids| - 1 {
      var before, n := kids[..|kids| - 1], kids[|kids| - 1];
      TilesInOrder(s, objects, Top, kids, from, to, j);
      WhiteNode(s, objects, Top, before, n);
      CandidateSurvives(s, objects, before, from, n.from, j);
    }
  }

  lemma {:induction false} StreamTokenAt(s: string, from: nat)
    requires from + 6 < |s| && StartsAt(s, "stream", from) && IsLineEnd(s[from + 6])
    ensures TokenAt(s, from) == StreamWord(from + 6)
  {
    hide CommentEnd, HexEnd, StringEnd;
    assert forall k | from <= k < from + 6 :: s[k] == "stream"[k - from] by {
      forall k | from <= k < from + 6 ensures s[k] == "stream"[k - from] { assert s[k] == s[from..from + 6][k - from]; }
    }
    assert forall k | from <= k < from + 6 :: !IsDelimiter(s[k]);
    assert WordEnd(s, from) == from + 6;
  }

  lemma {:induction false} StreamFits(s: string, objects: Objects, d: Node, n: Node)
    requires IsStreamOf(s, objects, d, n)
    ensures IsLineEnd(s[n.from + 6])
    ensures StreamAfter(s, Some(Candidate(DictionaryOf(s, objects, d.kids), true, d.to)), n.from, n.from + 6) == n.to
  {
    hide DictionaryOf, Items, LengthOf, IsGap, StartsAt;
    UsableLengthIsRead(s, objects, d.kids);
  }

  lemma {:induction false} FollowBody(s: string, objects: Objects, base: seq<Container>, c: Context,
                                      before: seq<Node>, from: nat, n: Node)
    requires Fits(base, c) && Tiles(s, objects, c, before, from, n.from) && n.from < n.to <= |s|
    requires n.Body? && Allowed(s, objects, c, before, n)
    ensures Walk(s, objects, StateAt(s, objects, base, c, before, n.from)) == Walk(s, objects,
            StateAt(s, objects, base, c, before + [n], n.to))
  {
    hide Walk, Tiles, DictionaryOf, TokenAt, After, StreamAfter, AllWhite, IsStreamOf;
    var j :| 0 <= j < |before| && IsStreamOf(s, objects, before[j], n);
    StreamShape(s, objects, before[j], n);
    GapIsWhite(s, before[j].to, n.from);
    CandidateSurvives(s, objects, before, from, n.from, j);
    StreamFits(s, objects, before[j], n);
    StreamTokenAt(s, n.from);
    AfterSnoc(s, objects, c, before, n);
    WalkStep(s, objects, StateAt(s, objects, base, c, before, n.from),
             StateAt(s, objects, base, c, before + [n], n.to));
  }

  lemma {:induction false} StreamShape(s: string, objects: Objects, d: Node, n: Node)
    requires IsStreamOf(s, objects, d, n)
    ensures d.Group? && d.dict && d.to <= n.from && n.from + 6 < |s| && IsGap(s[d.to..n.from])
            && StartsAt(s, "stream", n.from)
  {
  }

  // ---------------------------------------------------------------- members of a forest

  lemma {:induction false} GroupTiles(s: string, objects: Objects, g: Node)
    requires g.Group? && Sound(s, objects, g)
    ensures g.from + 2 * Width(g.dict) <= g.to
    ensures Tiles(s, objects, Members(g.dict), g.kids, g.from + Width(g.dict), g.to - Width(g.dict))
  {
    hide Tiles;
  }

  lemma {:induction false} MemberIsSound(s: string, objects: Objects, c: Context, kids: seq<Node>, from: nat, to: nat,
                                         i: nat)
    requires Tiles(s, objects, c, kids, from, to) && i < |kids|
    ensures kids[i].from < kids[i].to <= |s| && Sound(s, objects, kids[i]) && Allowed(s, objects, c, kids[..i], kids[i])
    decreases |kids|
  {
    hide Sound, Allowed;
    if i < |kids| - 1 {
      MemberIsSound(s, objects, c, kids[..|kids| - 1], from, kids[|kids| - 1].from, i);
      assert kids[..|kids| - 1][..i] == kids[..i];
    }
  }
}
