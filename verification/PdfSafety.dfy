/**
 * The PDF safety walk accepts exactly the readable sources
 * (packages/cardano-agent/src/privateComparison/privateDocumentWorker.ts:479-662).
 */
module PdfSafety {
  import opened PdfTokens
  import opened PdfWalk
  import opened PdfForest

  // The walk finds a source safe exactly when the source reads as a forest: every bracket closed in
  // order, no active name outside comments, strings and stream bodies, every stream body as long as
  // its dictionary says.
  lemma {:induction false} SafeExactlyWhenReadable(s: string, objects: Objects)
    ensures Walk(s, objects, START) == Safe <==> IsReadable(s, objects)
  {
    hide Walk, Tiles;
    if Walk(s, objects, START) == Safe {
      StartIsEmpty(s, objects);
      SafeIsReadable(s, objects, START, [Frame(false, 0, [])]);
    }
    if IsReadable(s, objects) {
      var forest :| Tiles(s, objects, Top, forest, 0, |s|);
      FollowKids(s, objects, [], Top, forest, 0, |s|);
      StartAtTop(s, objects, forest);
      WalkEnds(s, objects, StateAt(s, objects, [], Top, forest, |s|));
    }
  }

  lemma {:induction false} StartIsEmpty(s: string, objects: Objects)
    ensures Inv(s, objects, START, [Frame(false, 0, [])])
  {
  }

  lemma {:induction false} StartAtTop(s: string, objects: Objects, forest: seq<Node>)
    ensures StateAt(s, objects, [], Top, [], 0) == START && StateAt(s, objects, [], Top, forest, |s|).containers == []
  {
  }

  // Does the node occur anywhere in the forest?
  ghost predicate Occurs(n: Node, kids: seq<Node>)
    decreases kids
  {
    exists i :: 0 <= i < |kids| && (n == kids[i] || (kids[i].Group? && Occurs(n, kids[i].kids)))
  }

  // In particular no name anywhere in an accepted source decodes to an active one.
  lemma {:induction false} NoActiveNameOccurs(s: string, objects: Objects, c: Context, kids: seq<Node>, from: nat,
                                              to: nat, n: Node)
    requires Tiles(s, objects, c, kids, from, to) && Occurs(n, kids) && n.Leaf? && n.kind.Name?
    ensures n.from < n.to <= |s| && s[n.from] == '/' && !IsGloballyActive(Decoded(s[n.from + 1..n.to]))
    decreases kids
  {
    hide Tiles, Sound, Allowed, IsGloballyActive, Decoded;
    var i :| 0 <= i < |kids| && (n == kids[i] || (kids[i].Group? && Occurs(n, kids[i].kids)));
    MemberIsSound(s, objects, c, kids, from, to, i);
    if n == kids[i] {
      SoundNameIsInactive(s, objects, c, kids[..i], n);
    } else {
      var g := kids[i];
      GroupTiles(s, objects, g);
      NoActiveNameOccurs(s, objects, Members(g.dict), g.kids, g.from + Width(g.dict), g.to - Width(g.dict), n);
    }
  }

  lemma {:induction false} SoundNameIsInactive(s: string, objects: Objects, c: Context, before: seq<Node>, n: Node)
    requires n.Leaf? && n.kind.Name? && Sound(s, objects, n) && Allowed(s, objects, c, before, n)
    ensures n.from < n.to <= |s| && s[n.from] == '/' && !IsGloballyActive(Decoded(s[n.from + 1..n.to]))
  {
    hide IsGloballyActive, Decoded, IsRejected;
  }

  // ---------------------------------------------------------------- when the walk does not end

  // A bare ')' or a lone '>'.
  predicate IsBare(s: string, i: nat) {
    i < |s| && (s[i] == ')' || (s[i] == '>' && !(i + 1 < |s| && s[i + 1] == '>')))
  }

  // Read up to i, these brackets are open, one inside the other: each is a bracket, what lies between
  // it and the next reads as its members, and what lies before the first reads as a forest.
  predicate OpensTo(s: string, objects: Objects, frames: seq<Frame>, i: nat)
    decreases |frames|
  {
    && |frames| > 0
    && var f := frames[|frames| - 1];
       if |frames| == 1 then Tiles(s, objects, Top, f.kids, 0, i)
       else
         && f.from + Width(f.dict) <= i && StartsAt(s, Opener(f.dict), f.from)
         && Tiles(s, objects, Members(f.dict), f.kids, f.from + Width(f.dict), i)
         && OpensTo(s, objects, frames[..|frames| - 1], f.from)
  }

  ghost predicate ComesToABareBracket(s: string, objects: Objects) {
    exists frames, i :: IsBare(s, i) && OpensTo(s, objects, frames, i)
  }

  lemma {:induction false} StackOpensTo(s: string, objects: Objects, containers: seq<Container>, frames: seq<Frame>,
                                        i: nat)
    requires Stack(s, objects, containers, frames, i)
    ensures OpensTo(s, objects, frames, i)
    decreases |containers|
  {
    hide Tiles, StartsAt, ContainerOf;
    if |containers| > 0 {
      var f := frames[|frames| - 1];
      StackOpensTo(s, objects, containers[..|containers| - 1], frames[..|frames| - 1], f.from);
    }
  }

  lemma {:induction false} DivergingComesToOne(s: string, objects: Objects, st: State, frames: seq<Frame>)
    requires Inv(s, objects, st, frames) && Walk(s, objects, st) == Diverges
    ensures ComesToABareBracket(s, objects)
    decreases |s| - st.index
  {
    hide OnePass, TokenAt, Stack, HasCandidate, OpensTo;
    if IsStuck(s, st) {
      StrayExactly(s, st.index);
      StackOpensTo(s, objects, st.containers, frames, st.index);
      assert IsBare(s, st.index) && OpensTo(s, objects, frames, st.index);
    } else {
      RunningIsInside(s, objects, st);
      var frames' := PassKeepsInv(s, objects, st, frames);
      PassAdvances(s, objects, st);
      DivergingComesToOne(s, objects, OnePass(s, objects, st).state, frames');
    }
  }

  // The containers and the context of the innermost of the open brackets.
  function BaseOf(s: string, objects: Objects, frames: seq<Frame>): seq<Container>
    requires |frames| > 0
    decreases |frames|
  {
    if |frames| == 1 then []
    else
      var outer := frames[..|frames| - 1];
      Around(s, objects, BaseOf(s, objects, outer), ContextOfFrames(outer), outer[|outer| - 1].kids)
  }

  function ContextOfFrames(frames: seq<Frame>): Context
    requires |frames| > 0
  {
    if |frames| == 1 then Top else Members(frames[|frames| - 1].dict)
  }

  // The walk gets to wherever the brackets lead.
  lemma {:induction false} FollowFrames(s: string, objects: Objects, frames: seq<Frame>, i: nat)
    requires OpensTo(s, objects, frames, i) && i <= |s|
    ensures Walk(s, objects, START)
            == Walk(s, objects, StateAt(s, objects, BaseOf(s, objects, frames), ContextOfFrames(frames),
                                        frames[|frames| - 1].kids, i))
    decreases |frames|
  {
    hide Walk, Tiles, StartsAt, StateAt, Around;
    var f := frames[|frames| - 1];
    var base, c := BaseOf(s, objects, frames), ContextOfFrames(frames);
    if |frames| == 1 {
      StartAtTop(s, objects, f.kids);
      FollowKids(s, objects, base, c, f.kids, 0, i);
    } else {
      var outer := frames[..|frames| - 1];
      OpenerIsInside(s, f.from, f.dict);
      FollowFrames(s, objects, outer, f.from);
      FollowOpen(s, objects, BaseOf(s, objects, outer), ContextOfFrames(outer), outer[|outer| - 1].kids, f.from,
                 f.dict);
      FollowKids(s, objects, base, c, f.kids, f.from + Width(f.dict), i);
    }
  }

  lemma {:induction false} OpenerIsInside(s: string, from: nat, dict: bool)
    requires StartsAt(s, Opener(dict), from)
    ensures from + Width(dict) <= |s| && from < |s|
  {
  }

  lemma {:induction false} DivergesExactly(s: string, objects: Objects)
    ensures Walk(s, objects, START) == Diverges <==> ComesToABareBracket(s, objects)
  {
    hide Walk, Inv, OpensTo, StateAt;
    if Walk(s, objects, START) == Diverges {
      StartIsEmpty(s, objects);
      DivergingComesToOne(s, objects, START, [Frame(false, 0, [])]);
    }
    if ComesToABareBracket(s, objects) {
      var frames: seq<Frame>, i :| IsBare(s, i) && OpensTo(s, objects, frames, i);
      HasAFrame(s, objects, frames, i);
      FollowFrames(s, objects, frames, i);
      StrayExactly(s, i);
      var base, c, kids := BaseOf(s, objects, frames), ContextOfFrames(frames), frames[|frames| - 1].kids;
      var st := StateAt(s, objects, base, c, kids, i);
      IndexOfStateAt(s, objects, base, c, kids, i);
      StuckWalk(s, objects, st);
    }
  }

  lemma {:induction false} HasAFrame(s: string, objects: Objects, frames: seq<Frame>, i: nat)
    requires OpensTo(s, objects, frames, i)
    ensures |frames| > 0
  {
  }

  lemma {:induction false} IndexOfStateAt(s: string, objects: Objects, base: seq<Container>, c: Context,
                                          kids: seq<Node>, i: nat)
    ensures StateAt(s, objects, base, c, kids, i).index == i
  {
  }

  // The loop runs forever exactly on a source that reads, bracket by bracket, up to a bare ')' or a lone
  // '>'.  It returns false exactly on a readable source, and true on every other.
  lemma {:induction false} LoopsForeverExactly(s: string, objects: Objects)
    ensures (forall n :: Turns(s, objects, n).Running?) <==> ComesToABareBracket(s, objects)
    ensures (exists n :: Turns(s, objects, n) == Returned(false)) <==> IsReadable(s, objects)
    ensures (exists n :: Turns(s, objects, n) == Returned(true))
            <==> !IsReadable(s, objects) && !ComesToABareBracket(s, objects)
  {
    hide Walk, Turns, IsReadable, ComesToABareBracket;
    WalkIsTheTurns(s, objects);
    DivergesExactly(s, objects);
    SafeExactlyWhenReadable(s, objects);
  }

  // A single closing parenthesis is such a source.
  lemma {:induction false} BareParenthesisDiverges(objects: Objects)
    ensures ComesToABareBracket(")", objects) && forall n :: Turns(")", objects, n).Running?
  {
    hide Turns;
    assert IsBare(")", 0) && OpensTo(")", objects, [Frame(false, 0, [])], 0);
    LoopsForeverExactly(")", objects);
  }
}
