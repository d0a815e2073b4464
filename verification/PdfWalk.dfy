/**
 * The PDF safety walk
 * (packages/cardano-agent/src/privateComparison/privateDocumentWorker.ts:479-668).
 *
 * `OnePass` is one turn of the loop of pdfNameTokens.  A source it accepts is also read here
 * independently, as a forest of arrays, dictionaries, stream bodies and tokens (sections 7.3.4 to
 * 7.3.8 of ISO 32000-1).  The map of integer objects is a parameter.
 */
module PdfWalk {
  import opened Wrappers
  import opened PdfTokens

  const PRIVATE_DOCUMENT_MAX_BYTES := 20 * 1024 * 1024

  type Objects = map<int, int>

  // ---------------------------------------------------------------- dictionaries, entry by entry

  datatype ValueKind = NumberValue | NameValue | ContainerValue | OtherValue
  datatype Assigned = Assigned(key: string, kind: ValueKind, value: Option<int>)
  datatype Dictionary = Dictionary(pendingKey: Option<string>, lengthValue: Option<int>, lengthSeen: bool,
                                   malformed: bool,
                                   lastAssigned: Option<Assigned>, referencePending: bool,
                                       referenceGeneration: Option<int>)

  const FRESH := Dictionary(None, None, false, false, None, false, None)

  function Assign(d: Dictionary, kind: ValueKind, value: Option<int>): Dictionary {
    if d.pendingKey == None then
      if kind.NumberValue? && d.lastAssigned.Some? && d.lastAssigned.value.kind.NumberValue?
      then d.(referencePending := true, referenceGeneration := value) else d
    else
      var key := d.pendingKey.value;
      var e := if key == "Length"
               then d.(malformed := d.malformed || d.lengthSeen, lengthSeen := true,
                       lengthValue := if kind.NumberValue? then value else d.lengthValue)
               else d;
      e.(lastAssigned := Some(Assigned(key, kind, value)), referencePending := false, referenceGeneration := None,
         pendingKey := None)
  }

  function FeedName(d: Dictionary, name: string): Dictionary {
    if d.pendingKey == None
    then d.(malformed := d.malformed || d.referencePending, referencePending := false, pendingKey := Some(name))
    else Assign(d, NameValue, None)
  }

  function Resolve(d: Dictionary, objects: Objects): Dictionary {
    var e := if d.lastAssigned.None? || d.lastAssigned.value.key != "Length" then d
             else if d.referenceGeneration != Some(0) || d.lastAssigned.value.value == None then d.(malformed := true)
             else if d.lastAssigned.value.value.value in objects
                 then d.(lengthValue := Some(objects[d.lastAssigned.value.value.value]))
             else d.(malformed := true);
    e.(referencePending := false, referenceGeneration := None)
  }

  function FeedWord(d: Dictionary, objects: Objects, word: string): Dictionary {
    if IsInteger(word) then Assign(d, NumberValue, Some(IntegerValue(word)))
    else if word == "R" && d.referencePending then Resolve(d, objects)
    else d.(malformed := true)
  }

  // ---------------------------------------------------------------- the forest

  // A stretch of the source: a token, an array or dictionary, or a stream body with its keywords.
  datatype Node =
    | Leaf(kind: LeafKind, from: nat, to: nat)
    | Group(dict: bool, from: nat, to: nat, kids: seq<Node>)
    | Body(from: nat, to: nat, bodyFrom: nat, bodyTo: nat)

  function Feed(s: string, objects: Objects, d: Dictionary, n: Node): Dictionary {
    match n
    case Group(_, _, _, _) => Assign(d, ContainerValue, None)
    case Body(_, _, _, _) => d
    case Leaf(kind, from, to) =>
      if !(from < to <= |s|) then d
      else
        match kind
        case Str => Assign(d, OtherValue, None)
        case Hex => Assign(d, OtherValue, None)
        case Name => if to - from - 1 > PDF_MAX_NAME_TOKEN_BYTES then d else FeedName(d, Decoded(s[from + 1..to]))
        case Word => FeedWord(d, objects, s[from..to])
        case _ => d
  }

  // What the direct members of a dictionary amount to.
  function Fold(s: string, objects: Objects, d: Dictionary, kids: seq<Node>): Dictionary
    decreases |kids|
  {
    if |kids| == 0 then d else Fold(s, objects, Feed(s, objects, d, kids[0]), kids[1..])
  }

  function DictionaryOf(s: string, objects: Objects, kids: seq<Node>): Dictionary { Fold(s, objects, FRESH, kids) }

  lemma {:induction false} FoldSnoc(s: string, objects: Objects, d: Dictionary, kids: seq<Node>, n: Node)
    ensures Fold(s, objects, d, kids + [n]) == Feed(s, objects, Fold(s, objects, d, kids), n)
    decreases |kids|
  {
    hide Feed;
    if |kids| == 0 {
      assert kids + [n] == [n];
    } else {
      assert (kids + [n])[1..] == kids[1..] + [n];
      FoldSnoc(s, objects, Feed(s, objects, d, kids[0]), kids[1..], n);
    }
  }

  // ---------------------------------------------------------------- the walk

  datatype Container = InDict(dictionary: Dictionary, topLevel: bool) | InArray

  // The dictionary closed last, while a stream may still follow it.
  datatype Candidate = Candidate(dictionary: Dictionary, topLevel: bool, endOffset: nat)

  datatype State = State(containers: seq<Container>, candidate: Option<Candidate>, index: nat)

  datatype Pass = Running(state: State) | Returned(isUnsafe: bool)

  datatype Verdict = Safe | Unsafe | Diverges

  predicate IsActionType(name: string) {
    name in ["JavaScript", "Launch", "SubmitForm", "ImportData", "GoTo", "GoToR", "GoToE", "Rendition", "Movie",
             "Sound", "ResetForm",
             "Thread", "URI", "Hide", "Named", "Trans", "GoTo3DView", "RichMediaExecute"]
  }

  // The names refused wherever they stand.
  predicate IsGloballyActive(name: string) {
    || name == "ObjStm" || name == "JavaScript" || name == "JS" || name == "EmbeddedFiles" || name == "Filespec"
    || name == "EF"
    || name == "AF" || name == "RichMedia" || name == "FileAttachment"
  }

  // inspectName, given the dictionary it is a direct member of, if any.
  predicate IsRejected(d: Option<Dictionary>, name: string) {
    || ((name == "A" || name == "AA") && d.Some?)
    || (name == "OpenAction" && d.Some? && d.value.pendingKey == None)
    || (d.Some? && d.value.pendingKey == Some("S") && IsActionType(name))
    || IsGloballyActive(name)
  }

  function Current(containers: seq<Container>): Option<Dictionary> {
    if |containers| > 0 && containers[|containers| - 1].InDict? then Some(containers[|containers| - 1].dictionary)
    else None
  }

  // The innermost container, a dictionary, changes to d.
  function WithTop(containers: seq<Container>, d: Dictionary): seq<Container>
    requires Current(containers).Some?
  {
    containers[..|containers| - 1] + [containers[|containers| - 1].(dictionary := d)]
  }

  // The node becomes a member of the innermost container.
  function FeedTop(s: string, objects: Objects, containers: seq<Container>, n: Node): seq<Container> {
    if Current(containers) == None then containers
    else WithTop(containers, Feed(s, objects, Current(containers).value, n))
  }

  function AssignTop(containers: seq<Container>, kind: ValueKind, value: Option<int>): seq<Container> {
    if Current(containers) == None then containers
    else WithTop(containers, Assign(Current(containers).value, kind, value))
  }

  function Spoiled(containers: seq<Container>): seq<Container> {
    if Current(containers) == None then containers
    else WithTop(containers, Current(containers).value.(malformed := true))
  }

  predicate IsClosable(c: Container, dict: bool) {
    if dict then c.InDict? && c.dictionary.pendingKey == None && !c.dictionary.referencePending else c.InArray?
  }

  function Width(dict: bool): nat { if dict then 2 else 1 }

  // The offset after "endstream" when the candidate may have this stream, or -1.
  function StreamAfter(s: string, candidate: Option<Candidate>, from: nat, to: nat): (e: int)
    requires from < to <= |s|
    ensures e == -1 || to < e <= |s|
  {
    if candidate == None || !candidate.value.topLevel || candidate.value.dictionary.malformed then -1
    else if !(candidate.value.endOffset <= from && IsGap(s[candidate.value.endOffset..from])) then -1
    else
      match candidate.value.dictionary.lengthValue
      case None => -1
      case Some(length) => if length < 0 || length > PRIVATE_DOCUMENT_MAX_BYTES then -1 else StreamEnd(s, to, length)
  }

  function OnLeaf(s: string, objects: Objects, st: State, kind: LeafKind, to: nat): Pass
    requires st.index < to <= |s|
  {
    if kind.Name? && to - st.index - 1 <= PDF_MAX_NAME_TOKEN_BYTES
        && IsRejected(Current(st.containers), Decoded(s[st.index + 1..to]))
    then Returned(true)
    else Running(State(FeedTop(s, objects, st.containers, Leaf(kind, st.index, to)),
                       if kind.White? || kind.Comment? then st.candidate else None, to))
  }

  function OnClose(s: string, objects: Objects, st: State, dict: bool): Pass {
    if |st.containers| == 0 || !IsClosable(st.containers[|st.containers| - 1], dict) then Returned(true)
    else
      var last, rest := st.containers[|st.containers| - 1], st.containers[..|st.containers| - 1];
      var to := st.index + Width(dict);
      Running(State(FeedTop(s, objects, rest, Group(dict, 0, to, [])),
                    if dict then Some(Candidate(last.dictionary, last.topLevel, to)) else None, to))
  }

  function OnePass(s: string, objects: Objects, st: State): Pass {
    if st.index >= |s| then Returned(|st.containers| > 0)
    else
      match TokenAt(s, st.index)
      case LeafToken(kind, to) => if st.index < to <= |s| then OnLeaf(s, objects, st, kind, to) else Returned(true)
      case Open(dict) =>
        Running(State(st.containers + [if dict then InDict(FRESH, |st.containers| == 0) else InArray], None,
                      st.index + Width(dict)))
      case Close(dict) => OnClose(s, objects, st, dict)
      case StreamWord(to) =>
        if !(st.index < to <= |s|) then Returned(true)
        else
          var end := StreamAfter(s, st.candidate, st.index, to);
          if end == -1 then Returned(true) else Running(State(st.containers, None, end))
      case Stray => Running(State(Spoiled(st.containers), None, st.index))
  }

  const START := State([], None, 0)

  // The state after n turns.
  function Turns(s: string, objects: Objects, n: nat): Pass {
    if n == 0 then Running(START)
    else match Turns(s, objects, n - 1)
         case Running(st) => OnePass(s, objects, st)
         case Returned(u) => Returned(u)
  }

  predicate IsStuck(s: string, st: State) { st.index < |s| && TokenAt(s, st.index).Stray? }

  lemma {:induction false} TokenAdvances(s: string, i: nat)
    requires i < |s|
    ensures match TokenAt(s, i)
            case LeafToken(_, to) => i < to <= |s|
            case StreamWord(to) => i < to <= |s|
            case Open(dict) => i + Width(dict) <= |s|
            case Close(dict) => i + Width(dict) <= |s|
            case Stray => true
  {
  }

  // Every turn moves on, except at a bare ')' or a lone '>', where all later turns stand still.
  lemma {:induction false} PassAdvances(s: string, objects: Objects, st: State)
    requires st.index < |s| && OnePass(s, objects, st).Running?
    ensures var next := OnePass(s, objects, st).state;
            if IsStuck(s, st) then next.index == st.index else st.index < next.index <= |s|
  {
    TokenAdvances(s, st.index);
  }

  lemma {:induction false} RunningIsInside(s: string, objects: Objects, st: State)
    requires OnePass(s, objects, st).Running?
    ensures st.index < |s|
  {
  }

  // What the walk comes to from a state.
  function Walk(s: string, objects: Objects, st: State): Verdict
    requires st.index <= |s|
    decreases |s| - st.index
  {
    if IsStuck(s, st) then Diverges
    else
      match OnePass(s, objects, st)
      case Returned(u) => if u then Unsafe else Safe
      case Running(next) => PassAdvances(s, objects, st); Walk(s, objects, next)
  }

  lemma {:induction false} StuckStep(s: string, objects: Objects, st: State)
    requires IsStuck(s, st)
    ensures OnePass(s, objects, st).Running? && IsStuck(s, OnePass(s, objects, st).state)
  {
  }

  lemma {:induction false} StuckForever(s: string, objects: Objects, n: nat, m: nat)
    requires n <= m && Turns(s, objects, n).Running? && IsStuck(s, Turns(s, objects, n).state)
    ensures Turns(s, objects, m).Running? && IsStuck(s, Turns(s, objects, m).state)
    decreases m
  {
    hide OnePass, IsStuck;
    if n < m {
      StuckForever(s, objects, n, m - 1);
      StuckStep(s, objects, Turns(s, objects, m - 1).state);
    }
  }

  lemma {:induction false} StaysReturned(s: string, objects: Objects, n: nat, m: nat)
    requires n <= m && Turns(s, objects, n).Returned?
    ensures Turns(s, objects, m) == Turns(s, objects, n)
    decreases m
  {
    hide OnePass;
    if n < m { StaysReturned(s, objects, n, m - 1); }
  }

  lemma {:induction false} WalkFollowsTurns(s: string, objects: Objects, n: nat)
    requires Turns(s, objects, n).Running? && Turns(s, objects, n).state.index <= |s|
    ensures Walk(s, objects, Turns(s, objects, n).state) == Diverges ==> forall m :: Turns(s, objects, m).Running?
    ensures Walk(s, objects, Turns(s, objects, n).state) != Diverges ==>
              exists m :: Turns(s, objects, m) == Returned(Walk(s, objects, Turns(s, objects, n).state) == Unsafe)
    decreases |s| - Turns(s, objects, n).state.index
  {
    hide OnePass, TokenAt;
    var st := Turns(s, objects, n).state;
    if IsStuck(s, st) {
      forall m: nat ensures Turns(s, objects, m).Running? {
        if m >= n {
          StuckForever(s, objects, n, m);
        } else if Turns(s, objects, m).Returned? {
          StaysReturned(s, objects, m, n);
        }
      }
    } else {
      assert Turns(s, objects, n + 1) == OnePass(s, objects, st);
      if OnePass(s, objects, st).Running? {
        RunningIsInside(s, objects, st);
        PassAdvances(s, objects, st);
        WalkFollowsTurns(s, objects, n + 1);
      }
    }
  }

  // The turns come to what `Walk` says.
  lemma {:induction false} WalkIsTheTurns(s: string, objects: Objects)
    ensures (forall n :: Turns(s, objects, n).Running?) <==> Walk(s, objects, START) == Diverges
    ensures (exists n :: Turns(s, objects, n) == Returned(false)) <==> Walk(s, objects, START) == Safe
    ensures (exists n :: Turns(s, objects, n) == Returned(true)) <==> Walk(s, objects, START) == Unsafe
  {
    hide Turns, OnePass, Walk;
    assert Turns(s, objects, 0) == Running(START) by { FirstTurn(s, objects); }
    WalkFollowsTurns(s, objects, 0);
    if n, m :| Turns(s, objects, n) == Returned(false) && Turns(s, objects, m) == Returned(true) {
      if n <= m { StaysReturned(s, objects, n, m); } else { StaysReturned(s, objects, m, n); }
    }
  }

  lemma {:induction false} FirstTurn(s: string, objects: Objects)
    ensures Turns(s, objects, 0) == Running(START)
  {
  }

  // ---------------------------------------------------------------- the code, statement by statement

  lemma {:induction false} WalkStep(s: string, objects: Objects, st: State, next: State)
    requires st.index < |s| && !IsStuck(s, st) && OnePass(s, objects, st) == Running(next)
    ensures st.index < next.index <= |s| && Walk(s, objects, st) == Walk(s, objects, next)
  {
    hide OnePass, IsStuck;
    PassAdvances(s, objects, st);
  }

  lemma {:induction false} SameTop(containers: seq<Container>)
    requires Current(containers).Some?
    ensures WithTop(containers, Current(containers).value) == containers
  {
  }

  lemma {:induction false} QuietLeaf(s: string, objects: Objects, containers: seq<Container>, n: Node)
    requires n.Leaf? && (n.kind.White? || n.kind.Comment? || n.kind.Solidus?
                         || (n.kind.Name? && n.to - n.from - 1 > PDF_MAX_NAME_TOKEN_BYTES))
    ensures FeedTop(s, objects, containers, n) == containers
  {
    if Current(containers).Some? { SameTop(containers); }
  }

  lemma {:induction false} UnsafeReturn(s: string, objects: Objects, st: State)
    requires st.index <= |s| && !IsStuck(s, st) && OnePass(s, objects, st) == Returned(true)
    ensures Walk(s, objects, st) == Unsafe
  {
    hide OnePass, IsStuck;
  }

  lemma {:induction false} StuckWalk(s: string, objects: Objects, st: State)
    requires st.index <= |s| && IsStuck(s, st)
    ensures Walk(s, objects, st) == Diverges
  {
    hide OnePass, IsStuck;
  }

  lemma {:induction false} WalkEnds(s: string, objects: Objects, st: State)
    requires st.index == |s|
    ensures Walk(s, objects, st) == if |st.containers| > 0 then Unsafe else Safe
  {
  }

  lemma {:induction false} OnWhite(s: string, objects: Objects, st: State)
    requires st.index < |s| && IsWhite(s[st.index])
    ensures Walk(s, objects, st) == Walk(s, objects, st.(index := st.index + 1))
  {
    hide Walk, Decoded, IsRejected, Assign, FeedWord, FeedName, StringEnd, CommentEnd, HexEnd, IsGap, StreamEnd;
    TokenAdvances(s, st.index);
    QuietLeaf(s, objects, st.containers, Leaf(White, st.index, st.index + 1));
    WalkStep(s, objects, st, OnePass(s, objects, st).state);
  }

  lemma {:induction false} OnComment(s: string, objects: Objects, st: State)
    requires st.index < |s| && s[st.index] == '%'
    ensures Walk(s, objects, st) == Walk(s, objects, st.(index := CommentEnd(s, st.index + 1)))
  {
    hide Walk, Decoded, IsRejected, Assign, FeedWord, FeedName, StringEnd, CommentEnd, HexEnd, IsGap, StreamEnd;
    TokenAdvances(s, st.index);
    QuietLeaf(s, objects, st.containers, Leaf(Comment, st.index, CommentEnd(s, st.index + 1)));
    WalkStep(s, objects, st, OnePass(s, objects, st).state);
  }

  lemma {:induction false} OnString(s: string, objects: Objects, st: State)
    requires st.index < |s| && s[st.index] == '('
    ensures Walk(s, objects, st) == Walk(s, objects,
                                         State(AssignTop(st.containers, OtherValue, None), None,
                                               Min(StringEnd(s, st.index + 1, 1), |s|)))
  {
    hide Walk, Decoded, IsRejected, Assign, FeedWord, FeedName, StringEnd, CommentEnd, HexEnd, IsGap, StreamEnd;
    TokenAdvances(s, st.index);
    WalkStep(s, objects, st, OnePass(s, objects, st).state);
  }

  lemma {:induction false} OnHex(s: string, objects: Objects, st: State)
    requires st.index < |s| && s[st.index] == '<' && !(st.index + 1 < |s| && s[st.index + 1] == '<')
    ensures Walk(s, objects, st) == Walk(s, objects,
                                         State(AssignTop(st.containers, OtherValue, None), None,
                                               HexEnd(s, st.index + 1)))
  {
    hide Walk, Decoded, IsRejected, Assign, FeedWord, FeedName, StringEnd, CommentEnd, HexEnd, IsGap, StreamEnd;
    TokenAdvances(s, st.index);
    WalkStep(s, objects, st, OnePass(s, objects, st).state);
  }

  lemma {:induction false} OnOpenDict(s: string, objects: Objects, st: State)
    requires st.index < |s| && s[st.index] == '<' && st.index + 1 < |s| && s[st.index + 1] == '<'
    ensures Walk(s, objects, st) == Walk(s, objects,
                                         State(st.containers + [InDict(FRESH, |st.containers| == 0)], None,
                                               st.index + 2))
  {
    hide Walk, Decoded, IsRejected, Assign, FeedWord, FeedName, StringEnd, CommentEnd, HexEnd, IsGap, StreamEnd;
    TokenAdvances(s, st.index);
    WalkStep(s, objects, st, OnePass(s, objects, st).state);
  }

  lemma {:induction false} OnOpenArray(s: string, objects: Objects, st: State)
    requires st.index < |s| && s[st.index] == '['
    ensures Walk(s, objects, st) == Walk(s, objects, State(st.containers + [InArray], None, st.index + 1))
  {
    hide Walk, Decoded, IsRejected, Assign, FeedWord, FeedName, StringEnd, CommentEnd, HexEnd, IsGap, StreamEnd;
    TokenAdvances(s, st.index);
    WalkStep(s, objects, st, OnePass(s, objects, st).state);
  }

  // The walk after a closing bracket, on the container it closes and the ones around it.
  function Closed(s: string, objects: Objects, st: State, dict: bool): Verdict
    requires st.index + Width(dict) <= |s|
  {
    if |st.containers| == 0 || !IsClosable(st.containers[|st.containers| - 1], dict) then Unsafe
    else
      var last, rest := st.containers[|st.containers| - 1], st.containers[..|st.containers| - 1];
      Walk(s, objects, State(AssignTop(rest, ContainerValue, None),
                             if dict then Some(Candidate(last.dictionary, last.topLevel, st.index + 2))
                             else None, st.index + Width(dict)))
  }

  lemma {:induction false} OnCloseDict(s: string, objects: Objects, st: State)
    requires st.index < |s| && s[st.index] == '>' && st.index + 1 < |s| && s[st.index + 1] == '>'
    ensures Walk(s, objects, st) == Closed(s, objects, st, true)
  {
    hide Walk, Decoded, IsRejected, Assign, FeedWord, FeedName, StringEnd, CommentEnd, HexEnd, IsGap, StreamEnd;
    TokenAdvances(s, st.index);
    if |st.containers| == 0 || !IsClosable(st.containers[|st.containers| - 1], true) {
      UnsafeReturn(s, objects, st);
    } else {
      WalkStep(s, objects, st, OnePass(s, objects, st).state);
    }
  }

  lemma {:induction false} OnCloseArray(s: string, objects: Objects, st: State)
    requires st.index < |s| && s[st.index] == ']'
    ensures Walk(s, objects, st) == Closed(s, objects, st, false)
  {
    hide Walk, Decoded, IsRejected, Assign, FeedWord, FeedName, StringEnd, CommentEnd, HexEnd, IsGap, StreamEnd;
    TokenAdvances(s, st.index);
    if |st.containers| == 0 || !IsClosable(st.containers[|st.containers| - 1], false) {
      UnsafeReturn(s, objects, st);
    } else {
      WalkStep(s, objects, st, OnePass(s, objects, st).state);
    }
  }

  lemma {:induction false} OnSolidus(s: string, objects: Objects, st: State)
    requires st.index < |s| && s[st.index] == '/' && WordEnd(s, st.index + 1) == st.index + 1
    ensures Walk(s, objects, st) == Walk(s, objects, State(st.containers, None, st.index + 1))
  {
    hide Walk, Decoded, IsRejected, Assign, FeedWord, FeedName, StringEnd, CommentEnd, HexEnd, IsGap, StreamEnd;
    TokenAdvances(s, st.index);
    QuietLeaf(s, objects, st.containers, Leaf(Solidus, st.index, st.index + 1));
    WalkStep(s, objects, st, OnePass(s, objects, st).state);
  }

  lemma {:induction false} OnLongName(s: string, objects: Objects, st: State)
    requires st.index < |s| && s[st.index] == '/' && WordEnd(s, st.index + 1) - st.index - 1 > PDF_MAX_NAME_TOKEN_BYTES
    ensures Walk(s, objects, st) == Walk(s, objects, State(st.containers, None, WordEnd(s, st.index + 1)))
  {
    hide Walk, Decoded, IsRejected, Assign, FeedWord, FeedName, StringEnd, CommentEnd, HexEnd, IsGap, StreamEnd;
    TokenAdvances(s, st.index);
    QuietLeaf(s, objects, st.containers, Leaf(Name, st.index, WordEnd(s, st.index + 1)));
    WalkStep(s, objects, st, OnePass(s, objects, st).state);
  }

  function Named(containers: seq<Container>, name: string): seq<Container> {
    if Current(containers) == None then containers else WithTop(containers, FeedName(Current(containers).value, name))
  }

  function Worded(containers: seq<Container>, objects: Objects, word: string): seq<Container> {
    if Current(containers) == None then containers
    else WithTop(containers, FeedWord(Current(containers).value, objects, word))
  }

  lemma {:induction false} OnName(s: string, objects: Objects, st: State)
    requires st.index < |s| && s[st.index] == '/'
             && 0 < WordEnd(s, st.index + 1) - st.index - 1 <= PDF_MAX_NAME_TOKEN_BYTES
    ensures var end := WordEnd(s, st.index + 1);
            var name := Decoded(s[st.index + 1..end]);
            Walk(s, objects, st) == if IsRejected(Current(st.containers), name) then Unsafe
                                    else Walk(s, objects, State(Named(st.containers, name), None, end))
  {
    hide Walk, Decoded, IsRejected, Assign, FeedWord, FeedName, StringEnd, CommentEnd, HexEnd, IsGap, StreamEnd;
    TokenAdvances(s, st.index);
    if IsRejected(Current(st.containers), Decoded(s[st.index + 1..WordEnd(s, st.index + 1)])) {
      UnsafeReturn(s, objects, st);
    } else {
      WalkStep(s, objects, st, OnePass(s, objects, st).state);
    }
  }

  lemma {:induction false} OnWord(s: string, objects: Objects, st: State)
    requires st.index < |s| && !IsDelimiter(s[st.index]) && s[st.index..WordEnd(s, st.index)] != "stream"
    ensures Walk(s, objects, st) == Walk(s, objects,
                                         State(Worded(st.containers, objects, s[st.index..WordEnd(s, st.index)]),
                                               None, WordEnd(s, st.index)))
  {
    hide Walk, Decoded, IsRejected, Assign, FeedWord, FeedName, StringEnd, CommentEnd, HexEnd, IsGap, StreamEnd;
    TokenAdvances(s, st.index);
    WalkStep(s, objects, st, OnePass(s, objects, st).state);
  }

  lemma {:induction false} OnStream(s: string, objects: Objects, st: State)
    requires st.index < |s| && !IsDelimiter(s[st.index]) && s[st.index..WordEnd(s, st.index)] == "stream"
    ensures var after := StreamAfter(s, st.candidate, st.index, WordEnd(s, st.index));
            Walk(s, objects, st) == if after == -1 then Unsafe else Walk(s, objects, State(st.containers, None, after))
  {
    hide Walk, Decoded, IsRejected, Assign, FeedWord, FeedName, StringEnd, CommentEnd, HexEnd, IsGap, StreamEnd;
    TokenAdvances(s, st.index);
    hide StreamAfter;
    if StreamAfter(s, st.candidate, st.index, WordEnd(s, st.index)) == -1 {
      UnsafeReturn(s, objects, st);
    } else {
      WalkStep(s, objects, st, OnePass(s, objects, st).state);
    }
  }

  lemma {:induction false} OnStray(s: string, objects: Objects, st: State)
    requires st.index < |s| && WordEnd(s, st.index) == st.index && !IsWhite(s[st.index]) && s[st.index] != '%'
             && s[st.index] != '(' && s[st.index] != '<' && s[st.index] != '[' && s[st.index] != ']'
             && s[st.index] != '/' && !(s[st.index] == '>' && st.index + 1 < |s| && s[st.index + 1] == '>')
    ensures Walk(s, objects, st) == Diverges
  {
    hide Walk, Decoded, IsRejected, Assign, FeedWord, FeedName, StringEnd, CommentEnd, HexEnd, IsGap, StreamEnd;
    TokenAdvances(s, st.index);
    StuckWalk(s, objects, st);
  }

  lemma {:induction false} NothingToAssign()
    ensures AssignTop([], ContainerValue, None) == []
  {
  }

  method PdfNameTokens(s: string, integerObjects: Option<Objects>) returns (verdict: Verdict)
    ensures verdict == if integerObjects == None then Unsafe else Walk(s, integerObjects.value, START)
  {
    hide Walk, AssignTop, StringEnd, CommentEnd, HexEnd, TokenAt, IsRejected, Named, Worded, Decoded, StreamAfter;
    if integerObjects == None { return Unsafe; }
    var objects := integerObjects.value;
    var containers: seq<Container>, streamCandidate: Option<Candidate>, index := [], None, 0;
    while index < |s|
      invariant index <= |s| && Walk(s, objects, State(containers, streamCandidate, index)) == Walk(s, objects, START)
      decreases |s| - index
    {
      ghost var st := State(containers, streamCandidate, index);
      var character := s[index];
      if IsWhite(character) {
        OnWhite(s, objects, st);
        index := index + 1;
        continue;
      }
      if character == '%' {
        OnComment(s, objects, st);
        index := SkipPdfComment(s, index + 1);
        continue;
      }
      if character == '(' {
        OnString(s, objects, st);
        index := SkipPdfLiteralString(s, index);
        index := Min(index, |s|);
        containers := AssignTop(containers, OtherValue, None);
        streamCandidate := None;
        continue;
      }
      if character == '<' && !(index + 1 < |s| && s[index + 1] == '<') {
        OnHex(s, objects, st);
        index := SkipPdfHexString(s, index);
        containers := AssignTop(containers, OtherValue, None);
        streamCandidate := None;
        continue;
      }
      if character == '<' {
        OnOpenDict(s, objects, st);
        containers := containers + [InDict(FRESH, |containers| == 0)];
        index := index + 2;
        streamCandidate := None;
        continue;
      }
      if character == '>' && index + 1 < |s| && s[index + 1] == '>' {
        OnCloseDict(s, objects, st);
        if |containers| == 0 { return Unsafe; }
        var container := containers[|containers| - 1];
        containers := containers[..|containers| - 1];
        if !container.InDict? || container.dictionary.pendingKey.Some? || container.dictionary.referencePending {
          return Unsafe;
        }
        NothingToAssign();
        if |containers| > 0 { containers := AssignTop(containers, ContainerValue, None); }
        streamCandidate := Some(Candidate(container.dictionary, container.topLevel, index + 2));
        index := index + 2;
        continue;
      }
      if character == '[' {
        OnOpenArray(s, objects, st);
        containers := containers + [InArray];
        streamCandidate := None;
        index := index + 1;
        continue;
      }
      if character == ']' {
        OnCloseArray(s, objects, st);
        if |containers| == 0 { return Unsafe; }
        var container := containers[|containers| - 1];
        containers := containers[..|containers| - 1];
        if !container.InArray? { return Unsafe; }
        NothingToAssign();
        if |containers| > 0 { containers := AssignTop(containers, ContainerValue, None); }
        streamCandidate := None;
        index := index + 1;
        continue;
      }
      if character == '/' {
        var end := SkipWord(s, index + 1);
        if end == index + 1 {
          OnSolidus(s, objects, st);
          index := index + 1;
          streamCandidate := None;
          continue;
        }
        if end - index - 1 > PDF_MAX_NAME_TOKEN_BYTES {
          OnLongName(s, objects, st);
          streamCandidate := None;
          index := end;
          continue;
        }
        OnName(s, objects, st);
        var name := DecodePdfName(s[index + 1..end]);
        if IsRejected(Current(containers), name) { return Unsafe; }
        containers := Named(containers, name);
        streamCandidate := None;
        index := end;
        continue;
      }
      var end := SkipWord(s, index);
      if end == index {
        OnStray(s, objects, st);
        return Diverges;
      }
      var word := s[index..end];
      if word == "stream" {
        OnStream(s, objects, st);
        var after := StreamAfter(s, streamCandidate, index, end);
        if after == -1 { return Unsafe; }
        index := after;
      } else {
        OnWord(s, objects, st);
        containers := Worded(containers, objects, word);
        index := end;
      }
      streamCandidate := None;
    }
    WalkEnds(s, objects, State(containers, streamCandidate, index));
    return if |containers| > 0 then Unsafe else Safe;
  }
}
