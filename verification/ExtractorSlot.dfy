/**
 * The private extractor's single slot
 * (packages/cardano-agent/src/privateComparison/privateDocumentServer.ts:48, 96-185, 210-342 and 385-433).
 *
 * Any number of requests share one slot.  The request that takes it reads its body, starts a
 * worker thread, and ends the run on whichever comes first of a message, an error, an exit, an
 * abort or a timeout; ending calls `terminate` and then races its promise against a timer.  Timers
 * fire when they are due and continuations run before time passes (`Tick`), so time bounds are in
 * model time.
 */
module ExtractorSlot {
  import opened Wrappers

  const TERMINATION_GRACE_MS := 250

  datatype Slot = Available | Busy | Poisoned

  datatype Reply = Extracted | Refused(status: nat, poisonSlot: bool)

  // How the promise of `terminate` ended; only the theorems look at it.
  datatype Fate = NotCalled | Pending | Threw | Rejected | TimedOut | Resolved

  predicate IsBad(fate: Fate) { fate.Threw? || fate.Rejected? || fate.TimedOut? }

  // One call of runPrivateDocumentWorker.  `error` is the status it finishes with, None for a
  // result; the counters are history.
  datatype Run = Run(deadlineAt: int, timer: Option<int>, finishing: bool, error: Option<nat>, terminationFailed: bool,
                     terminationTimer: Option<int>, settled: Option<Reply>, threadLive: bool, awaiting: bool,
                     fate: Fate, terminations: nat, settlements: nat, poisonings: nat)

  function Started(now: int, remainingMs: int): Run {
    Run(now + remainingMs, Some(now + remainingMs), false, None, false, None, None, true, false, NotCalled, 0, 0, 0)
  }

  function ReplyFor(r: Run, timedOut: bool): Reply {
    if timedOut then Refused(504, true)
    else if r.terminationFailed then Refused(if r.error.Some? then r.error.value else 503, true)
    else if r.error.Some? then Refused(r.error.value, false)
    else Extracted
  }

  function Settle(r: Run, timedOut: bool): Run {
    if r.settled.Some? then r
    else r.(settled := Some(ReplyFor(r, timedOut)), terminationTimer := None, settlements := r.settlements + 1,
            poisonings := r.poisonings + if timedOut || r.terminationFailed then 1 else 0)
  }

  function Max(a: int, b: int): int { if a >= b then a else b }

  function Finish(r: Run, error: Option<nat>, throws: bool, now: int): Run {
    if r.finishing || r.settled.Some? then r
    else
      var f := r.(finishing := true, timer := None, error := error, terminations := r.terminations + 1);
      if throws then Settle(f.(terminationFailed := true, fate := Threw), true)
      else f.(awaiting := true, fate := Pending,
              terminationTimer := Some(now + Max(0, r.deadlineAt - now) + TERMINATION_GRACE_MS))
  }

  // The promise of `terminate` ends; a resolved one means that the thread is gone.
  function Terminated(r: Run, resolved: bool): Run {
    var fate := if r.fate.Pending? then (if resolved then Resolved else Rejected) else r.fate;
    var ended := r.(awaiting := false, fate := fate);
    Settle(if resolved then ended.(threadLive := false) else ended.(terminationFailed := true), false)
  }

  function GraceOver(r: Run): Run {
    Settle(r.(terminationTimer := None, fate := if r.fate.Pending? then TimedOut else r.fate), true)
  }

  // ---------------------------------------------------------------- one request

  datatype Phase = Waiting | Turned(status: nat) | Reading | Ready | Running | Leaving(reply: Reply)
      | Released(reply: Reply, status: nat)

  datatype Request = Request(timeoutMs: nat, phase: Phase, startedAt: int, deadlineTimer: Option<int>, aborted: bool,
                             run: Option<Run>)

  datatype Event =
    | Arrive
    | BodyFails
    | BodyArrives
    | StartWorker(factoryThrows: bool, postThrows: bool, throws: bool)
    | DeadlineFires(throws: bool)
    | ClientAborts(throws: bool)
    | WorkerMessage(error: Option<nat>, throws: bool)
    | WorkerError(throws: bool)
    | WorkerExit(throws: bool)
    | RunTimerFires(throws: bool)
    | TerminationEnds(resolved: bool)
    | GraceEnds
    | Leave(fits: bool)

  predicate IsHolding(q: Request) { q.phase.Reading? || q.phase.Ready? || q.phase.Running? || q.phase.Leaving? }

  predicate HasLiveWorker(q: Request) { q.run.Some? && q.run.value.threadLive }

  predicate IsDue(timer: Option<int>, now: int) { timer.Some? && timer.value <= now }

  predicate CanHappen(q: Request, e: Event, now: int) {
    match e
    case Arrive => q.phase.Waiting?
    case BodyFails => q.phase.Reading?
    case BodyArrives => q.phase.Reading?
    case StartWorker(_, _, _) => q.phase.Ready?
    case DeadlineFires(_) => IsDue(q.deadlineTimer, now)
    case ClientAborts(_) => IsHolding(q) && !q.aborted
    case WorkerMessage(error, _) =>
      (error == None || error == Some(422) || error == Some(503))
      && q.phase.Running? && HasLiveWorker(q) && !q.run.value.finishing
    case WorkerError(_) => q.phase.Running? && HasLiveWorker(q) && !q.run.value.finishing
    case WorkerExit(_) => HasLiveWorker(q)
    case RunTimerFires(_) => q.run.Some? && IsDue(q.run.value.timer, now)
    case TerminationEnds(_) => q.run.Some? && q.run.value.awaiting
    case GraceEnds => q.run.Some? && IsDue(q.run.value.terminationTimer, now)
    case Leave(_) => q.phase.Leaving? || (q.phase.Running? && q.run.Some? && q.run.value.settled.Some?)
  }

  function Ended(q: Request, error: Option<nat>, throws: bool, now: int): Request
    requires q.run.Some?
  {
    q.(run := Some(Finish(q.run.value, error, throws, now)))
  }

  // The abort signal fires at most once; the body reader and the worker run listen to it.
  function Aborted(q: Request, throws: bool, now: int): Request {
    if q.aborted then q
    else if q.phase.Reading? then q.(aborted := true, phase := Leaving(Refused(504, false)))
    else if q.phase.Running? && q.run.Some? then Ended(q.(aborted := true), Some(504), throws, now)
    else q.(aborted := true)
  }

  function WithWorker(q: Request, e: Event, now: int): Request
    requires e.StartWorker?
  {
    var remainingMs := q.startedAt + q.timeoutMs - now;
    if remainingMs <= 0 then q.(phase := Leaving(Refused(504, false)))
    else if e.factoryThrows then q.(phase := Leaving(Refused(503, false)))
    else
      var started := q.(phase := Running, run := Some(Started(now, remainingMs)));
      if q.aborted then Ended(started, Some(504), e.throws, now)
      else if e.postThrows then Ended(started, Some(503), e.throws, now)
      else started
  }

  function ReplyOf(q: Request): Reply
    requires q.phase.Leaving? || (q.phase.Running? && q.run.Some? && q.run.value.settled.Some?)
  {
    if q.phase.Leaving? then q.phase.reply else q.run.value.settled.value
  }

  function After(q: Request, e: Event, now: int, slot: Slot): Request
    requires CanHappen(q, e, now)
  {
    match e
    case Arrive =>
      if slot == Poisoned then q.(phase := Turned(503))
      else if slot == Busy then q.(phase := Turned(429))
      else q.(phase := Reading, startedAt := now, deadlineTimer := Some(now + q.timeoutMs))
    case BodyFails => q.(phase := Leaving(Refused(422, false)))
    case BodyArrives => q.(phase := Ready)
    case StartWorker(_, _, _) => WithWorker(q, e, now)
    case DeadlineFires(throws) => Aborted(q.(deadlineTimer := None), throws, now)
    case ClientAborts(throws) => Aborted(q, throws, now)
    case WorkerMessage(error, throws) => Ended(q, error, throws, now)
    case WorkerError(throws) => Ended(q, Some(503), throws, now)
    case WorkerExit(throws) => Ended(q.(run := Some(q.run.value.(threadLive := false))), Some(503), throws, now)
    case RunTimerFires(throws) => Ended(q, Some(504), throws, now)
    case TerminationEnds(resolved) => q.(run := Some(Terminated(q.run.value, resolved)))
    case GraceEnds => q.(run := Some(GraceOver(q.run.value)))
    case Leave(fits) =>
      var reply := ReplyOf(q);
      q.(phase := Released(reply, if reply.Refused? then reply.status else if fits then 200 else 503),
         deadlineTimer := None)
  }

  function SlotAfter(q: Request, e: Event, slot: Slot): Slot
    requires e.Leave? ==> q.phase.Leaving? || (q.phase.Running? && q.run.Some? && q.run.value.settled.Some?)
  {
    match e
    case Arrive => if slot == Available then Busy else slot
    case Leave(_) =>
      var reply := ReplyOf(q);
      if reply.Refused? && reply.poisonSlot then Poisoned else if slot == Busy then Available else slot
    case _ => slot
  }

  // ---------------------------------------------------------------- the code, statement by statement

  class WorkerRun {
    var deadlineAt: int
    var timer: Option<int>
    var finishing: bool
    var error: Option<nat>
    var terminationFailed: bool
    var terminationTimer: Option<int>
    var settled: Option<Reply>
    var threadLive: bool
    var awaiting: bool
    var fate: Fate
    var terminations: nat
    var settlements: nat
    var poisonings: nat

    function State(): Run
      reads this
    {
      Run(deadlineAt, timer, finishing, error, terminationFailed, terminationTimer, settled, threadLive, awaiting,
          fate, terminations, settlements, poisonings)
    }

    constructor (now: int, remainingMs: int)
      ensures State() == Started(now, remainingMs)
    {
      deadlineAt, timer, finishing, error := now + remainingMs, Some(now + remainingMs), false, None;
      terminationFailed, terminationTimer, settled, threadLive := false, None, None, true;
      awaiting, fate, terminations, settlements, poisonings := false, NotCalled, 0, 0, 0;
    }

    method FinishWith(outcome: Option<nat>, terminateThrows: bool, now: int)
      modifies this
      ensures State() == Finish(old(State()), outcome, terminateThrows, now)
    {
      if finishing || settled.Some? { return; }
      finishing := true;
      timer := None;
      error := outcome;
      terminations := terminations + 1;
      if terminateThrows {
        terminationFailed, fate := true, Threw;
        SettleOnce(true);
        return;
      }
      awaiting, fate := true, Pending;
      var remainingMs := Max(0, deadlineAt - now) + TERMINATION_GRACE_MS;
      terminationTimer := Some(now + remainingMs);
    }

    method SettleOnce(terminationTimedOut: bool)
      modifies this
      ensures State() == Settle(old(State()), terminationTimedOut)
    {
      if settled.Some? { return; }
      if terminationTimedOut {
        poisonings := poisonings + 1;
        settled := Some(Refused(504, true));
      } else if terminationFailed {
        poisonings := poisonings + 1;
        settled := Some(Refused(if error.Some? then error.value else 503, true));
      } else if error.Some? {
        settled := Some(Refused(error.value, false));
      } else {
        settled := Some(Extracted);
      }
      settlements := settlements + 1;
      terminationTimer := None;
    }
  }

  type Byte = b: int | 0 <= b < 256

  function Flatten(chunks: seq<seq<Byte>>): seq<Byte> {
    if |chunks| == 0 then [] else Flatten(chunks[..|chunks| - 1]) + chunks[|chunks| - 1]
  }

  lemma {:induction false} FlattenGrows(chunks: seq<seq<Byte>>, k: nat)
    requires k <= |chunks|
    ensures |Flatten(chunks[..k])| <= |Flatten(chunks)|
    decreases |chunks|
  {
    if k < |chunks| {
      FlattenGrows(chunks[..|chunks| - 1], k);
      assert chunks[..|chunks| - 1][..k] == chunks[..k];
    } else {
      assert chunks[..k] == chunks;
    }
  }

  // The body is accepted exactly when the chunks add up to the announced length, and is then their
  // concatenation.
  method ReadRequestBody(chunks: seq<seq<Byte>>, expectedLength: nat) returns (body: Result<seq<Byte>>)
    ensures body.Ok? <==> |Flatten(chunks)| == expectedLength
    ensures body.Ok? ==> body.value == Flatten(chunks)
  {
    var buffer := new Byte[expectedLength](_ => 0);
    var offset := 0;
    for i := 0 to |chunks|
      invariant offset == |Flatten(chunks[..i])| <= expectedLength
      invariant buffer[..offset] == Flatten(chunks[..i])
    {
      assert chunks[..i + 1][..i] == chunks[..i];
      var bytes := chunks[i];
      if |bytes| > expectedLength - offset {
        FlattenGrows(chunks, i + 1);
        return Thrown;
      }
      forall k | 0 <= k < |bytes| { buffer[offset + k] := bytes[k]; }
      offset := offset + |bytes|;
      assert buffer[..offset] == Flatten(chunks[..i]) + bytes;
    }
    assert chunks[..|chunks|] == chunks;
    if offset != expectedLength { return Thrown; }
    assert buffer[..offset] == buffer[..];
    return Ok(buffer[..]);
  }

  // ---------------------------------------------------------------- the process

  datatype System = System(now: int, slot: Slot, requests: seq<Request>)

  datatype Step = Tick(to: int) | Happen(i: nat, event: Event)

  predicate Initial(s: System) {
    && s.slot == Available
    && forall i | 0 <= i < |s.requests| ::
         var q := s.requests[i];
         q.phase == Waiting && q.timeoutMs >= 1 && q.deadlineTimer == None && !q.aborted && q.run == None
  }

  predicate Allows(timer: Option<int>, to: int) { timer.Some? ==> to <= timer.value }

  // No continuation is pending and no timer is overdue.
  predicate LetsTimePass(q: Request, to: int) {
    && !q.phase.Ready? && !q.phase.Leaving?
    && !(q.phase.Running? && q.run.Some? && q.run.value.settled.Some?)
    && Allows(q.deadlineTimer, to)
    && (q.run.Some? ==> Allows(q.run.value.timer, to) && Allows(q.run.value.terminationTimer, to))
  }

  predicate Next(s: System, step: Step, s': System) {
    match step
    case Tick(to) =>
      s.now <= to && (forall i | 0 <= i < |s.requests| :: LetsTimePass(s.requests[i], to)) && s' == s.(now := to)
    case Happen(i, e) =>
      && i < |s.requests| && CanHappen(s.requests[i], e, s.now)
      && s' == s.(slot := SlotAfter(s.requests[i], e, s.slot),
                  requests := s.requests[i := After(s.requests[i], e, s.now, s.slot)])
  }

  ghost predicate IsRun(states: seq<System>, steps: seq<Step>) {
    && |states| == |steps| + 1 && Initial(states[0])
    && forall k | 0 <= k < |steps| :: Next(states[k], steps[k], states[k + 1])
  }

  ghost predicate Reachable(s: System) {
    exists states, steps :: IsRun(states, steps) && states[|steps|] == s
  }

  // ---------------------------------------------------------------- what holds of one run

  // What a run must come to, from how it ended and how its thread did.
  function Verdict(fate: Fate, error: Option<nat>): Reply {
    match fate
    case Resolved => if error.Some? then Refused(error.value, false) else Extracted
    case Rejected => Refused(if error.Some? then error.value else 503, true)
    case _ => Refused(504, true)
  }

  predicate IsErrorStatus(status: nat) { status == 422 || status == 503 || status == 504 }

  predicate SoundRun(r: Run, now: int) {
    && (r.error.Some? ==> IsErrorStatus(r.error.value))
    && r.terminations == (if r.finishing then 1 else 0)
    && r.settlements == (if r.settled.Some? then 1 else 0)
    && (r.settled.Some? ==> r.finishing)
    && (if r.finishing then r.timer == None else r.timer == Some(r.deadlineAt) && now <= r.deadlineAt)
    && (r.fate.NotCalled? <==> !r.finishing)
    && (r.fate.Pending? <==> r.finishing && r.settled == None)
    && (r.fate.Resolved? ==> !r.threadLive)
    && (r.fate.Pending? ==> r.awaiting)
    && (!r.finishing ==> !r.awaiting)
    && (r.awaiting ==> !r.fate.Resolved?)
    && (!r.finishing || r.fate.Pending? ==> !r.terminationFailed)
    && (r.fate.Pending? ==> now <= r.deadlineAt + TERMINATION_GRACE_MS)
    && (if r.fate.Pending? then r.terminationTimer == Some(r.deadlineAt + TERMINATION_GRACE_MS)
        else r.terminationTimer == None)
    && (r.settled.Some? ==> (r.poisonings == 1 <==> IsBad(r.fate)) && r.settled.value == Verdict(r.fate, r.error))
    && r.poisonings <= r.settlements
  }

  predicate PoisonsSlot(reply: Reply) { reply.Refused? && reply.poisonSlot }

  lemma FinishIsSound(r: Run, error: Option<nat>, throws: bool, now: int)
    requires SoundRun(r, now) && (error.Some? ==> IsErrorStatus(error.value))
    ensures SoundRun(Finish(r, error, throws, now), now) && Finish(r, error, throws, now).deadlineAt == r.deadlineAt
    ensures Finish(r, error, throws, now).finishing
  {
  }

  lemma TerminatedIsSound(r: Run, resolved: bool, now: int)
    requires SoundRun(r, now) && r.awaiting
    ensures SoundRun(Terminated(r, resolved), now) && Terminated(r, resolved).settled.Some?
    ensures Terminated(r, resolved).deadlineAt == r.deadlineAt
  {
  }

  lemma GraceOverIsSound(r: Run, now: int)
    requires SoundRun(r, now) && r.terminationTimer.Some?
    ensures SoundRun(GraceOver(r), now) && GraceOver(r).settled.Some? && GraceOver(r).deadlineAt == r.deadlineAt
  {
  }

  lemma SoundRunInTime(r: Run, now: int, to: int)
    requires SoundRun(r, now) && now <= to && Allows(r.timer, to) && Allows(r.terminationTimer, to)
    ensures SoundRun(r, to)
  {
  }

  // ---------------------------------------------------------------- what holds of one request

  predicate IsPlainError(reply: Reply) { reply.Refused? && !reply.poisonSlot && IsErrorStatus(reply.status) }

  predicate SoundRequest(q: Request, now: int) {
    && q.timeoutMs >= 1
    && (q.phase.Waiting? || q.phase.Turned? ==> q.run == None && !q.aborted)
    && (q.phase.Reading? || q.phase.Ready? || q.phase.Leaving? ==> q.run == None && now <= q.startedAt + q.timeoutMs)
    && (q.phase.Reading? ==> !q.aborted)
    && (q.phase.Running? ==> q.run.Some? && now <= q.startedAt + q.timeoutMs + TERMINATION_GRACE_MS)
    && (q.run.Some? ==> q.run.value.deadlineAt == q.startedAt + q.timeoutMs && (q.phase.Running? || q.phase.Released?)
                        && SoundRun(q.run.value, now) && (q.aborted ==> q.run.value.finishing))
    && (if IsHolding(q) then q.deadlineTimer == (if q.deadlineTimer == None then None
                                                 else Some(q.startedAt + q.timeoutMs))
                             && (q.deadlineTimer == None ==> q.aborted)
        else q.deadlineTimer == None)
    && (q.phase.Leaving? ==> IsPlainError(q.phase.reply))
    && (q.phase.Released? ==>
          && (if q.run.Some? then q.run.value.settled == Some(q.phase.reply) else IsPlainError(q.phase.reply))
          && (q.phase.reply.Refused? ==> q.phase.status == q.phase.reply.status))
  }

  lemma AfterIsSound(q: Request, e: Event, now: int, slot: Slot)
    requires SoundRequest(q, now) && CanHappen(q, e, now)
    ensures SoundRequest(After(q, e, now, slot), now)
  {
    if q.run.Some? {
      RunEventIsSound(q, e, now, slot);
    } else if e.StartWorker? {
      StartIsSound(q, e, now);
    }
  }

  lemma StartIsSound(q: Request, e: Event, now: int)
    requires SoundRequest(q, now) && q.phase.Ready? && e.StartWorker?
    ensures SoundRequest(WithWorker(q, e, now), now)
  {
    if q.startedAt + q.timeoutMs - now > 0 {
      var r := Started(now, q.startedAt + q.timeoutMs - now);
      FinishIsSound(r, Some(504), e.throws, now);
      FinishIsSound(r, Some(503), e.throws, now);
    }
  }

  lemma RunEventIsSound(q: Request, e: Event, now: int, slot: Slot)
    requires SoundRequest(q, now) && CanHappen(q, e, now) && q.run.Some?
    ensures SoundRequest(After(q, e, now, slot), now)
  {
    var r := q.run.value;
    match e
    case DeadlineFires(throws) => FinishIsSound(r, Some(504), throws, now);
    case ClientAborts(throws) => FinishIsSound(r, Some(504), throws, now);
    case WorkerMessage(error, throws) => FinishIsSound(r, error, throws, now);
    case WorkerError(throws) => FinishIsSound(r, Some(503), throws, now);
    case WorkerExit(throws) => FinishIsSound(r.(threadLive := false), Some(503), throws, now);
    case RunTimerFires(throws) => FinishIsSound(r, Some(504), throws, now);
    case TerminationEnds(resolved) => TerminatedIsSound(r, resolved, now);
    case GraceEnds => GraceOverIsSound(r, now);
    case _ =>
  }

  // ---------------------------------------------------------------- the invariant

  ghost predicate HasHolder(s: System) { exists i :: 0 <= i < |s.requests| && IsHolding(s.requests[i]) }

  predicate Poisoner(q: Request) { q.phase.Released? && PoisonsSlot(q.phase.reply) }

  ghost predicate HasPoisoner(s: System) { exists i :: 0 <= i < |s.requests| && Poisoner(s.requests[i]) }

  ghost predicate Inv(s: System) {
    && (forall i | 0 <= i < |s.requests| :: SoundRequest(s.requests[i], s.now))
    && (forall i, j | 0 <= i < j < |s.requests| :: !(IsHolding(s.requests[i]) && IsHolding(s.requests[j])))
    && (s.slot == Busy <==> HasHolder(s))
    && (s.slot == Poisoned <==> HasPoisoner(s))
  }

  // How one event moves the slot.
  lemma SlotFollows(q: Request, e: Event, now: int, slot: Slot)
    requires SoundRequest(q, now) && CanHappen(q, e, now) && (IsHolding(q) ==> slot == Busy)
             && (Poisoner(q) ==> slot == Poisoned)
    ensures var q' := After(q, e, now, slot);
            var slot' := SlotAfter(q, e, slot);
            && (if IsHolding(q') then slot' == Busy && (IsHolding(q) || slot == Available)
                else if Poisoner(q') then slot' == Poisoned
                else if IsHolding(q) then slot' == Available
                else slot' == slot)
            && (Poisoner(q) ==> Poisoner(q'))
            && (Poisoner(q') ==> Poisoner(q) || IsHolding(q))
  {
  }

  lemma HappenKeepsInv(s: System, i: nat, e: Event, s': System)
    requires Inv(s) && Next(s, Happen(i, e), s')
    ensures Inv(s')
  {
    var q, q' := s.requests[i], s'.requests[i];
    assert SoundRequest(q, s.now);
    AfterIsSound(q, e, s.now, s.slot);
    SlotFollows(q, e, s.now, s.slot);
    assert forall j | 0 <= j < |s.requests| && j != i :: s'.requests[j] == s.requests[j];
    if IsHolding(q) {
      assert forall j | 0 <= j < |s.requests| && j != i :: !IsHolding(s.requests[j]);
    }
    if s'.slot == Busy && !IsHolding(q') {
      var j :| 0 <= j < |s.requests| && IsHolding(s.requests[j]);
      assert IsHolding(s'.requests[j]);
    }
    if s'.slot == Poisoned && !Poisoner(q') {
      var j :| 0 <= j < |s.requests| && Poisoner(s.requests[j]);
      assert Poisoner(s'.requests[j]);
    }
  }

  lemma TickKeepsInv(s: System, to: int, s': System)
    requires Inv(s) && Next(s, Tick(to), s')
    ensures Inv(s')
  {
    forall i | 0 <= i < |s.requests| ensures SoundRequest(s'.requests[i], s'.now) {
      var q := s.requests[i];
      assert SoundRequest(q, s.now) && LetsTimePass(q, to);
      if q.run.Some? { SoundRunInTime(q.run.value, s.now, to); }
    }
    if s.slot == Busy {
      var j :| 0 <= j < |s.requests| && IsHolding(s.requests[j]);
      assert IsHolding(s'.requests[j]);
    }
    if s.slot == Poisoned {
      var j :| 0 <= j < |s.requests| && Poisoner(s.requests[j]);
      assert Poisoner(s'.requests[j]);
    }
  }

  lemma {:induction false} RunKeepsInv(states: seq<System>, steps: seq<Step>, k: nat)
    requires IsRun(states, steps) && k < |states|
    ensures Inv(states[k])
  {
    if k > 0 {
      RunKeepsInv(states, steps, k - 1);
      match steps[k - 1]
      case Tick(to) => TickKeepsInv(states[k - 1], to, states[k]);
      case Happen(i, e) => HappenKeepsInv(states[k - 1], i, e, states[k]);
    }
  }

  lemma ReachableKeepsInv(s: System)
    requires Reachable(s)
    ensures Inv(s)
  {
    var states, steps :| IsRun(states, steps) && states[|steps|] == s;
    RunKeepsInv(states, steps, |steps|);
  }

  // ---------------------------------------------------------------- theorems

  // While the slot is available no worker thread is alive, of this request or of any before it.
  lemma AvailableMeansNoWorker(s: System)
    requires Reachable(s) && s.slot == Available
    ensures forall i | 0 <= i < |s.requests| :: !HasLiveWorker(s.requests[i])
  {
    ReachableKeepsInv(s);
    forall i | 0 <= i < |s.requests| ensures !HasLiveWorker(s.requests[i]) {
      assert SoundRequest(s.requests[i], s.now) && !IsHolding(s.requests[i]) && !Poisoner(s.requests[i]);
    }
  }

  // The slot is busy exactly while one request holds it, and it holds it for at most its timeout
  // and the termination grace.
  lemma OneHolderForABoundedTime(s: System)
    requires Reachable(s)
    ensures s.slot == Busy <==> exists i :: 0 <= i < |s.requests| && IsHolding(s.requests[i])
    ensures forall i, j | 0 <= i < |s.requests| && 0 <= j < |s.requests| && IsHolding(s.requests[i])
            && IsHolding(s.requests[j]) :: i == j
    ensures forall i | 0 <= i < |s.requests| && IsHolding(s.requests[i]) ::
              s.now <= s.requests[i].startedAt + s.requests[i].timeoutMs + TERMINATION_GRACE_MS
  {
    ReachableKeepsInv(s);
  }

  // Whatever races, a run calls `terminate` at most once and settles at most once; a request that
  // has left had each exactly once, and got the verdict of how the run and its thread ended.
  lemma SettlesOnce(s: System, i: nat)
    requires Reachable(s) && i < |s.requests| && s.requests[i].run.Some?
    ensures var r := s.requests[i].run.value;
            && r.terminations <= 1 && r.settlements <= 1
            && (s.requests[i].phase.Released? ==>
                  r.terminations == 1 && r.settlements == 1 && s.requests[i].phase.reply == Verdict(r.fate, r.error))
  {
    ReachableKeepsInv(s);
  }

  // Success is answered only for a result of a worker whose thread is known to be gone.
  lemma SuccessIsEarned(s: System, i: nat)
    requires Reachable(s) && i < |s.requests| && s.requests[i].phase.Released? && s.requests[i].phase.status == 200
    ensures s.requests[i].run.Some? && s.requests[i].run.value.error == None && !s.requests[i].run.value.threadLive
  {
    ReachableKeepsInv(s);
    assert SoundRequest(s.requests[i], s.now);
  }

  // The slot is poisoned exactly when some run's `terminate` threw, failed or timed out.
  lemma PoisonedExactly(s: System)
    requires Reachable(s)
    ensures s.slot == Poisoned <==>
            exists i :: 0 <= i < |s.requests| && s.requests[i].phase.Released? && s.requests[i].run.Some?
                && IsBad(s.requests[i].run.value.fate)
    ensures forall i | 0 <= i < |s.requests| && s.requests[i].run.Some? ::
              s.requests[i].run.value.poisonings == if s.requests[i].run.value.settled.Some?
                  && IsBad(s.requests[i].run.value.fate) then 1 else 0
  {
    ReachableKeepsInv(s);
    assert forall i | 0 <= i < |s.requests| :: SoundRequest(s.requests[i], s.now);
    if s.slot == Poisoned {
      var i :| 0 <= i < |s.requests| && Poisoner(s.requests[i]);
    }
  }

  // Poison is for good: the slot stays poisoned and every later request is turned away with 503.
  lemma PoisonedIsNeverLeft(s: System, step: Step, s': System)
    requires Reachable(s) && Next(s, step, s') && s.slot == Poisoned
    ensures s'.slot == Poisoned
    ensures step.Happen? && step.event.Arrive? ==> s'.requests[step.i].phase == Turned(503)
  {
    ReachableKeepsInv(s);
    if step.Happen? { SlotFollows(s.requests[step.i], step.event, s.now, s.slot); }
  }

  // ---------------------------------------------------------------- time always passes

  // An event that waits for nothing outside the process.
  function Urgent(q: Request, now: int): Option<Event> {
    if q.phase.Ready? then Some(StartWorker(false, false, false))
    else if q.phase.Leaving? || (q.phase.Running? && q.run.Some? && q.run.value.settled.Some?) then Some(Leave(true))
    else if IsDue(q.deadlineTimer, now) then Some(DeadlineFires(false))
    else if q.run.Some? && IsDue(q.run.value.timer, now) then Some(RunTimerFires(false))
    else if q.run.Some? && IsDue(q.run.value.terminationTimer, now) then Some(GraceEnds)
    else None
  }

  // The bound above is not bought by stopping the clock: either a millisecond may pass, or an event
  // can happen that waits for nobody ...
  lemma TimeOrAnEvent(s: System)
    ensures Next(s, Tick(s.now + 1), s.(now := s.now + 1))
            || exists i :: 0 <= i < |s.requests| && Urgent(s.requests[i], s.now).Some?
                           && CanHappen(s.requests[i], Urgent(s.requests[i], s.now).value, s.now)
  {
    if i :| 0 <= i < |s.requests| && !LetsTimePass(s.requests[i], s.now + 1) {
      assert Urgent(s.requests[i], s.now).Some?;
    }
  }

  function Bit(b: bool): nat { if b then 1 else 0 }

  function PhaseRank(phase: Phase): nat {
    match phase
    case Waiting => 20
    case Reading => 14
    case Ready => 12
    case Running => 5
    case Leaving(_) => 2
    case Turned(_) => 0
    case Released(_, _) => 0
  }

  function RunRank(r: Run): nat {
    3 * Bit(!r.finishing) + Bit(r.threadLive) + Bit(r.awaiting) + Bit(r.terminationTimer.Some?)
  }

  function Rank(q: Request): nat {
    PhaseRank(q.phase) + Bit(q.deadlineTimer.Some?) + Bit(!q.aborted) + if q.run.Some? then RunRank(q.run.value) else 0
  }

  lemma EventsCost(q: Request, e: Event, now: int, slot: Slot)
    requires SoundRequest(q, now) && CanHappen(q, e, now)
    ensures Rank(After(q, e, now, slot)) < Rank(q)
  {
  }

  function EventsOf(steps: seq<Step>, i: nat): nat {
    if |steps| == 0 then 0
    else EventsOf(steps[..|steps| - 1], i)
         + match steps[|steps| - 1] case Tick(_) => 0 case Happen(j, _) => Bit(j == i)
  }

  // ... and each request sees a bounded number of events, so every wait for the slot ends.
  lemma {:induction false} EventsAreBounded(states: seq<System>, steps: seq<Step>, i: nat)
    requires IsRun(states, steps) && i < |states[0].requests|
    ensures |states[|steps|].requests| == |states[0].requests|
    ensures EventsOf(steps, i) + Rank(states[|steps|].requests[i]) <= 21
    decreases |steps|
  {
    if |steps| > 0 {
      var n := |steps| - 1;
      assert IsRun(states[..n + 1], steps[..n]) by {
        assert forall k | 0 <= k < n :: steps[..n][k] == steps[k] && states[..n + 1][k + 1] == states[k + 1];
      }
      EventsAreBounded(states[..n + 1], steps[..n], i);
      RunKeepsInv(states, steps, n);
      assert states[..n + 1][n] == states[n] && Next(states[n], steps[n], states[n + 1]);
      match steps[n]
      case Tick(_) =>
      case Happen(j, e) => EventsCost(states[n].requests[j], e, states[n].now, states[n].slot);
    }
  }
}
