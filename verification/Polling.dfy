/**
 * The polling loop (apps/telegram-bot/src/pollingRuntime.ts:113-361, runtimeState.ts:13-47).
 *
 * One process at a time fetches batches and handles them update by update; Telegram, the rate
 * limiter, the queue, the answer, the state file and crashes are events.  Telegram numbers its
 * updates upwards, and getUpdates returns an ascending prefix of those at or above the offset;
 * entries without a valid id may stand between them.
 */
module Polling {
  import opened Wrappers

  const TELEGRAM_DELIVERY_MAX_ATTEMPTS := 3

  // ---------------------------------------------------------------- deliverMessage

  // One attempt: sent, or failed with a status if Telegram answered; whether the signal was aborted
  // when it failed, or at the end of the pause behind it.
  datatype Attempt = Sent | Failed(status: Option<nat>, aborted: bool, abortedInPause: bool)

  datatype Delivery = Delivery(delivered: bool, attempts: nat, aborted: bool)

  predicate IsPermanent(a: Attempt) {
    a.Failed? && a.status.Some? && 400 <= a.status.value <= 499 && a.status.value != 429
  }

  // A failed attempt that is worth another.
  predicate IsRetried(a: Attempt) { a.Failed? && !a.aborted && !IsPermanent(a) && !a.abortedInPause }

  // The attempts as they would come out; only those made are looked at.
  method DeliverMessage(outcomes: seq<Attempt>, abortedAtStart: bool) returns (d: Delivery)
    requires |outcomes| == TELEGRAM_DELIVERY_MAX_ATTEMPTS
    ensures abortedAtStart ==> d == Delivery(false, 0, true)
    ensures !abortedAtStart ==>
              && 1 <= d.attempts <= TELEGRAM_DELIVERY_MAX_ATTEMPTS
              && (forall i | 0 <= i < d.attempts - 1 :: IsRetried(outcomes[i]))
              && (d.delivered <==> outcomes[d.attempts - 1].Sent?)
              && (!d.delivered && !d.aborted ==>
                  IsPermanent(outcomes[d.attempts - 1]) || d.attempts == TELEGRAM_DELIVERY_MAX_ATTEMPTS)
              && (d.aborted ==> outcomes[d.attempts - 1].Failed?
                                && (outcomes[d.attempts - 1].aborted || outcomes[d.attempts - 1].abortedInPause))
  {
    if abortedAtStart { return Delivery(false, 0, true); }
    d := Delivery(false, TELEGRAM_DELIVERY_MAX_ATTEMPTS, false);
    for attempts := 1 to TELEGRAM_DELIVERY_MAX_ATTEMPTS + 1
      invariant forall i | 0 <= i < attempts - 1 :: IsRetried(outcomes[i])
      invariant attempts <= TELEGRAM_DELIVERY_MAX_ATTEMPTS
    {
      var outcome := outcomes[attempts - 1];
      if outcome.Sent? { return Delivery(true, attempts, false); }
      if outcome.aborted { return Delivery(false, attempts, true); }
      if IsPermanent(outcome) || attempts == TELEGRAM_DELIVERY_MAX_ATTEMPTS { return Delivery(false, attempts, false); }
      if outcome.abortedInPause { return Delivery(false, attempts, true); }
    }
  }

  // ---------------------------------------------------------------- updates

  // What the loop makes of an update's content: nothing, a document that is no comparison, a
  // private comparison, or a question.
  datatype Kind = Empty | OtherDocument | Private(chat: string) | Question(chat: string)

  datatype Update = Update(id: nat, kind: Kind)

  datatype Item = Bad | Good(update: Update)

  datatype Disposition = Skipped | Limited | Admitted | RefusedByQueue | Delivered | Abandoned

  function Goods(items: seq<Item>): seq<Update> {
    if |items| == 0 then [] else (if items[0].Good? then [items[0].update] else []) + Goods(items[1..])
  }

  // How many of the updates lie below the offset.
  function First(log: seq<Update>, offset: nat): (k: nat)
    ensures k <= |log| && (k < |log| ==> log[k].id >= offset) && forall i | 0 <= i < k :: log[i].id < offset
  {
    if |log| == 0 || log[0].id >= offset then 0 else 1 + First(log[1..], offset)
  }

  // ---------------------------------------------------------------- the process

  datatype Approval = Approval(updateId: nat, chat: string)

  // Settling: the update is done with, its offset not yet saved; `retry` is the approval the queue's
  // error handler would retain.
  datatype Phase = Idle | InBatch(items: seq<Item>)
      | Settling(update: Update, rest: seq<Item>, retry: Option<Approval>) | Stopped

  // `charged` counts the rate limiter's calls per update in this process; only the theorems look.
  datatype Process = Process(offset: nat, pending: Option<Approval>, phase: Phase, charged: map<nat, nat>)

  // `disposed` remembers how updates were done with.
  datatype System = System(log: seq<Update>, persisted: nat, process: Process, disposed: map<nat, Disposition>)

  datatype Answer = Threw | Aborted | WasSent | GaveUp

  datatype Queue = Unavailable | QueueThrew(aborted: bool) | Answered(admitted: bool)

  datatype Step =
    | Arrive(update: Update)
    | Fetch(items: seq<Item>)
    | HandleBad
    | Handle(allowed: bool, queue: Queue, answer: Answer)
    | Settle(saved: bool)
    | EndBatch
    | Stop
    | Restart

  function Count(charged: map<nat, nat>, id: nat): nat { if id in charged then charged[id] else 0 }

  predicate IsRetained(p: Process, u: Update) {
    u.kind.Private? && p.pending == Some(Approval(u.id, u.kind.chat))
  }

  // Handling one update up to where it is done with (and settles), or is left for later.
  datatype Handled = Done(disposition: Disposition) | Later(stopped: bool)

  function HandledAs(p: Process, u: Update, allowed: bool, queue: Queue, answer: Answer): Handled {
    match u.kind
    case Empty => Done(Skipped)
    case OtherDocument => Done(Skipped)
    case Private(_) =>
      if !IsRetained(p, u) && !allowed then Done(Limited)
      else (match queue
            case Unavailable => Later(false)
            case QueueThrew(aborted) => Later(aborted)
            case Answered(admitted) => Done(if admitted then Admitted else RefusedByQueue))
    case Question(_) =>
      if !allowed then Done(Limited)
      else (match answer
            case Threw => Later(false)
            case Aborted => Later(true)
            case WasSent => Done(Delivered)
            case GaveUp => Done(Abandoned))
  }

  predicate Charges(p: Process, u: Update) { u.kind.Question? || (u.kind.Private? && !IsRetained(p, u)) }

  function ChargedAfter(p: Process, u: Update): map<nat, nat> {
    if Charges(p, u) then p.charged[u.id := Count(p.charged, u.id) + 1] else p.charged
  }

  function PendingAfter(p: Process, u: Update, h: Handled): Option<Approval> {
    match u.kind
    case Empty => p.pending
    case Question(_) => p.pending
    case OtherDocument => None
    case Private(chat) => if h.Later? && !h.stopped then Some(Approval(u.id, chat)) else if h.Later? then p.pending
        else None
  }

  function AfterHandling(p: Process, u: Update, rest: seq<Item>, h: Handled): Process {
    var retry := if u.kind.Private? && h.Done? && h.disposition != Limited then Some(Approval(u.id, u.kind.chat))
        else None;
    Process(p.offset, PendingAfter(p, u, h),
            if h.Done? then Settling(u, rest, retry) else if h.stopped then Stopped else Idle,
            ChargedAfter(p, u))
  }

  // The offset moves in memory even when saving it throws; the error then ends the batch.
  function AfterSettling(p: Process, saved: bool): Process
    requires p.phase.Settling?
  {
    var offset := if p.offset > p.phase.update.id + 1 then p.offset else p.phase.update.id + 1;
    if saved then p.(offset := offset, phase := InBatch(p.phase.rest))
    else p.(offset := offset, phase := Idle, pending := if p.phase.retry.Some? then p.phase.retry else p.pending)
  }

  predicate IsFetched(log: seq<Update>, offset: nat, items: seq<Item>) {
    var k := First(log, offset);
    k + |Goods(items)| <= |log| && Goods(items) == log[k..k + |Goods(items)|]
  }

  predicate Next(s: System, step: Step, s': System) {
    var p := s.process;
    match step
    case Arrive(u) => u.id > 0 && (forall v <- s.log :: v.id < u.id) && s' == s.(log := s.log + [u])
    case Fetch(items) =>
      p.phase == Idle && IsFetched(s.log, p.offset, items) && s' == s.(process := p.(phase := InBatch(items)))
    case EndBatch => p.phase.InBatch? && (|p.phase.items| == 0) && s' == s.(process := p.(phase := Idle))
    case HandleBad =>
      p.phase.InBatch? && |p.phase.items| > 0 && p.phase.items[0] == Bad
      && s' == s.(process := p.(phase := InBatch(p.phase.items[1..])))
    case Handle(allowed, queue, answer) =>
      p.phase.InBatch? && |p.phase.items| > 0 && p.phase.items[0].Good?
      && var u := p.phase.items[0].update;
         var h := HandledAs(p, u, allowed, queue, answer);
         s' == s.(process := AfterHandling(p, u, p.phase.items[1..], h),
                  disposed := if h.Done? then s.disposed[u.id := h.disposition] else s.disposed)
    case Settle(saved) =>
      p.phase.Settling? && var p' := AfterSettling(p, saved);
      s' == s.(process := p', persisted := if saved then p'.offset else s.persisted)
    case Stop => (p.phase == Idle || p.phase.InBatch?) && s' == s.(process := p.(phase := Stopped))
    // The process ends, anywhere, and a new one reads the file.
    case Restart => s' == s.(process := Process(s.persisted, None, Idle, map[]))
  }

  predicate Initial(s: System) {
    s.log == [] && s.persisted == 0 && s.process == Process(0, None, Idle, map[]) && s.disposed == map[]
  }

  ghost predicate IsRun(states: seq<System>, steps: seq<Step>) {
    && |states| == |steps| + 1 && Initial(states[0])
    && forall k | 0 <= k < |steps| :: Next(states[k], steps[k], states[k + 1])
  }

  ghost predicate Reachable(s: System) {
    exists states, steps :: IsRun(states, steps) && states[|steps|] == s
  }

  // ---------------------------------------------------------------- the code, statement by statement

  class PollingLoop {
    var offset: nat
    var pendingPrivateApproval: Option<Approval>
    var persisted: nat

    constructor (saved: nat)
      ensures offset == persisted == saved && pendingPrivateApproval == None
    {
      offset, persisted, pendingPrivateApproval := saved, saved, None;
    }

    // offset = max(offset, next); writeTelegramOffset, which may throw.
    method Advance(updateId: nat, writes: bool) returns (r: Result<()>)
      modifies this`offset, this`persisted
      ensures offset == (if old(offset) > updateId + 1 then old(offset) else updateId + 1)
      ensures r.Ok? <==> writes
      ensures persisted == if writes then offset else old(persisted)
    {
      if updateId + 1 > offset { offset := updateId + 1; }
      if !writes { return Thrown; }
      persisted := offset;
      return Ok(());
    }

    // The branch for a document.  `allowed` is what the rate limiter says when it is asked.
    method HandleDocument(u: Update, allowed: bool, queue: Queue, writes: bool, ghost p: Process, ghost rest: seq<Item>)
      returns (asked: bool, goesOn: bool)
      requires u.kind.Private? || u.kind.OtherDocument?
      requires p.offset == offset && p.pending == pendingPrivateApproval
      modifies this
      ensures asked == Charges(p, u)
      ensures var h := HandledAs(p, u, allowed, queue, Threw);
              var q := AfterHandling(p, u, rest, h);
              var q' := if h.Done? then AfterSettling(q, writes) else q;
              && offset == q'.offset && pendingPrivateApproval == q'.pending
              && (goesOn <==> h.Done? && writes)
              && persisted == if h.Done? && writes then offset else old(persisted)
    {
      asked, goesOn := false, false;
      if u.kind.OtherDocument? {
        pendingPrivateApproval := None;
        var r := Advance(u.id, writes);
        return false, r.Ok?;
      }
      var chat := u.kind.chat;
      var approvalRetained := pendingPrivateApproval == Some(Approval(u.id, chat));
      asked := !approvalRetained;
      if !approvalRetained && !allowed {
        pendingPrivateApproval := None;
        var r := Advance(u.id, writes);
        return asked, r.Ok?;
      }
      match queue {
        case Unavailable => pendingPrivateApproval := Some(Approval(u.id, chat));
        case QueueThrew(aborted) => if !aborted { pendingPrivateApproval := Some(Approval(u.id, chat)); }
        case Answered(_) =>
          pendingPrivateApproval := None;
          var r := Advance(u.id, writes);
          if r.Thrown? { pendingPrivateApproval := Some(Approval(u.id, chat)); }
          goesOn := r.Ok?;
      }
    }
  }

  // ---------------------------------------------------------------- the invariant

  predicate Ascending(log: seq<Update>) {
    forall i, j | 0 <= i < j < |log| :: log[i].id < log[j].id
  }

  // The update the next turn works on, if the batch has one, is the first at or above the offset.
  predicate InOrder(s: System) {
    var p := s.process;
    var k := First(s.log, p.offset);
    match p.phase
    case Idle => true
    case Stopped => true
    case InBatch(items) => k + |Goods(items)| <= |s.log| && Goods(items) == s.log[k..k + |Goods(items)|]
    case Settling(u, rest, _) => k < |s.log| && s.log[k] == u && k + 1 + |Goods(rest)| <= |s.log|
                                 && Goods(rest) == s.log[k + 1..k + 1 + |Goods(rest)|] && u.id in s.disposed
  }

  predicate Covered(s: System) {
    && s.persisted <= s.process.offset
    && (forall u <- s.log :: u.id < s.process.offset ==> u.id in s.disposed)
    && (s.process.offset > 0 ==> |s.log| > 0 && s.process.offset <= s.log[|s.log| - 1].id + 1)
  }

  // A private update that has been charged is behind the offset, or is the very next to be worked
  // on and its approval is retained.
  predicate ChargedOnce(s: System) {
    forall i | 0 <= i < |s.log| && s.log[i].kind.Private? && Count(s.process.charged, s.log[i].id) > 0 ::
      && Count(s.process.charged, s.log[i].id) == 1
      && (s.log[i].id >= s.process.offset ==>
            i == First(s.log, s.process.offset)
            && (IsRetained(s.process, s.log[i]) || s.process.phase.Stopped?
                || (s.process.phase.Settling? && s.process.phase.update == s.log[i])))
  }

  predicate OnlyKnownCharged(s: System) {
    forall id <- s.process.charged :: |s.log| > 0 && id <= s.log[|s.log| - 1].id
  }

  predicate Inv(s: System) {
    Ascending(s.log) && InOrder(s) && Covered(s) && ChargedOnce(s) && OnlyKnownCharged(s)
  }

  lemma {:induction false} FirstIs(log: seq<Update>, offset: nat, k: nat)
    requires k <= |log| && (k < |log| ==> log[k].id >= offset) && forall i | 0 <= i < k :: log[i].id < offset
    ensures First(log, offset) == k
  {
    var f := First(log, offset);
    if f < |log| { assert log[f].id >= offset; }
    if k < |log| { assert log[k].id >= offset; }
  }

  lemma {:induction false} ArriveKeepsFirst(s: System, u: Update)
    requires forall v <- s.log :: v.id < u.id
    requires Covered(s)
    ensures First(s.log + [u], s.process.offset) == First(s.log, s.process.offset)
  {
    var k := First(s.log, s.process.offset);
    FirstIs(s.log + [u], s.process.offset, k);
  }

  lemma {:induction false} ArriveKeepsCharges(s: System, u: Update, s': System)
    requires ChargedOnce(s) && OnlyKnownCharged(s) && s' == s.(log := s.log + [u]) && forall v <- s.log :: v.id < u.id
    requires First(s'.log, s.process.offset) == First(s.log, s.process.offset)
    ensures ChargedOnce(s') && OnlyKnownCharged(s')
  {
    hide First, IsRetained;
    assert |s.log| > 0 ==> s.log[|s.log| - 1] in s.log;
    assert Count(s.process.charged, u.id) == 0;
    assert forall i | 0 <= i < |s.log| :: s'.log[i] == s.log[i];
  }

  lemma {:induction false} ArriveKeepsOrder(s: System, u: Update, s': System)
    requires InOrder(s) && s' == s.(log := s.log + [u])
    requires First(s'.log, s.process.offset) == First(s.log, s.process.offset)
    ensures InOrder(s')
  {
    hide First, Goods;
    var k := First(s.log, s.process.offset);
    match s.process.phase
    case InBatch(items) => assert s'.log[k..k + |Goods(items)|] == s.log[k..k + |Goods(items)|];
    case Settling(_, rest, _) => assert s'.log[k + 1..k + 1 + |Goods(rest)|] == s.log[k + 1..k + 1 + |Goods(rest)|];
    case _ =>
  }

  lemma {:induction false} ArriveKeepsCover(s: System, u: Update, s': System)
    requires Covered(s) && Ascending(s.log) && s' == s.(log := s.log + [u]) && forall v <- s.log :: v.id < u.id
    ensures Covered(s') && Ascending(s'.log)
  {
    if |s.log| > 0 { assert s.log[|s.log| - 1] in s.log; }
  }

  lemma {:induction false} ArriveKeepsInv(s: System, u: Update, s': System)
    requires Inv(s) && Next(s, Arrive(u), s')
    ensures Inv(s')
  {
    hide First, ChargedOnce, OnlyKnownCharged, Covered, InOrder, Ascending;
    ArriveKeepsFirst(s, u);
    ArriveKeepsCharges(s, u, s');
    ArriveKeepsOrder(s, u, s');
    ArriveKeepsCover(s, u, s');
  }

  lemma {:induction false} NextIsFirst(s: System)
    requires Inv(s) && s.process.phase.InBatch? && |s.process.phase.items| > 0 && s.process.phase.items[0].Good?
    ensures var k := First(s.log, s.process.offset);
            var items := s.process.phase.items;
            && k < |s.log| && s.log[k] == items[0].update && k + 1 + |Goods(items[1..])| <= |s.log|
            && Goods(items[1..]) == s.log[k + 1..k + 1 + |Goods(items[1..])|]
  {
    var items := s.process.phase.items;
    var k := First(s.log, s.process.offset);
    var goods := Goods(items);
    assert goods[0] == items[0].update && goods[1..] == Goods(items[1..]);
    assert goods[1..] == s.log[k..k + |goods|][1..];
  }

  lemma {:induction false} HandleKeepsCharges(s: System, k: nat, allowed: bool, queue: Queue, answer: Answer,
                                              s': System)
    requires Ascending(s.log) && ChargedOnce(s) && OnlyKnownCharged(s) && k == First(s.log, s.process.offset)
             && k < |s.log|
    requires Next(s, Handle(allowed, queue, answer), s') && s.process.phase.items[0].update == s.log[k]
    ensures ChargedOnce(s') && OnlyKnownCharged(s')
  {
    hide First, Goods;
    var u := s.log[k];
    forall i | 0 <= i < |s.log| && s.log[i].kind.Private? && Count(s'.process.charged, s.log[i].id) > 0
      ensures Count(s'.process.charged, s.log[i].id) == 1
      ensures s.log[i].id >= s.process.offset ==>
                i == k && (IsRetained(s'.process, s.log[i]) || s'.process.phase.Stopped?
                           || (s'.process.phase.Settling? && s'.process.phase.update == s.log[i]))
    {
      if i != k { assert s.log[i].id != u.id; }
    }
  }

  lemma {:induction false} HandleKeepsInv(s: System, allowed: bool, queue: Queue, answer: Answer, s': System)
    requires Inv(s) && Next(s, Handle(allowed, queue, answer), s')
    ensures Inv(s')
  {
    hide First, Goods, ChargedOnce, OnlyKnownCharged;
    NextIsFirst(s);
    HandleKeepsCharges(s, First(s.log, s.process.offset), allowed, queue, answer, s');
  }

  lemma {:induction false} SettledOffset(s: System, saved: bool, s': System)
    requires Ascending(s.log) && InOrder(s) && Next(s, Settle(saved), s')
    ensures var k := First(s.log, s.process.offset);
            && k < |s.log| && s.log[k] == s.process.phase.update
            && s'.process.offset == s.log[k].id + 1 > s.process.offset
            && First(s'.log, s'.process.offset) == k + 1
  {
    hide Goods;
    var k := First(s.log, s.process.offset);
    FirstIs(s.log, s.log[k].id + 1, k + 1);
  }

  lemma {:induction false} SettleKeepsCharges(s: System, saved: bool, s': System)
    requires Ascending(s.log) && ChargedOnce(s) && OnlyKnownCharged(s) && Next(s, Settle(saved), s')
    requires var k := First(s.log, s.process.offset);
             k < |s.log| && s'.process.offset == s.log[k].id + 1 > s.process.offset
    ensures ChargedOnce(s') && OnlyKnownCharged(s')
  {
    hide First, IsRetained;
  }

  lemma {:induction false} SettleKeepsInv(s: System, saved: bool, s': System)
    requires Inv(s) && Next(s, Settle(saved), s')
    ensures Inv(s')
  {
    hide First, Goods, ChargedOnce, OnlyKnownCharged;
    SettledOffset(s, saved, s');
    SettleKeepsCharges(s, saved, s');
    SettleKeepsCover(s, saved, s');
  }

  lemma {:induction false} SettleKeepsCover(s: System, saved: bool, s': System)
    requires Ascending(s.log) && Covered(s) && InOrder(s) && Next(s, Settle(saved), s')
    requires s'.process.offset == s.process.phase.update.id + 1 > s.process.offset
    ensures Covered(s')
  {
    hide Goods;
    var k := First(s.log, s.process.offset);
    forall u | u in s.log && u.id < s'.process.offset ensures u.id in s'.disposed {
      var i :| 0 <= i < |s.log| && s.log[i] == u;
      assert i <= k;
    }
  }

  lemma {:induction false} QuietKeepsInv(s: System, step: Step, s': System)
    requires Inv(s) && Next(s, step, s')
             && (step.Fetch? || step.EndBatch? || step.HandleBad? || step.Stop? || step.Restart?)
    ensures Inv(s')
  {
    hide First, Goods, ChargedOnce, OnlyKnownCharged, Covered;
    if step.Restart? {
      RestartKeepsInv(s, s');
    } else {
      SameCharges(s, s');
      if step.HandleBad? { DropBad(s.process.phase.items); }
    }
  }

  lemma {:induction false} DropBad(items: seq<Item>)
    requires |items| > 0 && items[0] == Bad
    ensures Goods(items[1..]) == Goods(items)
  {
  }

  // A step that moves only the phase, and not out of a settling one.
  lemma {:induction false} SameCharges(s: System, s': System)
    requires Covered(s) && ChargedOnce(s) && OnlyKnownCharged(s)
             && s' == s.(process := s.process.(phase := s'.process.phase))
    requires !s.process.phase.Settling? && (s.process.phase.Stopped? ==> s'.process.phase.Stopped?)
    ensures Covered(s') && ChargedOnce(s') && OnlyKnownCharged(s')
  {
    hide First;
  }

  lemma {:induction false} RestartKeepsInv(s: System, s': System)
    requires Inv(s) && Next(s, Restart, s')
    ensures Inv(s')
  {
    hide First, Goods;
  }

  lemma {:induction false} NextKeepsInv(s: System, step: Step, s': System)
    requires Inv(s) && Next(s, step, s')
    ensures Inv(s')
  {
    hide Inv, Next;
    match step
    case Arrive(u) => ArriveKeepsInv(s, u, s');
    case Handle(allowed, queue, answer) => HandleKeepsInv(s, allowed, queue, answer, s');
    case Settle(saved) => SettleKeepsInv(s, saved, s');
    case _ => QuietKeepsInv(s, step, s');
  }

  lemma {:induction false} RunKeepsInv(states: seq<System>, steps: seq<Step>, k: nat)
    requires IsRun(states, steps) && k < |states|
    ensures Inv(states[k])
  {
    hide Next;
    if k == 0 {
      StartsSound(states[0]);
    } else {
      RunKeepsInv(states, steps, k - 1);
      NextKeepsInv(states[k - 1], steps[k - 1], states[k]);
    }
  }

  lemma {:induction false} StartsSound(s: System)
    requires Initial(s)
    ensures Inv(s)
  {
  }

  // ---------------------------------------------------------------- theorems

  // Every update below the saved offset was skipped, limited, admitted or refused by the queue, or
  // its answer was delivered or given up; a restart loses none.
  lemma {:induction false} SavedMeansDone(s: System)
    requires Reachable(s)
    ensures forall u <- s.log :: u.id < s.persisted ==> u.id in s.disposed
    ensures s.persisted <= s.process.offset && forall u <- s.log :: u.id < s.process.offset ==> u.id in s.disposed
  {
    var states, steps :| IsRun(states, steps) && states[|steps|] == s;
    RunKeepsInv(states, steps, |steps|);
  }

  // The saved offset never goes back, over restarts too; the one in memory never within a process.
  lemma {:induction false} OffsetsOnlyGrow(s: System, step: Step, s': System)
    requires Reachable(s) && Next(s, step, s')
    ensures s.persisted <= s'.persisted
    ensures !step.Restart? ==> s.process.offset <= s'.process.offset
  {
    var states, steps :| IsRun(states, steps) && states[|steps|] == s;
    RunKeepsInv(states, steps, |steps|);
  }

  // Within one process the rate limiter is asked at most once for a private update, however often
  // its enqueue fails.
  lemma {:induction false} PrivateUpdatesAreChargedOnce(s: System, u: Update)
    requires Reachable(s) && u in s.log && u.kind.Private?
    ensures Count(s.process.charged, u.id) <= 1
  {
    var states, steps :| IsRun(states, steps) && states[|steps|] == s;
    RunKeepsInv(states, steps, |steps|);
    var i :| 0 <= i < |s.log| && s.log[i] == u;
  }
}
