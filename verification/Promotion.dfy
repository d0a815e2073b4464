/**
 * Knowledge promotion (apps/telegram-bot/src/knowledgePromotionServer.ts:53-211,
 * packages/cardano-agent/src/knowledge/promotionAudit.ts:127-203 and the clock window of
 * apps/telegram-bot/src/knowledgePromotionProtocol.ts:173-177).
 *
 * Any number of handlers serve signed messages, replays included; other handlers, the pruning of
 * old rows, and a crash of the process may come between any two awaits.
 */
module Promotion {
  import opened Wrappers

  const CLOCK_SKEW_SECONDS := 60
  const RETENTION_MS := 30 * 24 * 60 * 60 * 1000
  const PRUNE_INTERVAL_MS := 60 * 60 * 1000
  const PRUNE_BATCH := 1000

  // What a replay may take from passing the clock check to claiming its row.
  const MAX_CLAIM_DELAY_MS := RETENTION_MS - (2 * CLOCK_SKEW_SECONDS + 1) * 1000

  datatype Outcome = Promoted | NoMatch | Busy | Timeout | UpstreamFailed | InvalidAuthenticatedRequest

  function StatusForOutcome(o: Outcome): nat {
    match o
    case Promoted => 204
    case NoMatch => 204
    case InvalidAuthenticatedRequest => 400
    case _ => 503
  }

  // A signed message: everything below is covered by its signature.
  datatype Message = Message(requestId: string, nonce: string, timestamp: nat, validBody: bool)

  // ---------------------------------------------------------------- the audit table

  datatype RowState = Started | Completed(outcome: Outcome)
  datatype Row = Row(nonce: string, state: RowState, receivedAt: int)
  type Rows = map<string, Row>

  datatype Claim = Claimed | Running | Conflict | CompletedBefore(outcome: Outcome)

  function Conflicting(rows: Rows, m: Message): set<string> {
    set id | id in rows && (id == m.requestId || rows[id].nonce == m.nonce)
  }

  function ClaimResult(rows: Rows, m: Message): Claim {
    if Conflicting(rows, m) == {} then Claimed
    else if Conflicting(rows, m) != {m.requestId} || rows[m.requestId].nonce != m.nonce then Conflict
    else match rows[m.requestId].state
         case Started => Running
         case Completed(o) => CompletedBefore(o)
  }

  function RowsAfterClaim(rows: Rows, m: Message, now: int): Rows {
    if ClaimResult(rows, m) == Claimed then rows[m.requestId := Row(m.nonce, Started, now)] else rows
  }

  predicate CanComplete(rows: Rows, requestId: string) {
    requestId in rows && rows[requestId].state == Started
  }

  function RowsAfterComplete(rows: Rows, requestId: string, o: Outcome): Rows
    requires requestId in rows
  {
    rows[requestId := rows[requestId].(state := Completed(o))]
  }

  predicate IsExpired(rows: Rows, id: string, date: int) {
    id in rows && rows[id].receivedAt < date - RETENTION_MS
  }

  // One DELETE ... ORDER BY received_at LIMIT 1000: expired rows only, the oldest first.
  ghost predicate IsPruneBatch(rows: Rows, date: int, victims: set<string>) {
    && |victims| <= PRUNE_BATCH
    && (forall id <- victims :: IsExpired(rows, id, date))
    && (forall id | IsExpired(rows, id, date) && id !in victims ::
          |victims| == PRUNE_BATCH && forall v <- victims :: rows[v].receivedAt <= rows[id].receivedAt)
  }

  class PromotionAuditRepository {
    var rows: Rows

    constructor ()
      ensures rows == map[]
    {
      rows := map[];
    }

    method Claim(m: Message, now: int) returns (claim: Claim)
      modifies this
      ensures claim == ClaimResult(old(rows), m) && rows == RowsAfterClaim(old(rows), m, now)
    {
      if m.requestId !in rows && !(exists id | id in rows :: rows[id].nonce == m.nonce) {
        assert Conflicting(rows, m) == {};
        rows := rows[m.requestId := Row(m.nonce, Started, now)];
        return Claimed;
      }
      var conflicts := set id | id in rows && (id == m.requestId || rows[id].nonce == m.nonce);
      assert conflicts == Conflicting(rows, m);
      assert conflicts != {} by {
        if m.requestId in rows {
          assert m.requestId in conflicts;
        } else {
          var other :| other in rows && rows[other].nonce == m.nonce;
          assert other in conflicts;
        }
      }
      if |conflicts| != 1 {
        assert conflicts != {m.requestId};
        return Conflict;
      }
      var id :| id in conflicts;
      assert conflicts == {id} by { assert |conflicts - {id}| == 0; }
      assert Conflicting(rows, m) == {id};
      if id != m.requestId || rows[id].nonce != m.nonce { return Conflict; }
      if rows[id].state == Started { return Running; }
      return CompletedBefore(rows[id].state.outcome);
    }

    method Complete(requestId: string, outcome: Outcome) returns (r: Result<()>)
      modifies this
      ensures r.Ok? <==> CanComplete(old(rows), requestId)
      ensures rows == if r.Ok? then RowsAfterComplete(old(rows), requestId, outcome) else old(rows)
    {
      if requestId !in rows || rows[requestId].state != Started { return Thrown; }
      rows := rows[requestId := rows[requestId].(state := Completed(outcome))];
      return Ok(());
    }

    method Prune(date: int) returns (victims: set<string>)
      modifies this
      ensures IsPruneBatch(old(rows), date, victims) && rows == old(rows) - victims
    {
      victims := {};
      var left := set id | id in rows && rows[id].receivedAt < date - RETENTION_MS;
      while left != {} && |victims| < PRUNE_BATCH
        invariant rows == old(rows)
        invariant |victims| <= PRUNE_BATCH && victims !! left && victims + left <= rows.Keys
        invariant forall id :: id in victims + left <==> IsExpired(rows, id, date)
        invariant forall v, id | v in victims && id in left :: rows[v].receivedAt <= rows[id].receivedAt
        decreases left
      {
        var oldest := Oldest(left);
        victims := victims + {oldest};
        left := left - {oldest};
      }
      assert forall id | IsExpired(rows, id, date) && id !in victims :: id in left;
      rows := rows - victims;
    }

    method Oldest(ids: set<string>) returns (oldest: string)
      requires ids != {} && ids <= rows.Keys
      ensures oldest in ids && forall id <- ids :: rows[oldest].receivedAt <= rows[id].receivedAt
    {
      oldest :| oldest in ids;
      var rest := ids - {oldest};
      while rest != {}
        invariant rest <= ids && oldest in ids
        invariant forall id <- ids - rest :: rows[oldest].receivedAt <= rows[id].receivedAt
        decreases rest
      {
        var id :| id in rest;
        if rows[id].receivedAt < rows[oldest].receivedAt { oldest := id; }
        rest := rest - {id};
      }
    }
  }

  // ---------------------------------------------------------------- handlers

  datatype Via = ByClock | ByClaimError | ByReplay | ByRefusal | ByOwner

  datatype Phase =
    | Arrived
    | Authenticated(at: int)
    | Owning
    | FinishingInvalid
    | FinishingBusy
    | Promoting
    | FinishingSuccess(outcome: Outcome)
    | FinishingFailure(outcome: Outcome)
    | Answered(status: nat, via: Via)
    | Dead

  // A handler authenticates against the clock, claims an audit row, decides, may call `promote`, and
  // completes its row.  `owner` and `promoted` remember that the handler got the claim and that it called `promote`.
  datatype Handler = Handler(message: Message, phase: Phase, owner: bool, promoted: bool)

  // Times are milliseconds of one clock; message timestamps are seconds.
  // `claimedAt`, `recorded` and `calls` are history: when each message was claimed, the outcome
  // stored for it, and the messages `promote` was called for.
  datatype System = System(now: int, rows: Rows, handlers: seq<Handler>, active: bool, nextPruneAt: int,
                           prunes: set<int>,
                           claimedAt: map<Message, int>, recorded: map<Message, Outcome>, calls: seq<Message>)

  datatype Step =
    | Tick(to: int)
    | Authenticate(h: nat)
    | ClaimRow(h: nat)
    | ClaimThrows(h: nat)
    | Decide(h: nat, aborted: bool)
    | PromoteEnds(h: nat, result: Option<Outcome>, aborted: bool)
    | Complete(h: nat, works: bool, aborted: bool)
    | Prune(date: int, victims: set<string>)
    | CrashProcess

  predicate WithinSkew(now: int, timestamp: nat) {
    -CLOCK_SKEW_SECONDS <= now / 1000 - timestamp <= CLOCK_SKEW_SECONDS
  }

  predicate InFlight(h: Handler) {
    h.phase.Promoting? || h.phase.FinishingSuccess? || h.phase.FinishingFailure?
  }

  predicate IsFinishing(h: Handler) {
    h.phase.FinishingInvalid? || h.phase.FinishingBusy? || h.phase.FinishingSuccess? || h.phase.FinishingFailure?
  }

  function OutcomeOf(h: Handler): Outcome
    requires IsFinishing(h)
  {
    match h.phase
    case FinishingInvalid => InvalidAuthenticatedRequest
    case FinishingBusy => Busy
    case FinishingSuccess(o) => o
    case FinishingFailure(o) => o
  }

  function FailureOutcome(aborted: bool): Outcome { if aborted then Timeout else UpstreamFailed }

  function Put(s: System, h: nat, phase: Phase): System
    requires h < |s.handlers|
  {
    s.(handlers := s.handlers[h := s.handlers[h].(phase := phase)])
  }

  // A crash ends the handlers that run.  Messages yet to arrive, replays among them, meet the process
  // restarted behind it, with no flight and no pruning in hand but the rows as they were left.
  function Killed(h: Handler): Handler { if h.phase.Answered? || h.phase.Arrived? then h else h.(phase := Dead) }

  predicate Initial(s: System) {
    && s.rows == map[] && !s.active && s.prunes == {} && s.claimedAt == map[] && s.recorded == map[] && s.calls == []
    && forall i | 0 <= i < |s.handlers| ::
       s.handlers[i].phase == Arrived && !s.handlers[i].owner && !s.handlers[i].promoted
  }

  function AfterClaim(s: System, h: nat): System
    requires h < |s.handlers|
  {
    var m := s.handlers[h].message;
    match ClaimResult(s.rows, m)
    case Claimed =>
      s.(rows := RowsAfterClaim(s.rows, m, s.now), claimedAt := s.claimedAt[m := s.now],
         handlers := s.handlers[h := s.handlers[h].(phase := Owning, owner := true)])
    case Running => Put(s, h, Answered(409, ByRefusal))
    case Conflict => Put(s, h, Answered(409, ByRefusal))
    case CompletedBefore(o) => Put(s, h, Answered(StatusForOutcome(o), ByReplay))
  }

  // maybePrune only schedules the deletion; the date it will use is read here.
  function AfterMaybePrune(s: System): System {
    if s.now < s.nextPruneAt then s
    else s.(nextPruneAt := s.now + PRUNE_INTERVAL_MS, prunes := s.prunes + {s.now})
  }

  function AfterDecide(s0: System, h: nat, aborted: bool): System
    requires h < |s0.handlers|
  {
    var s := AfterMaybePrune(s0);
    var m := s.handlers[h].message;
    if !m.validBody then Put(s, h, FinishingInvalid)
    else if s.active then Put(s, h, FinishingBusy)
    else if aborted then Put(s, h, FinishingFailure(Timeout)).(active := true)
    else s.(active := true, calls := s.calls + [m],
            handlers := s.handlers[h := s.handlers[h].(phase := Promoting, promoted := true)])
  }

  // `complete` either applies or throws without effect.
  predicate Applies(s: System, h: nat, works: bool)
    requires h < |s.handlers|
  {
    works && CanComplete(s.rows, s.handlers[h].message.requestId)
  }

  function Recorded(s: System, h: nat): System
    requires h < |s.handlers| && IsFinishing(s.handlers[h]) && CanComplete(s.rows, s.handlers[h].message.requestId)
  {
    var m, o := s.handlers[h].message, OutcomeOf(s.handlers[h]);
    s.(rows := RowsAfterComplete(s.rows, m.requestId, o), recorded := s.recorded[m := o])
  }

  // A failed `complete` of a success goes on to record a failure instead.
  function PhaseAfter(h: Handler, applied: bool, aborted: bool): Phase
    requires IsFinishing(h)
  {
    match h.phase
    case FinishingInvalid => Answered(if applied then 400 else 503, ByOwner)
    case FinishingBusy => Answered(503, ByOwner)
    case FinishingSuccess(_) => if applied then Answered(204, ByOwner) else FinishingFailure(FailureOutcome(aborted))
    case FinishingFailure(_) => Answered(503, ByOwner)
  }

  function AfterComplete(s: System, h: nat, works: bool, aborted: bool): System
    requires h < |s.handlers| && IsFinishing(s.handlers[h])
  {
    var phase := PhaseAfter(s.handlers[h], Applies(s, h, works), aborted);
    var lands := InFlight(s.handlers[h]) && phase.Answered?;
    Put(if Applies(s, h, works) then Recorded(s, h) else s, h, phase).(active := s.active && !lands)
  }

  ghost predicate Next(s: System, step: Step, s': System) {
    match step
    case Tick(to) => s.now <= to && s' == s.(now := to)
    case Authenticate(h) =>
      h < |s.handlers| && s.handlers[h].phase.Arrived?
      && s' == Put(s, h, if WithinSkew(s.now, s.handlers[h].message.timestamp) then Authenticated(s.now)
                   else Answered(401, ByClock))
    case ClaimRow(h) =>
      h < |s.handlers| && s.handlers[h].phase.Authenticated? && s.now <= s.handlers[h].phase.at + MAX_CLAIM_DELAY_MS
      && s' == AfterClaim(s, h)
    case ClaimThrows(h) =>
      h < |s.handlers| && s.handlers[h].phase.Authenticated? && s' == Put(s, h, Answered(503, ByClaimError))
    case Decide(h, aborted) =>
      h < |s.handlers| && s.handlers[h].phase.Owning? && s' == AfterDecide(s, h, aborted)
    case PromoteEnds(h, result, aborted) =>
      h < |s.handlers| && s.handlers[h].phase.Promoting?
      && (result.Some? ==> result.value == Promoted || result.value == NoMatch)
      && s' == Put(s, h, if result.Some? && !aborted then FinishingSuccess(result.value)
                   else FinishingFailure(FailureOutcome(aborted)))
    case Complete(h, works, aborted) =>
      h < |s.handlers| && IsFinishing(s.handlers[h]) && s' == AfterComplete(s, h, works, aborted)
    case Prune(date, victims) =>
      date in s.prunes && IsPruneBatch(s.rows, date, victims)
          && s' == s.(rows := s.rows - victims, prunes := s.prunes - {date})
    case CrashProcess =>
      s' == s.(handlers := seq(|s.handlers|, i requires 0 <= i < |s.handlers| => Killed(s.handlers[i])),
               active := false, nextPruneAt := 0, prunes := {})
  }

  ghost predicate IsRun(states: seq<System>, steps: seq<Step>) {
    && |states| == |steps| + 1 && Initial(states[0])
    && forall k | 0 <= k < |steps| :: Next(states[k], steps[k], states[k + 1])
  }

  ghost predicate Reachable(s: System) {
    exists states, steps :: IsRun(states, steps) && states[|steps|] == s
  }

  // ---------------------------------------------------------------- invariant: claims and calls

  // Either the row of a claimed message is still there, or it is too late to claim it again.
  ghost predicate Protected(s: System, m: Message) {
    && m in s.claimedAt
    && (m.timestamp as int - CLOCK_SKEW_SECONDS) * 1000 <= s.claimedAt[m] <= s.now
    && ((m.requestId in s.rows && s.rows[m.requestId].nonce == m.nonce
         && s.rows[m.requestId].receivedAt == s.claimedAt[m])
        || s.now > s.claimedAt[m] + RETENTION_MS)
  }

  ghost predicate AllProtected(s: System) {
    forall m <- s.claimedAt :: Protected(s, m)
  }

  ghost predicate SoundHandler(s: System, h: Handler) {
    && (h.phase.Authenticated? ==> h.phase.at <= s.now && WithinSkew(h.phase.at, h.message.timestamp))
    && (h.phase.Arrived? || h.phase.Authenticated? ==> !h.owner)
    && (h.phase.Owning? || IsFinishing(h) || InFlight(h) ==> h.owner)
    && (h.phase.Owning? || h.phase.FinishingInvalid? || h.phase.FinishingBusy? ==> !h.promoted)
    && (h.phase.Promoting? || h.phase.FinishingSuccess? ==> h.promoted)
    && (h.owner ==> h.message in s.claimedAt)
    && (h.promoted ==> h.owner && h.message in s.calls)
    && (h.owner && h.message in s.calls ==> h.promoted)
    && (h.phase.FinishingSuccess? ==> h.phase.outcome == Promoted || h.phase.outcome == NoMatch)
    && (h.phase.FinishingFailure? ==> h.phase.outcome == Timeout || h.phase.outcome == UpstreamFailed)
  }

  ghost predicate SoundHandlers(s: System) {
    forall i | 0 <= i < |s.handlers| :: SoundHandler(s, s.handlers[i])
  }

  ghost predicate OneOwner(s: System) {
    forall i, j | 0 <= i < |s.handlers| && 0 <= j < |s.handlers| && s.handlers[i].owner && s.handlers[j].owner
                  && s.handlers[i].message == s.handlers[j].message :: i == j
  }

  ghost predicate SingleFlight(s: System) {
    && (forall i, j | 0 <= i < |s.handlers| && 0 <= j < |s.handlers| && InFlight(s.handlers[i])
        && InFlight(s.handlers[j]) :: i == j)
    && (s.active <==> exists i :: 0 <= i < |s.handlers| && InFlight(s.handlers[i]))
  }

  ghost predicate DistinctCalls(s: System) {
    && (forall a, b | 0 <= a < b < |s.calls| :: s.calls[a] != s.calls[b])
    && (forall m <- s.calls :: m in s.claimedAt)
  }

  ghost predicate Inv(s: System) {
    && (forall date <- s.prunes :: date <= s.now)
    && AllProtected(s) && SoundHandlers(s) && OneOwner(s) && SingleFlight(s) && DistinctCalls(s)
  }

  // Rows outlive the signature window: a message that was claimed once is never claimed again.
  lemma ClaimedOnce(s: System, h: nat)
    requires Inv(s) && h < |s.handlers| && s.handlers[h].phase.Authenticated?
    requires s.now <= s.handlers[h].phase.at + MAX_CLAIM_DELAY_MS
    requires s.handlers[h].message in s.claimedAt
    ensures var m := s.handlers[h].message;
            && m.requestId in s.rows && s.rows[m.requestId].nonce == m.nonce
            && s.rows[m.requestId].receivedAt == s.claimedAt[m]
            && ClaimResult(s.rows, m) != Claimed
  {
    var m := s.handlers[h].message;
    assert Protected(s, m) && SoundHandler(s, s.handlers[h]);
    assert s.handlers[h].phase.at < (m.timestamp as int + CLOCK_SKEW_SECONDS + 1) * 1000;
    assert m.requestId in Conflicting(s.rows, m);
  }

  lemma HandlersFrame(s: System, s': System, h: nat)
    requires SoundHandlers(s) && OneOwner(s) && h < |s.handlers| && |s'.handlers| == |s.handlers| && s'.now == s.now
    requires s'.handlers == s.handlers[h := s'.handlers[h]] && s'.handlers[h].message == s.handlers[h].message
    requires forall m <- s.claimedAt :: m in s'.claimedAt
    requires s'.calls == s.calls || (s'.calls == s.calls + [s.handlers[h].message] && s.handlers[h].owner)
    requires SoundHandler(s', s'.handlers[h])
    ensures SoundHandlers(s')
  {
    forall i | 0 <= i < |s'.handlers| ensures SoundHandler(s', s'.handlers[i]) {
      if i != h { assert SoundHandler(s, s.handlers[i]); }
    }
  }

  lemma ProtectedFrame(s: System, s': System)
    requires AllProtected(s) && s'.claimedAt == s.claimedAt && s.now <= s'.now
    requires forall id <- s.rows :: id in s'.rows && s'.rows[id].nonce == s.rows[id].nonce
                                    && s'.rows[id].receivedAt == s.rows[id].receivedAt
    ensures AllProtected(s')
  {
    forall m | m in s'.claimedAt ensures Protected(s', m) { assert Protected(s, m); }
  }

  // A step of one handler that keeps its owner and flight marks.
  lemma PutKeepsInv(s: System, h: nat, phase: Phase)
    requires Inv(s) && h < |s.handlers|
    requires SoundHandler(s, s.handlers[h].(phase := phase))
             && InFlight(s.handlers[h].(phase := phase)) == InFlight(s.handlers[h])
    ensures Inv(Put(s, h, phase))
  {
    var s' := Put(s, h, phase);
    HandlersFrame(s, s', h);
    forall m | m in s'.claimedAt ensures Protected(s', m) { assert Protected(s, m); }
    FlightsFrame(s, s', h);
  }

  lemma FlightsFrame(s: System, s': System, h: nat)
    requires SingleFlight(s) && h < |s.handlers| && |s'.handlers| == |s.handlers|
    requires s'.handlers == s.handlers[h := s'.handlers[h]] && InFlight(s'.handlers[h]) == InFlight(s.handlers[h])
             && s'.active == s.active
    ensures SingleFlight(s')
  {
    assert forall i | 0 <= i < |s.handlers| :: InFlight(s'.handlers[i]) == InFlight(s.handlers[i]);
  }

  lemma ClaimKeepsInv(s: System, h: nat, s': System)
    requires Inv(s) && Next(s, ClaimRow(h), s')
    ensures Inv(s')
  {
    var m := s.handlers[h].message;
    assert SoundHandler(s, s.handlers[h]);
    if ClaimResult(s.rows, m) == Claimed {
      if m in s.claimedAt { ClaimedOnce(s, h); }
      HandlersFrame(s, s', h);
      forall k | k in s'.claimedAt ensures Protected(s', k) {
        if k != m {
          assert Protected(s, k);
          if k.requestId == m.requestId && k.requestId in s.rows { assert m.requestId in Conflicting(s.rows, m); }
        }
      }
      OneMoreOwner(s, s', h);
      FlightsFrame(s, s', h);
    } else {
      PutKeepsInv(s, h, s'.handlers[h].phase);
    }
  }

  lemma OneMoreOwner(s: System, s': System, h: nat)
    requires Inv(s) && h < |s.handlers| && |s'.handlers| == |s.handlers|
    requires s'.handlers == s.handlers[h := s'.handlers[h]] && s'.handlers[h].message == s.handlers[h].message
    requires s.handlers[h].message !in s.claimedAt
    ensures OneOwner(s')
  {
    forall i | 0 <= i < |s.handlers| && s.handlers[i].owner ensures s.handlers[i].message != s.handlers[h].message {
      assert SoundHandler(s, s.handlers[i]);
    }
  }

  lemma DecideKeepsInv(s: System, h: nat, aborted: bool, s': System)
    requires Inv(s) && Next(s, Decide(h, aborted), s')
    ensures Inv(s')
  {
    hide Inv, SoundHandlers, AfterMaybePrune;
    OwningIsSound(s, h);
    PlanningKeepsInv(s);
    var s1 := AfterMaybePrune(s);
    if !s1.handlers[h].message.validBody || s1.active {
      PutKeepsInv(s1, h, s'.handlers[h].phase);
    } else {
      TakeOffKeepsInv(s1, h, s');
    }
  }

  lemma OwningIsSound(s: System, h: nat)
    requires Inv(s) && h < |s.handlers| && s.handlers[h].phase.Owning?
    ensures SoundHandler(AfterMaybePrune(s), AfterMaybePrune(s).handlers[h])
    ensures AfterMaybePrune(s).handlers == s.handlers
  {
    assert SoundHandler(s, s.handlers[h]);
  }

  lemma PlanningKeepsInv(s: System)
    requires Inv(s)
    ensures Inv(AfterMaybePrune(s))
  {
    var s1 := AfterMaybePrune(s);
    ProtectedFrame(s, s1);
    forall i | 0 <= i < |s1.handlers| ensures SoundHandler(s1, s1.handlers[i]) {
      assert SoundHandler(s, s.handlers[i]);
    }
    assert forall i | 0 <= i < |s.handlers| :: InFlight(s1.handlers[i]) == InFlight(s.handlers[i]);
  }

  lemma TakeOffKeepsInv(s: System, h: nat, s': System)
    requires Inv(s) && h < |s.handlers| && s.handlers[h].phase.Owning? && !s.active
    requires s' == Put(s, h, FinishingFailure(Timeout)).(active := true)
             || s' == s.(active := true, calls := s.calls + [s.handlers[h].message],
                         handlers := s.handlers[h := s.handlers[h].(phase := Promoting, promoted := true)])
    ensures Inv(s')
  {
    assert SoundHandler(s, s.handlers[h]);
    HandlersFrame(s, s', h);
    forall m | m in s'.claimedAt ensures Protected(s', m) { assert Protected(s, m); }
    forall i | 0 <= i < |s.handlers| && i != h ensures !InFlight(s'.handlers[i]) { assert !InFlight(s.handlers[i]); }
    assert InFlight(s'.handlers[h]);
  }

  // The one handler in the air lands.
  lemma LandingKeepsFlights(s: System, s': System, h: nat)
    requires SingleFlight(s) && h < |s.handlers| && |s'.handlers| == |s.handlers| && InFlight(s.handlers[h])
    requires s'.handlers == s.handlers[h := s'.handlers[h]] && !InFlight(s'.handlers[h]) && !s'.active
    ensures SingleFlight(s')
  {
    forall i | 0 <= i < |s.handlers| ensures !InFlight(s'.handlers[i]) {
      if i != h { assert s'.handlers[i] == s.handlers[i]; }
    }
  }

  lemma CompleteKeepsFlights(s: System, h: nat, works: bool, aborted: bool, s': System)
    requires SingleFlight(s) && h < |s.handlers| && IsFinishing(s.handlers[h])
             && s' == AfterComplete(s, h, works, aborted)
    ensures SingleFlight(s')
  {
    if InFlight(s.handlers[h]) && !InFlight(s'.handlers[h]) {
      LandingKeepsFlights(s, s', h);
    } else {
      FlightsFrame(s, s', h);
    }
  }

  lemma CompletedHandlerIsSound(s: System, h: nat, works: bool, aborted: bool, s': System)
    requires h < |s.handlers| && SoundHandler(s, s.handlers[h]) && IsFinishing(s.handlers[h])
    requires s' == AfterComplete(s, h, works, aborted)
    ensures SoundHandler(s', s'.handlers[h])
  {
  }

  lemma OwnersFrame(s: System, s': System)
    requires OneOwner(s) && |s'.handlers| == |s.handlers|
    requires forall i | 0 <= i < |s.handlers| ::
               s'.handlers[i].owner == s.handlers[i].owner && s'.handlers[i].message == s.handlers[i].message
    ensures OneOwner(s')
  {
  }

  lemma CompleteKeepsRows(s: System, h: nat, works: bool, aborted: bool, s': System)
    requires h < |s.handlers| && IsFinishing(s.handlers[h]) && s' == AfterComplete(s, h, works, aborted)
    ensures s'.now == s.now && s'.claimedAt == s.claimedAt && s'.prunes == s.prunes && s'.calls == s.calls
    ensures forall id <- s.rows :: id in s'.rows && s'.rows[id].nonce == s.rows[id].nonce
                                   && s'.rows[id].receivedAt == s.rows[id].receivedAt
    ensures |s'.handlers| == |s.handlers| && s'.handlers == s.handlers[h := s'.handlers[h]]
    ensures s'.handlers[h].message == s.handlers[h].message && s'.handlers[h].owner == s.handlers[h].owner
  {
    hide Recorded, PhaseAfter;
    if Applies(s, h, works) { RecordedKeepsRows(s, h); }
  }

  lemma RecordedKeepsRows(s: System, h: nat)
    requires h < |s.handlers| && IsFinishing(s.handlers[h]) && CanComplete(s.rows, s.handlers[h].message.requestId)
    ensures var s' := Recorded(s, h);
            && s'.now == s.now && s'.claimedAt == s.claimedAt && s'.prunes == s.prunes && s'.calls == s.calls
            && s'.handlers == s.handlers
            && forall id <- s.rows :: id in s'.rows && s'.rows[id].nonce == s.rows[id].nonce
                                      && s'.rows[id].receivedAt == s.rows[id].receivedAt
  {
  }

  lemma CompleteKeepsInv(s: System, h: nat, works: bool, aborted: bool, s': System)
    requires Inv(s) && Next(s, Complete(h, works, aborted), s')
    ensures Inv(s')
  {
    CompleteKeepsRows(s, h, works, aborted, s');
    CompletedHandlerIsSound(s, h, works, aborted, s');
    HandlersFrame(s, s', h);
    ProtectedFrame(s, s');
    CompleteKeepsFlights(s, h, works, aborted, s');
    OwnersFrame(s, s');
  }

  lemma PruneKeepsInv(s: System, date: int, victims: set<string>, s': System)
    requires Inv(s) && Next(s, Prune(date, victims), s')
    ensures Inv(s')
  {
    forall m | m in s'.claimedAt ensures Protected(s', m) {
      assert Protected(s, m);
      if m.requestId in victims { assert IsExpired(s.rows, m.requestId, date); }
    }
    forall i | 0 <= i < |s'.handlers| ensures SoundHandler(s', s'.handlers[i]) {
      assert SoundHandler(s, s.handlers[i]);
    }
    assert forall i | 0 <= i < |s.handlers| :: InFlight(s'.handlers[i]) == InFlight(s.handlers[i]);
  }

  lemma CrashKeepsInv(s: System, s': System)
    requires Inv(s) && Next(s, CrashProcess, s')
    ensures Inv(s')
  {
    forall m | m in s'.claimedAt ensures Protected(s', m) { assert Protected(s, m); }
    forall i | 0 <= i < |s'.handlers| ensures SoundHandler(s', s'.handlers[i]) && !InFlight(s'.handlers[i]) {
      assert SoundHandler(s, s.handlers[i]);
    }
  }

  lemma TickKeepsInv(s: System, to: int, s': System)
    requires Inv(s) && Next(s, Tick(to), s')
    ensures Inv(s')
  {
    forall m | m in s'.claimedAt ensures Protected(s', m) { assert Protected(s, m); }
    forall i | 0 <= i < |s'.handlers| ensures SoundHandler(s', s'.handlers[i]) {
      assert SoundHandler(s, s.handlers[i]);
    }
    assert forall i | 0 <= i < |s.handlers| :: InFlight(s'.handlers[i]) == InFlight(s.handlers[i]);
  }

  lemma NextKeepsInv(s: System, step: Step, s': System)
    requires Inv(s) && Next(s, step, s')
    ensures Inv(s')
  {
    match step
    case Tick(to) => TickKeepsInv(s, to, s');
    case ClaimRow(h) => ClaimKeepsInv(s, h, s');
    case Decide(h, aborted) => DecideKeepsInv(s, h, aborted, s');
    case Complete(h, works, aborted) => CompleteKeepsInv(s, h, works, aborted, s');
    case Prune(date, victims) => PruneKeepsInv(s, date, victims, s');
    case CrashProcess => CrashKeepsInv(s, s');
    case Authenticate(h) =>
      assert SoundHandler(s, s.handlers[h]);
      PutKeepsInv(s, h, s'.handlers[h].phase);
    case ClaimThrows(h) =>
      assert SoundHandler(s, s.handlers[h]);
      PutKeepsInv(s, h, s'.handlers[h].phase);
    case PromoteEnds(h, result, aborted) =>
      assert SoundHandler(s, s.handlers[h]);
      PutKeepsInv(s, h, s'.handlers[h].phase);
  }

  // ---------------------------------------------------------------- invariant: outcomes and answers

  ghost function Messages(s: System): set<Message> {
    set i | 0 <= i < |s.handlers| :: s.handlers[i].message
  }

  // Request ids and nonces are never shared by two signed messages.
  ghost predicate UniqueIds(s: System) {
    forall m, k | m in Messages(s) && k in Messages(s) :: m.requestId == k.requestId || m.nonce == k.nonce ==> m == k
  }

  function StateOf(s: System, m: Message): RowState {
    if m in s.recorded then Completed(s.recorded[m]) else Started
  }

  ghost predicate IsClaimant(s: System, id: string, m: Message) {
    m in s.claimedAt && m.requestId == id && id in s.rows && s.rows[id].nonce == m.nonce
  }

  ghost predicate RowsMatch(s: System) {
    && (forall m <- s.claimedAt :: m in Messages(s) && (m.requestId in s.rows ==>
          s.rows[m.requestId].nonce == m.nonce && s.rows[m.requestId].state == StateOf(s, m)))
    && (forall id <- s.rows :: exists m :: IsClaimant(s, id, m))
    && (forall m <- s.recorded ::
        m in s.claimedAt && (s.recorded[m] == Promoted || s.recorded[m] == NoMatch ==> m in s.calls))
  }

  ghost predicate SoundAnswer(recorded: map<Message, Outcome>, h: Handler) {
    match h.phase
    case Answered(status, ByOwner) =>
      h.owner && status == if h.message in recorded then StatusForOutcome(recorded[h.message]) else 503
    case Answered(status, ByReplay) => h.message in recorded && status == StatusForOutcome(recorded[h.message])
    case Answered(status, ByRefusal) => status == 409
    case Answered(_, _) => true
    case Dead => true
    case _ => h.owner ==> h.message !in recorded
  }

  ghost predicate SoundAnswers(s: System) {
    forall i | 0 <= i < |s.handlers| :: SoundAnswer(s.recorded, s.handlers[i])
  }

  ghost predicate Outcomes(s: System) {
    UniqueIds(s) && RowsMatch(s) && SoundAnswers(s)
  }

  ghost predicate AnswersInv(s: System) {
    Inv(s) && Outcomes(s)
  }

  // Any claim of an authenticated message, in any reachable state: the first one is granted, and
  // every later one is told the recorded outcome, or 409 while there is none.
  lemma ClaimTellsTheHistory(s: System, h: nat)
    requires AnswersInv(s) && h < |s.handlers| && s.handlers[h].phase.Authenticated?
    requires s.now <= s.handlers[h].phase.at + MAX_CLAIM_DELAY_MS
    ensures var m := s.handlers[h].message;
            ClaimResult(s.rows, m) == if m !in s.claimedAt then Claimed
                                      else if m in s.recorded then CompletedBefore(s.recorded[m]) else Running
  {
    var m := s.handlers[h].message;
    assert m in Messages(s);
    forall id | id in Conflicting(s.rows, m) ensures m in s.claimedAt && id == m.requestId {
      var k :| IsClaimant(s, id, k);
      assert k in Messages(s);
    }
    if m in s.claimedAt {
      ClaimedOnce(s, h);
      assert m.requestId in Conflicting(s.rows, m);
      assert Conflicting(s.rows, m) == {m.requestId};
    }
  }

  lemma SameMessages(s: System, s': System)
    requires |s'.handlers| == |s.handlers|
    requires forall i | 0 <= i < |s.handlers| :: s'.handlers[i].message == s.handlers[i].message
    ensures Messages(s') == Messages(s)
  {
    forall m | m in Messages(s) ensures m in Messages(s') {
      var i :| 0 <= i < |s.handlers| && s.handlers[i].message == m;
      assert s'.handlers[i].message == m;
    }
    forall m | m in Messages(s') ensures m in Messages(s) {
      var i :| 0 <= i < |s.handlers| && s'.handlers[i].message == m;
      assert s.handlers[i].message == m;
    }
  }

  // Another claimed message has another request id.
  lemma OtherClaims(s: System, m: Message)
    requires UniqueIds(s) && RowsMatch(s) && m in Messages(s)
    ensures forall k | k in s.claimedAt && k.requestId == m.requestId :: k == m
  {
  }

  // Steps that change no row, claim or outcome.
  lemma QuietKeepsOutcomes(s: System, s': System)
    requires UniqueIds(s) && RowsMatch(s) && SoundAnswers(s') && |s'.handlers| == |s.handlers|
    requires forall i | 0 <= i < |s.handlers| :: s'.handlers[i].message == s.handlers[i].message
    requires s'.rows == s.rows && s'.claimedAt == s.claimedAt && s'.recorded == s.recorded
    requires forall m <- s.calls :: m in s'.calls
    ensures Outcomes(s')
  {
    hide SoundAnswer;
    SameMessages(s, s');
    forall id | id in s'.rows ensures exists m :: IsClaimant(s', id, m) {
      var m :| IsClaimant(s, id, m);
      assert IsClaimant(s', id, m);
    }
  }

  lemma OneHandlerKeepsOutcomes(s: System, h: nat, s': System)
    requires Outcomes(s) && h < |s.handlers| && |s'.handlers| == |s.handlers|
    requires s'.handlers == s.handlers[h := s'.handlers[h]] && s'.handlers[h].message == s.handlers[h].message
    requires s'.rows == s.rows && s'.claimedAt == s.claimedAt && s'.recorded == s.recorded
    requires forall m <- s.calls :: m in s'.calls
    requires SoundAnswer(s'.recorded, s'.handlers[h])
    ensures Outcomes(s')
  {
    QuietKeepsOutcomes(s, s');
  }

  lemma NewClaimKeepsRows(s: System, m: Message, s': System)
    requires RowsMatch(s) && m in Messages(s) && Messages(s') == Messages(s) && m !in s.claimedAt
             && m.requestId !in s.rows
    requires forall k | k in s.claimedAt && k.requestId == m.requestId :: k == m
    requires s'.rows == s.rows[m.requestId := Row(m.nonce, Started, s.now)] && s'.claimedAt == s.claimedAt[m := s.now]
    requires s'.recorded == s.recorded && s'.calls == s.calls
    ensures RowsMatch(s')
  {
    forall k | k in s'.claimedAt && k.requestId in s'.rows
      ensures s'.rows[k.requestId].nonce == k.nonce && s'.rows[k.requestId].state == StateOf(s', k)
    {
    }
    forall id | id in s'.rows ensures exists k :: IsClaimant(s', id, k) {
      if id == m.requestId {
        assert IsClaimant(s', id, m);
      } else {
        var k :| IsClaimant(s, id, k);
        assert IsClaimant(s', id, k);
      }
    }
  }

  lemma GrantKeepsOutcomes(s: System, h: nat, s': System)
    requires AnswersInv(s) && Next(s, ClaimRow(h), s') && ClaimResult(s.rows, s.handlers[h].message) == Claimed
    ensures Outcomes(s')
  {
    var m := s.handlers[h].message;
    ClaimTellsTheHistory(s, h);
    assert m in Messages(s);
    assert m.requestId !in s.rows by { assert m.requestId !in Conflicting(s.rows, m); }
    SameMessages(s, s');
    OtherClaims(s, m);
    NewClaimKeepsRows(s, m, s');
  }

  // `complete` recorded outcome `o` of message `m`.
  lemma RecordKeepsRows(s: System, m: Message, o: Outcome, s': System)
    requires RowsMatch(s) && m in Messages(s) && Messages(s') == Messages(s) && m in s.claimedAt
             && m.requestId in s.rows
    requires o == Promoted || o == NoMatch ==> m in s.calls
    requires forall k | k in s.claimedAt && k.requestId == m.requestId :: k == m
    requires s'.rows == RowsAfterComplete(s.rows, m.requestId, o) && s'.recorded == s.recorded[m := o]
    requires s'.claimedAt == s.claimedAt && s'.calls == s.calls
    ensures RowsMatch(s')
  {
    forall k | k in s'.claimedAt && k.requestId in s'.rows
      ensures s'.rows[k.requestId].nonce == k.nonce && s'.rows[k.requestId].state == StateOf(s', k)
    {
    }
    forall id | id in s'.rows ensures exists k :: IsClaimant(s', id, k) {
      var k :| IsClaimant(s, id, k);
      assert IsClaimant(s', id, k);
    }
  }

  lemma RecordKeepsAnswers(s: System, h: nat, o: Outcome, s': System)
    requires SoundAnswers(s) && SoundHandlers(s) && OneOwner(s) && h < |s.handlers| && s.handlers[h].owner
    requires s.handlers[h].message !in s.recorded && s'.recorded == s.recorded[s.handlers[h].message := o]
    requires |s'.handlers| == |s.handlers| && s'.handlers == s.handlers[h := s'.handlers[h]]
    requires s'.handlers[h] == s.handlers[h].(phase := Answered(StatusForOutcome(o), ByOwner))
    ensures SoundAnswers(s')
  {
    forall i | 0 <= i < |s'.handlers| ensures SoundAnswer(s'.recorded, s'.handlers[i]) {
      if i != h {
        assert SoundAnswer(s.recorded, s.handlers[i]) && SoundHandler(s, s.handlers[i]);
        if s.handlers[i].owner { assert s.handlers[i].message != s.handlers[h].message; }
      }
    }
  }

  // `complete` applied the outcome of handler `h` to its row.
  ghost predicate Records(s: System, h: nat, o: Outcome, s': System)
    requires h < |s.handlers|
  {
    var m := s.handlers[h].message;
    && m.requestId in s.rows && s'.rows == RowsAfterComplete(s.rows, m.requestId, o)
    && s'.recorded == s.recorded[m := o] && s'.claimedAt == s.claimedAt && s'.calls == s.calls
    && |s'.handlers| == |s.handlers|
    && s'.handlers == s.handlers[h := s.handlers[h].(phase := Answered(StatusForOutcome(o), ByOwner))]
  }

  lemma ApplyingRecords(s: System, h: nat, aborted: bool, s': System)
    requires h < |s.handlers| && IsFinishing(s.handlers[h]) && SoundHandler(s, s.handlers[h])
    requires CanComplete(s.rows, s.handlers[h].message.requestId) && s' == AfterComplete(s, h, true, aborted)
    ensures var o := OutcomeOf(s.handlers[h]);
            Records(s, h, o, s') && (o == Promoted || o == NoMatch ==> s.handlers[h].message in s.calls)
  {
  }

  lemma RecordKeepsOutcomes(s: System, h: nat, o: Outcome, s': System)
    requires Outcomes(s) && SoundHandlers(s) && OneOwner(s) && h < |s.handlers| && Records(s, h, o, s')
    requires s.handlers[h].owner && s.handlers[h].message !in s.recorded && s.handlers[h].message in s.claimedAt
    requires o == Promoted || o == NoMatch ==> s.handlers[h].message in s.calls
    ensures Outcomes(s')
  {
    var m := s.handlers[h].message;
    assert m in Messages(s);
    SameMessages(s, s');
    OtherClaims(s, m);
    RecordKeepsRows(s, m, o, s');
    RecordKeepsAnswers(s, h, o, s');
  }

  lemma FailedRecordKeepsOutcomes(s: System, h: nat, aborted: bool, s': System)
    requires Outcomes(s) && h < |s.handlers| && IsFinishing(s.handlers[h]) && SoundHandler(s, s.handlers[h])
    requires s' == AfterComplete(s, h, false, aborted)
    ensures Outcomes(s')
  {
    assert SoundAnswer(s.recorded, s.handlers[h]);
    OneHandlerKeepsOutcomes(s, h, s');
  }

  lemma CompleteKeepsOutcomes(s: System, h: nat, works: bool, aborted: bool, s': System)
    requires AnswersInv(s) && Next(s, Complete(h, works, aborted), s')
    ensures Outcomes(s')
  {
    if works && CanComplete(s.rows, s.handlers[h].message.requestId) {
      assert SoundHandler(s, s.handlers[h]) && SoundAnswer(s.recorded, s.handlers[h]);
      ApplyingRecords(s, h, aborted, s');
      RecordKeepsOutcomes(s, h, OutcomeOf(s.handlers[h]), s');
    } else {
      FailedRecordKeepsOutcomes(s, h, aborted, s');
    }
  }

  lemma FewerRowsMatch(s: System, s': System)
    requires RowsMatch(s) && s' == s.(rows := s'.rows, prunes := s'.prunes)
    requires forall id <- s'.rows :: id in s.rows && s'.rows[id] == s.rows[id]
    ensures RowsMatch(s')
  {
    SameMessages(s, s');
    forall id | id in s'.rows ensures exists m :: IsClaimant(s', id, m) {
      var m :| IsClaimant(s, id, m);
      assert IsClaimant(s', id, m);
    }
  }

  lemma PruneKeepsOutcomes(s: System, date: int, victims: set<string>, s': System)
    requires Outcomes(s) && Next(s, Prune(date, victims), s')
    ensures Outcomes(s')
  {
    hide IsPruneBatch, SoundAnswer, RowsMatch;
    SameMessages(s, s');
    FewerRowsMatch(s, s');
  }

  lemma OwnStepKeepsOutcomes(s: System, step: Step, h: nat, s': System)
    requires Outcomes(s) && Next(s, step, s') && h < |s.handlers| && SoundHandler(s, s.handlers[h])
    requires step == Authenticate(h) || step == ClaimThrows(h) || (step.PromoteEnds? && step.h == h)
    ensures Outcomes(s')
  {
    assert SoundAnswer(s.recorded, s.handlers[h]);
    OneHandlerKeepsOutcomes(s, h, s');
  }

  lemma DecideKeepsOutcomes(s: System, h: nat, aborted: bool, s': System)
    requires Outcomes(s) && Next(s, Decide(h, aborted), s') && SoundHandler(s, s.handlers[h])
    ensures Outcomes(s')
  {
    assert SoundAnswer(s.recorded, s.handlers[h]);
    OneHandlerKeepsOutcomes(s, h, s');
  }

  lemma ClaimKeepsOutcomes(s: System, h: nat, s': System)
    requires AnswersInv(s) && Next(s, ClaimRow(h), s')
    ensures Outcomes(s')
  {
    assert SoundHandler(s, s.handlers[h]);
    if ClaimResult(s.rows, s.handlers[h].message) == Claimed {
      GrantKeepsOutcomes(s, h, s');
    } else {
      ClaimTellsTheHistory(s, h);
      OneHandlerKeepsOutcomes(s, h, s');
    }
  }

  lemma NextKeepsOutcomes(s: System, step: Step, s': System)
    requires AnswersInv(s) && Next(s, step, s')
    ensures Outcomes(s')
  {
    hide AfterClaim, AfterDecide, AfterComplete, IsPruneBatch, UniqueIds, RowsMatch, SoundHandler, AllProtected,
         OneOwner, SingleFlight, DistinctCalls;
    match step
    case Prune(date, victims) => PruneKeepsOutcomes(s, date, victims, s');
    case ClaimRow(h) => ClaimKeepsOutcomes(s, h, s');
    case Complete(h, works, aborted) => CompleteKeepsOutcomes(s, h, works, aborted, s');
    case Authenticate(h) => OwnStepKeepsOutcomes(s, step, h, s');
    case ClaimThrows(h) => OwnStepKeepsOutcomes(s, step, h, s');
    case Decide(h, aborted) => DecideKeepsOutcomes(s, h, aborted, s');
    case PromoteEnds(h, result, aborted) => OwnStepKeepsOutcomes(s, step, h, s');
    case Tick(to) => QuietKeepsOutcomes(s, s');
    case CrashProcess => QuietKeepsOutcomes(s, s');
  }

  // ---------------------------------------------------------------- theorems

  lemma {:induction false} RunKeepsInv(states: seq<System>, steps: seq<Step>, k: nat)
    requires IsRun(states, steps) && k < |states|
    ensures Inv(states[k])
    ensures UniqueIds(states[0]) ==> AnswersInv(states[k])
  {
    if k > 0 {
      RunKeepsInv(states, steps, k - 1);
      NextKeepsInv(states[k - 1], steps[k - 1], states[k]);
      if UniqueIds(states[0]) { NextKeepsOutcomes(states[k - 1], steps[k - 1], states[k]); }
    }
  }

  // A run whose messages have their own request ids and nonces.
  ghost predicate ReachableWithUniqueIds(s: System) {
    exists states, steps :: IsRun(states, steps) && states[|steps|] == s && UniqueIds(states[0])
  }

  // Over the whole run, prunes, replays and crashes included: no message makes `promote` run
  // twice, and no two handlers are ever inside the promotion at once.
  lemma PromotesAtMostOnce(s: System)
    requires Reachable(s)
    ensures forall a, b | 0 <= a < b < |s.calls| :: s.calls[a] != s.calls[b]
    ensures forall i, j | 0 <= i < |s.handlers| && 0 <= j < |s.handlers| && InFlight(s.handlers[i])
            && InFlight(s.handlers[j]) :: i == j
    ensures s.active <==> exists i :: 0 <= i < |s.handlers| && InFlight(s.handlers[i])
  {
    var states, steps :| IsRun(states, steps) && states[|steps|] == s;
    RunKeepsInv(states, steps, |steps|);
  }

  // The handler that owned a message and everyone who replays it report one and the same recorded
  // outcome; success is reported only for a message `promote` was called for; without a recorded
  // outcome the owner reports 503 and replays are refused.
  lemma AnswersAgree(s: System, i: nat)
    requires ReachableWithUniqueIds(s) && i < |s.handlers| && s.handlers[i].phase.Answered?
    ensures var h := s.handlers[i];
            && (h.phase.via == ByOwner || h.phase.via == ByReplay ==>
                  h.phase.status == if h.message in s.recorded then StatusForOutcome(s.recorded[h.message]) else 503)
            && (h.phase.via == ByReplay ==> h.message in s.recorded)
            && (h.phase.via == ByRefusal ==> h.phase.status == 409)
            && (h.phase.status == 204 && (h.phase.via == ByOwner || h.phase.via == ByReplay) ==> h.message in s.calls)
  {
    var states, steps :| IsRun(states, steps) && states[|steps|] == s && UniqueIds(states[0]);
    RunKeepsInv(states, steps, |steps|);
    assert SoundAnswer(s.recorded, s.handlers[i]);
  }

  // What a replay gets, at the moment it claims.
  lemma ReplayGetsTheRecordedStatus(s: System, h: nat, s': System)
    requires ReachableWithUniqueIds(s) && Next(s, ClaimRow(h), s')
    ensures var m := s.handlers[h].message;
            s'.handlers[h].phase == if m !in s.claimedAt then Owning
                                    else if m in s.recorded then Answered(StatusForOutcome(s.recorded[m]), ByReplay)
                                    else Answered(409, ByRefusal)
  {
    ReachableClaims(s, h);
  }

  lemma ReachableClaims(s: System, h: nat)
    requires ReachableWithUniqueIds(s) && h < |s.handlers| && s.handlers[h].phase.Authenticated?
    requires s.now <= s.handlers[h].phase.at + MAX_CLAIM_DELAY_MS
    ensures var m := s.handlers[h].message;
            ClaimResult(s.rows, m) == if m !in s.claimedAt then Claimed
                                      else if m in s.recorded then CompletedBefore(s.recorded[m]) else Running
  {
    var states, steps :| IsRun(states, steps) && states[|steps|] == s && UniqueIds(states[0]);
    RunKeepsInv(states, steps, |steps|);
    ClaimTellsTheHistory(s, h);
  }

  // A recorded outcome never changes.
  lemma OutcomesAreFinal(s: System, step: Step, s': System, m: Message)
    requires ReachableWithUniqueIds(s) && Next(s, step, s') && m in s.recorded
    ensures m in s'.recorded && s'.recorded[m] == s.recorded[m]
  {
    hide ReachableWithUniqueIds, AfterClaim, AfterDecide, StatusForOutcome, Conflicting, Killed, IsPruneBatch;
    match step
    case Complete(h, works, aborted) =>
      FinishersAreUnrecorded(s, h);
    case ClaimRow(h) => ClaimRecordsNothing(s, h);
    case Decide(h, aborted) => DecisionIsLocal(s, h, aborted);
    case _ =>
  }

  lemma ClaimRecordsNothing(s: System, h: nat)
    requires h < |s.handlers|
    ensures AfterClaim(s, h).recorded == s.recorded
  {
  }

  lemma FinishersAreUnrecorded(s: System, h: nat)
    requires ReachableWithUniqueIds(s) && h < |s.handlers| && IsFinishing(s.handlers[h])
    ensures s.handlers[h].message !in s.recorded
  {
    var states, steps :| IsRun(states, steps) && states[|steps|] == s && UniqueIds(states[0]);
    RunKeepsInv(states, steps, |steps|);
    assert SoundHandler(s, s.handlers[h]) && SoundAnswer(s.recorded, s.handlers[h]);
  }

  // ---------------------------------------------------------------- what a crash leaves behind

  // A claimed message without an outcome, and no handler left that could give it one.
  ghost predicate IsCutShort(s: System, m: Message) {
    && m in s.claimedAt && m !in s.recorded
    && forall i | 0 <= i < |s.handlers| && s.handlers[i].owner && s.handlers[i].message == m ::
         s.handlers[i].phase.Dead? || s.handlers[i].phase.Answered?
  }

  // A crash cuts short every message it finds claimed and without an outcome.
  lemma CrashCutsShort(s: System, s': System, m: Message)
    requires Reachable(s) && Next(s, CrashProcess, s') && m in s.claimedAt && m !in s.recorded
    ensures IsCutShort(s', m)
  {
    var states, steps :| IsRun(states, steps) && states[|steps|] == s;
    RunKeepsInv(states, steps, |steps|);
    forall i | 0 <= i < |s.handlers| && s.handlers[i].owner ensures !s.handlers[i].phase.Arrived? {
      assert SoundHandler(s, s.handlers[i]);
    }
  }

  lemma OneHandlerLeavesCutShort(s: System, h: nat, s': System, m: Message)
    requires IsCutShort(s, m) && h < |s.handlers| && |s'.handlers| == |s.handlers|
    requires s'.handlers == s.handlers[h := s'.handlers[h]] && s'.handlers[h].message == s.handlers[h].message
    requires s.handlers[h].message == m && s'.handlers[h].owner ==>
               s'.handlers[h].phase.Dead? || s'.handlers[h].phase.Answered?
    requires m in s'.claimedAt && m !in s'.recorded
    ensures IsCutShort(s', m)
  {
  }

  // The owner of such a message has come to its end.
  lemma OwnerIsOver(s: System, h: nat, m: Message)
    requires IsCutShort(s, m) && h < |s.handlers| && SoundHandler(s, s.handlers[h])
    requires s.handlers[h].phase.Owning? || s.handlers[h].phase.Promoting? || IsFinishing(s.handlers[h])
    ensures s.handlers[h].message != m
  {
  }

  lemma PlanningTouchesNoHandler(s: System)
    ensures var s1 := AfterMaybePrune(s);
            && s1.handlers == s.handlers && s1.claimedAt == s.claimedAt && s1.recorded == s.recorded
            && s1.calls == s.calls && s1.active == s.active
  {
  }

  lemma DecisionIsLocal(s: System, h: nat, aborted: bool)
    requires h < |s.handlers|
    ensures var s' := AfterDecide(s, h, aborted);
            && |s'.handlers| == |s.handlers| && s'.handlers == s.handlers[h := s'.handlers[h]]
            && s'.handlers[h].message == s.handlers[h].message
            && s'.claimedAt == s.claimedAt && s'.recorded == s.recorded
            && (s'.calls == s.calls || s'.calls == s.calls + [s.handlers[h].message])
  {
    hide AfterMaybePrune;
    PlanningTouchesNoHandler(s);
  }

  lemma DecisionLeavesCutShort(s: System, h: nat, aborted: bool, s': System, m: Message)
    requires SoundHandlers(s) && Next(s, Decide(h, aborted), s') && IsCutShort(s, m)
    ensures IsCutShort(s', m) && (m in s'.calls <==> m in s.calls)
  {
    hide IsCutShort, SoundHandler, AfterDecide;
    Kept(s, m);
    DecisionIsLocal(s, h, aborted);
    OwnerIsOver(s, h, m);
    OneHandlerLeavesCutShort(s, h, s', m);
  }

  lemma Kept(s: System, m: Message)
    requires IsCutShort(s, m)
    ensures m in s.claimedAt && m !in s.recorded
  {
  }

  lemma CompletionLeavesCutShort(s: System, h: nat, works: bool, aborted: bool, s': System, m: Message)
    requires SoundHandlers(s) && Next(s, Complete(h, works, aborted), s') && IsCutShort(s, m)
    ensures IsCutShort(s', m) && s'.calls == s.calls
  {
    hide IsCutShort, SoundHandler;
    Kept(s, m);
    OwnerIsOver(s, h, m);
    OneHandlerLeavesCutShort(s, h, s', m);
  }

  lemma ClaimLeavesCutShort(s: System, h: nat, s': System, m: Message)
    requires Next(s, ClaimRow(h), s') && IsCutShort(s, m)
    requires s.handlers[h].message == m ==> ClaimResult(s.rows, m) == Running
    ensures IsCutShort(s', m) && s'.calls == s.calls
    ensures s.handlers[h].message == m ==> s'.handlers[h].phase == Answered(409, ByRefusal)
  {
    hide IsCutShort, ClaimResult;
    Kept(s, m);
    OneHandlerLeavesCutShort(s, h, s', m);
  }

  lemma PhaseLeavesCutShort(s: System, h: nat, phase: Phase, m: Message)
    requires IsCutShort(s, m) && h < |s.handlers|
    requires s.handlers[h].message == m && s.handlers[h].owner ==> phase.Dead? || phase.Answered?
    ensures IsCutShort(Put(s, h, phase), m)
  {
  }

  lemma CrashLeavesCutShort(s: System, s': System, m: Message)
    requires IsCutShort(s, m) && Next(s, CrashProcess, s')
    ensures IsCutShort(s', m)
  {
    forall i | 0 <= i < |s'.handlers| && s'.handlers[i].owner && s'.handlers[i].message == m
      ensures s'.handlers[i].phase.Dead? || s'.handlers[i].phase.Answered?
    {
      assert s.handlers[i].owner && s.handlers[i].message == m;
    }
  }

  // Such a message stays so for good: it is neither promoted nor given an outcome later, and every
  // replay of it is refused.
  lemma CutShortForGood(s: System, step: Step, s': System, m: Message)
    requires ReachableWithUniqueIds(s) && Next(s, step, s') && IsCutShort(s, m)
    ensures IsCutShort(s', m) && (m in s'.calls <==> m in s.calls)
    ensures step.ClaimRow? && s.handlers[step.h].message == m ==>
              s'.handlers[step.h].phase == Answered(409, ByRefusal)
  {
    hide UniqueIds, IsCutShort, SoundHandler, AfterClaim, AfterDecide, AfterComplete;
    ReachableIsSound(s);
    Kept(s, m);
    match step
    case ClaimRow(h) =>
      if s.handlers[h].message == m { ReachableClaims(s, h); }
      ClaimLeavesCutShort(s, h, s', m);
    case Decide(h, aborted) => DecisionLeavesCutShort(s, h, aborted, s', m);
    case Complete(h, works, aborted) => CompletionLeavesCutShort(s, h, works, aborted, s', m);
    case Authenticate(h) =>
      assert !s.handlers[h].owner by { NotYetOwner(s, h); }
      PhaseLeavesCutShort(s, h, s'.handlers[h].phase, m);
    case ClaimThrows(h) => PhaseLeavesCutShort(s, h, s'.handlers[h].phase, m);
    case PromoteEnds(h, result, aborted) =>
      OwnerIsOver(s, h, m);
      PhaseLeavesCutShort(s, h, s'.handlers[h].phase, m);
    case CrashProcess => CrashLeavesCutShort(s, s', m);
    case _ => SameHandlersCutShort(s, s', m);
  }

  lemma SameHandlersCutShort(s: System, s': System, m: Message)
    requires IsCutShort(s, m) && s'.handlers == s.handlers && s'.claimedAt == s.claimedAt && s'.recorded == s.recorded
    ensures IsCutShort(s', m)
  {
  }

  lemma NotYetOwner(s: System, h: nat)
    requires SoundHandlers(s) && h < |s.handlers| && s.handlers[h].phase.Arrived?
    ensures !s.handlers[h].owner
  {
    assert SoundHandler(s, s.handlers[h]);
  }

  lemma ReachableIsSound(s: System)
    requires ReachableWithUniqueIds(s)
    ensures SoundHandlers(s)
  {
    var states, steps :| IsRun(states, steps) && states[|steps|] == s && UniqueIds(states[0]);
    RunKeepsInv(states, steps, |steps|);
  }
}
