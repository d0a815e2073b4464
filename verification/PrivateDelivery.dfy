/**
 * Delivery of a private comparison
 * (apps/telegram-bot/src/privateComparisonRuntime.ts:106-251 and 306-383, apps/telegram-bot/src/main.ts:356-397,
 * apps/telegram-bot/src/privateComparisonQueue.ts:11-21).
 *
 * One queue job is attempted until its handler returns, at most a retry limit of times more.  The
 * abort signal does not fire in these runs; what the document, the comparison and Telegram do, and
 * where the process dies if it does, is a `Script` for each attempt.
 */
module PrivateDelivery {
  import opened Wrappers

  const EXPIRE_SECONDS := 300
  const RETENTION_SECONDS := 300
  const RETRY_LIMIT := 3
  const RETRY_DELAY_SECONDS := 1

  datatype Phase = Processing | InTelegram | Extraction | Retrieval | Comparison | Sending

  datatype Error = RuntimeError(retryable: bool) | ProviderError | DocumentClientError(retryable: bool)
                 | TelegramError(status: nat) | OtherError

  // classifyFailure: is another attempt worth it?
  predicate IsRetryable(e: Error, phase: Phase) {
    match e
    case RuntimeError(r) => r
    case ProviderError => true
    case DocumentClientError(r) => r
    case TelegramError(status) => status == 429 || status >= 500
    case OtherError => phase != Extraction && phase != InTelegram
  }

  predicate IsPermanent(status: Option<nat>) { status.Some? && 400 <= status.value <= 499 && status.value != 429 }

  // A send that was acknowledged, reported as not delivered, or threw.
  datatype Send = Acked | Undelivered(status: Option<nat>) | SendThrew(error: Error)

  datatype Work = BadJob | Undecryptable | WorkFailed(error: Error, phase: Phase) | WorkDone

  // What an attempt leaves behind outside the process: an acknowledged send, or a status.
  datatype Status = Processed | Failed
  datatype Effect = Acknowledged | Marked(status: Status)

  // The process dies once it has had `crash` effects, if it gets that far.
  datatype Script = Script(work: Work, answer: Send, apology: Send, crash: Option<nat>)

  datatype Outcome = Returned(delivered: bool, terminal: bool) | Threw | Died

  datatype Record = Record(effects: seq<Effect>, outcome: Outcome)

  // What the answer's send, or the failure before it, leaves to be done.
  datatype Left = Sent(delivered: bool, status: Option<nat>) | Broke(error: Error, phase: Phase)

  function AfterWork(script: Script): Left
    requires script.work.WorkDone? || script.work.WorkFailed?
  {
    if script.work.WorkFailed? then Broke(script.work.error, script.work.phase)
    else
      match script.answer
      case Acked => Sent(true, None)
      case Undelivered(status) => Sent(false, status)
      case SendThrew(error) => Broke(error, Sending)
  }

  // The attempt of a process that does not die.
  function Undisturbed(script: Script): Record {
    if script.work.BadJob? || script.work.Undecryptable? then Record([], Threw)
    else
      match AfterWork(script)
      case Sent(delivered, status) =>
        Record([Marked(Failed)] + if delivered then [Acknowledged, Marked(Processed)] else [Marked(Failed)],
               Returned(delivered, !delivered && IsPermanent(status)))
      case Broke(error, phase) =>
        if IsRetryable(error, phase) then Record([Marked(Failed), Marked(Failed)], Threw)
        else
          match script.apology
          case Acked => Record([Marked(Failed), Acknowledged, Marked(Processed)], Returned(true, true))
          case SendThrew(_) => Record([Marked(Failed)], Threw)
          case Undelivered(status) =>
            Record([Marked(Failed), Marked(Failed)], if IsPermanent(status) then Returned(false, true) else Threw)
  }

  function Made(script: Script): Record {
    var r := Undisturbed(script);
    if script.crash.Some? && script.crash.value <= |r.effects|
    then Record(r.effects[..script.crash.value], Died) else r
  }

  lemma {:induction false} Dies(script: Script, effects: seq<Effect>)
    requires effects <= Undisturbed(script).effects && script.crash == Some(|effects|)
    ensures Made(script) == Record(effects, Died)
  {
  }

  lemma {:induction false} Ends(script: Script, effects: seq<Effect>)
    requires effects == Undisturbed(script).effects && (script.crash.Some? ==> script.crash.value >= |effects|)
    ensures Made(script) == Record(effects, if script.crash == Some(|effects|) then Died
                                            else Undisturbed(script).outcome)
  {
  }

  class Attempt {
    var effects: seq<Effect>
    const crash: Option<nat>

    constructor (crash: Option<nat>)
      ensures effects == [] && this.crash == crash
    {
      effects, this.crash := [], crash;
    }

    method Do(effect: Effect) returns (alive: bool)
      modifies this
      ensures alive <==> crash != Some(|old(effects)|)
      ensures effects == if alive then old(effects) + [effect] else old(effects)
    {
      alive := crash != Some(|effects|);
      if alive { effects := effects + [effect]; }
    }

    // Nothing but an acknowledgement is an effect.
    method Deliver(send: Send) returns (alive: bool, r: Result<(bool, Option<nat>)>)
      modifies this
      ensures alive <==> send.Acked? ==> crash != Some(|old(effects)|)
      ensures effects == if send.Acked? && alive then old(effects) + [Acknowledged] else old(effects)
      ensures r == match send case Acked => Ok((true, None)) case Undelivered(status) => Ok((false, status))
              case SendThrew(_) => Thrown
    {
      alive := true;
      match send {
        case Acked =>
          alive := Do(Acknowledged);
          r := Ok((true, None));
        case Undelivered(status) => r := Ok((false, status));
        case SendThrew(_) => r := Thrown;
      }
    }

    // The process may still die before the queue hears of it.
    function Ended(outcome: Outcome): Outcome
      reads this
    {
      if crash == Some(|effects|) then Died else outcome
    }

    method Process(script: Script) returns (outcome: Outcome)
      requires effects == [] && crash == script.crash
      modifies this
      ensures Record(effects, outcome) == Made(script)
    {
      hide Made, IsRetryable, IsPermanent;
      if script.work.BadJob? || script.work.Undecryptable? {
        Ends(script, effects);
        return Ended(Threw);
      }
      var alive := Do(Marked(Failed));
      if !alive {
        Dies(script, effects);
        return Died;
      }
      var error, phase := OtherError, Sending;
      if script.work.WorkFailed? {
        error, phase := script.work.error, script.work.phase;
      } else {
        var delivery;
        alive, delivery := Deliver(script.answer);
        if !alive {
          Dies(script, effects);
          return Died;
        }
        if delivery.Ok? {
          alive := Do(Marked(if delivery.value.0 then Processed else Failed));
          if !alive {
            Dies(script, effects);
            return Died;
          }
          Ends(script, effects);
          return Ended(Returned(delivery.value.0, !delivery.value.0 && IsPermanent(delivery.value.1)));
        }
        error := script.answer.error;
      }
      outcome := AfterFailure(script, error, phase);
    }

    // The handler of an exception: a failure not worth another attempt is told to the user.
    method AfterFailure(script: Script, error: Error, phase: Phase) returns (outcome: Outcome)
      requires effects == [Marked(Failed)] && crash == script.crash && (crash.Some? ==> crash.value > 0)
      requires (script.work.WorkDone? || script.work.WorkFailed?) && AfterWork(script) == Broke(error, phase)
      modifies this
      ensures Record(effects, outcome) == Made(script)
    {
      hide Made, IsRetryable, IsPermanent, AfterWork;
      var alive: bool;
      if !IsRetryable(error, phase) {
        var apology;
        alive, apology := Deliver(script.apology);
        if !alive {
          Dies(script, effects);
          return Died;
        }
        if apology.Thrown? {
          Ends(script, effects);
          return Ended(Threw);
        }
        if apology.value.0 || IsPermanent(apology.value.1) {
          alive := Do(Marked(if apology.value.0 then Processed else Failed));
          if !alive {
            Dies(script, effects);
            return Died;
          }
          Ends(script, effects);
          return Ended(Returned(apology.value.0, true));
        }
      }
      alive := Do(Marked(Failed));
      if !alive {
        Dies(script, effects);
        return Died;
      }
      Ends(script, effects);
      return Ended(Threw);
    }
  }

  // The queue retries unless the job is delivered or past helping; a job whose process died expires and is
  // retried too.
  predicate IsRetried(outcome: Outcome) { outcome.Threw? || outcome.Died? || (!outcome.delivered && !outcome.terminal) }

  // The records of the attempts made, given what each would meet; the queue makes no more than
  // limit + 1.
  function Attempts(scripts: seq<Script>, limit: nat): seq<Record> {
    if |scripts| == 0 then []
    else [Made(scripts[0])] + if IsRetried(Made(scripts[0]).outcome) && limit > 0
        then Attempts(scripts[1..], limit - 1) else []
  }

  predicate IsAcked(r: Record) { Acknowledged in r.effects }

  // The process died between the acknowledgement and the end of the attempt.
  predicate IsLost(r: Record) { IsAcked(r) && r.outcome.Died? }

  function AcksIn(effects: seq<Effect>): nat {
    if |effects| == 0 then 0 else (if effects[0].Acknowledged? then 1 else 0) + AcksIn(effects[1..])
  }

  function Acks(records: seq<Record>): nat {
    if |records| == 0 then 0 else AcksIn(records[0].effects) + Acks(records[1..])
  }

  // An attempt has at most one acknowledged send.  Without a crash `processed` is written exactly when it
  // has, and then the queue is done with the job; a crash can only keep `processed` from being written.
  lemma {:induction false} OneAttempt(script: Script)
    ensures var r := Made(script);
            && AcksIn(r.effects) == (if IsAcked(r) then 1 else 0)
            && (Marked(Processed) in r.effects ==> IsAcked(r))
            && (!r.outcome.Died? ==>
                  && (IsAcked(r) <==> Marked(Processed) in r.effects)
                  && (IsAcked(r) <==> r.outcome.Returned? && r.outcome.delivered))
            && (IsAcked(r) && IsRetried(r.outcome) ==> IsLost(r))
  {
    var full := Undisturbed(script);
    assert |full.effects| <= 3 && (IsAcked(full) ==> full.effects == [Marked(Failed), Acknowledged, Marked(Processed)]);
    ShortAcks(full.effects);
    ShortAcks(Made(script).effects);
  }

  lemma {:induction false} ShortAcks(effects: seq<Effect>)
    requires |effects| <= 3 && (|effects| > 0 ==> !effects[0].Acknowledged?)
             && (|effects| > 2 ==> !effects[2].Acknowledged?)
    ensures AcksIn(effects) == if Acknowledged in effects then 1 else 0
  {
    assert AcksIn([]) == 0;
    if |effects| > 2 { assert AcksIn(effects[2..]) == 0 by { assert effects[2..][1..] == []; } }
    if |effects| > 1 {
      assert effects[1..][1..] == effects[2..];
      assert AcksIn(effects[1..]) == if effects[1].Acknowledged? then 1 else 0;
    }
  }

  // However often the job is retried, an acknowledged attempt is the last one unless its process died
  // behind the acknowledgement, and `processed` is written in no attempt without one.
  lemma {:induction false} AttemptsEndAtAnAck(scripts: seq<Script>, limit: nat)
    ensures var records := Attempts(scripts, limit);
            && |records| <= limit + 1 && |records| <= |scripts|
            && forall i | 0 <= i < |records| ::
                 && records[i] == Made(scripts[i])
                 && (IsAcked(records[i]) && !IsLost(records[i]) ==> i == |records| - 1)
                 && (Marked(Processed) in records[i].effects ==> IsAcked(records[i]))
    decreases limit
  {
    hide Made, IsRetried, IsAcked, IsLost;
    if |scripts| > 0 {
      OneAttempt(scripts[0]);
      var first, rest := Made(scripts[0]), if IsRetried(Made(scripts[0]).outcome) && limit > 0
          then Attempts(scripts[1..], limit - 1) else [];
      if IsRetried(first.outcome) && limit > 0 { AttemptsEndAtAnAck(scripts[1..], limit - 1); }
      assert ([first] + rest)[1..] == rest;
    }
  }

  predicate AreSingle(records: seq<Record>) {
    forall r <- records :: AcksIn(r.effects) == if IsAcked(r) then 1 else 0
  }

  predicate IsTwice(records: seq<Record>) {
    exists i, j | 0 <= i < j < |records| :: IsAcked(records[i]) && IsAcked(records[j])
  }

  lemma {:induction false} AckedOnce(records: seq<Record>)
    requires AreSingle(records)
    ensures Acks(records) > 0 <==> exists i | 0 <= i < |records| :: IsAcked(records[i])
    ensures Acks(records) > 1 <==> IsTwice(records)
    decreases |records|
  {
    hide IsAcked;
    if |records| > 0 {
      var first, rest := records[0], records[1..];
      assert records == [first] + rest;
      AckedOnce(rest);
      if Acks(rest) > 0 { var i :| 0 <= i < |rest| && IsAcked(rest[i]); assert IsAcked(records[i + 1]); }
      if Acks(rest) > 1 {
        var i, j :| 0 <= i < j < |rest| && IsAcked(rest[i]) && IsAcked(rest[j]);
        assert IsAcked(records[i + 1]) && IsAcked(records[j + 1]);
      }
      if i, j :| 0 <= i < j < |records| && IsAcked(records[i]) && IsAcked(records[j]) {
        assert IsAcked(rest[j - 1]);
        if i > 0 { assert IsAcked(rest[i - 1]); }
      }
      if i :| 0 <= i < |records| && IsAcked(records[i]) {
        if i > 0 { assert IsAcked(rest[i - 1]); }
      }
    }
  }

  // Over all attempts a second send is acknowledged exactly when the process of an attempt dies behind its
  // acknowledgement and a later attempt is acknowledged again.
  lemma {:induction false} DeliveredTwiceExactly(scripts: seq<Script>, limit: nat)
    ensures var records := Attempts(scripts, limit);
            Acks(records) > 1 <==> exists i, j | 0 <= i < j < |records| :: IsLost(records[i]) && IsAcked(records[j])
  {
    hide Made, Attempts, AcksIn, IsAcked;
    var records := Attempts(scripts, limit);
    AttemptsEndAtAnAck(scripts, limit);
    forall r <- records ensures AcksIn(r.effects) == if IsAcked(r) then 1 else 0 {
      var i :| 0 <= i < |records| && records[i] == r;
      OneAttempt(scripts[i]);
    }
    AckedOnce(records);
    if IsTwice(records) {
      var i, j :| 0 <= i < j < |records| && IsAcked(records[i]) && IsAcked(records[j]);
      assert IsLost(records[i]) && IsAcked(records[j]);
    }
  }

  // So while no process dies behind an acknowledgement, at most one send is acknowledged, the attempt that
  // got it is the last, and `processed` is written in that attempt and no other.
  lemma {:induction false} DeliveredAtMostOnce(scripts: seq<Script>, limit: nat)
    ensures var records := Attempts(scripts, limit);
            |records| <= limit + 1
            && ((forall r <- records :: !IsLost(r)) ==>
                  && Acks(records) <= 1
                  && forall i | 0 <= i < |records| ::
                       && (IsAcked(records[i]) ==> i == |records| - 1)
                       && (Marked(Processed) in records[i].effects <==> IsAcked(records[i])))
  {
    hide Attempts, Acks, Undisturbed;
    var records := Attempts(scripts, limit);
    AttemptsEndAtAnAck(scripts, limit);
    DeliveredTwiceExactly(scripts, limit);
    forall i | 0 <= i < |records| && !IsLost(records[i])
      ensures Marked(Processed) in records[i].effects <==> IsAcked(records[i])
    {
      OneAttempt(scripts[i]);
    }
  }

  // The comparison is sent, and the process dies before it has written `processed`; the retry sends again.
  lemma {:induction false} DeathBehindTheSend(limit: nat)
    requires limit > 0
    ensures var script := Script(WorkDone, Acked, Acked, Some(2));
            Acks(Attempts([script, script.(crash := None)], limit)) == 2
  {
    var script := Script(WorkDone, Acked, Acked, Some(2));
    var scripts := [script, script.(crash := None)];
    assert Made(script) == Record([Marked(Failed), Acknowledged], Died);
    assert scripts[1..] == [script.(crash := None)];
    var records := Attempts(scripts, limit);
    assert records == [Made(script)] + Attempts(scripts[1..], limit - 1);
    assert Attempts(scripts[1..], limit - 1) == [Made(scripts[1])];
    assert IsLost(records[0]) && IsAcked(records[1]) by { assert Made(scripts[1]).effects[1] == Acknowledged; }
    OneAttempt(script);
    OneAttempt(scripts[1]);
    assert records[1..] == [Made(scripts[1])] && records[1..][1..] == [];
    assert Acks(records[1..]) == AcksIn(Made(scripts[1]).effects) + Acks([]);
  }

  // ---------------------------------------------------------------- how long a job may live

  function Pow2(k: nat): nat { if k == 0 then 1 else 2 * Pow2(k - 1) }

  function MaxLifetime(limit: nat): int {
    RETENTION_SECONDS + (limit + 1) * EXPIRE_SECONDS + RETRY_DELAY_SECONDS * (Pow2(limit + 1) - 2)
  }

  // All attempts and, before the k-th retry, a pause that doubles: two delays, four, eight ...
  function TimeOf(limit: nat): int {
    if limit == 0 then EXPIRE_SECONDS else TimeOf(limit - 1) + RETRY_DELAY_SECONDS * Pow2(limit) + EXPIRE_SECONDS
  }

  const MAX_LIFETIME_SECONDS := MaxLifetime(RETRY_LIMIT)

  // The constant is the retention plus all attempts and pauses, whatever the retry limit.
  lemma {:induction false} LifetimeCoversEveryRetry(limit: nat)
    ensures MaxLifetime(limit) == RETENTION_SECONDS + TimeOf(limit)
  {
    if limit > 0 { LifetimeCoversEveryRetry(limit - 1); } else { assert Pow2(1) == 2; }
  }

  // With the shipped limit of three retries: four attempts, pauses of 2, 4 and 8 seconds, and the retention.
  lemma {:induction false} ShippedLifetime()
    ensures MAX_LIFETIME_SECONDS == RETENTION_SECONDS + 4 * EXPIRE_SECONDS + 2 + 4 + 8 == 1514
    ensures MAX_LIFETIME_SECONDS == RETENTION_SECONDS + TimeOf(RETRY_LIMIT)
  {
    LifetimeCoversEveryRetry(RETRY_LIMIT);
    assert Pow2(1) == 2 && Pow2(2) == 4 && Pow2(3) == 8 && Pow2(4) == 16;
  }
}
