/**
 * Conversation idempotency (packages/cardano-agent/src/conversations.ts:42-226,
 * apps/telegram-bot/src/agentWorker.ts:61-107, packages/cardano-agent/src/agent/answerQuestion.ts:505-573).
 *
 * A worker answers an update by storing its question, looking for an answer stored earlier, working
 * one out if there is none, and storing it.  Any number of attempts run at once, several for the
 * same update among them, and each may fail or crash between any two statements.  `append` is one
 * transaction; the rows it inserts are unique keys, so it takes effect as a whole or not at all.
 */
module Conversations {
  import opened Wrappers

  datatype Role = User | Assistant

  // An update belongs to one user, one chat and one question.
  datatype Job = Job(update: nat, user: string, chat: string, text: string)

  datatype Key = Key(update: nat, role: Role)
  datatype Reservation = Reservation(first: bool, messageId: Option<nat>)
  datatype Message = Message(user: string, chat: string, role: Role, text: string)

  datatype Tables = Tables(users: set<string>, reservations: map<Key, Reservation>, messages: map<nat, Message>,
                           nextId: nat)

  function FirstOf(t: Tables, job: Job, role: Role): bool {
    if Key(job.update, role) in t.reservations then t.reservations[Key(job.update, role)].first
    else job.user !in t.users
  }

  // What a committed append leaves, given the message id the sequence handed out.
  function Appended(t: Tables, job: Job, role: Role, text: string): Tables {
    if Key(job.update, role) in t.reservations then t.(users := t.users + {job.user})
    else Tables(t.users + {job.user},
                t.reservations[Key(job.update, role) := Reservation(job.user !in t.users, Some(t.nextId))],
                t.messages[t.nextId := Message(job.user, job.chat, role, text)],
                t.nextId + 1)
  }

  // findForUpdate, on reservations that have their message.
  function Found(t: Tables, job: Job, role: Role): Option<string> {
    if Key(job.update, role) !in t.reservations then None
    else
      match t.reservations[Key(job.update, role)].messageId
      case None => None
      case Some(id) =>
        if id in t.messages && t.messages[id].user == job.user && t.messages[id].chat == job.chat
            && t.messages[id].role == role
        then Some(t.messages[id].text) else None
  }

  // ---------------------------------------------------------------- the repository

  class ConversationRepository {
    var tables: Tables

    constructor ()
      ensures tables == Tables({}, map[], map[], 1)
    {
      tables := Tables({}, map[], map[], 1);
    }

    // `interrupt` statements succeed before one fails; the transaction is then rolled back, though a
    // message id taken from the sequence stays taken.
    method Append(job: Job, role: Role, text: string, isSecret: bool, interrupt: nat) returns (r: Result<bool>)
      requires Key(job.update, role) in tables.reservations || tables.nextId !in tables.messages
      modifies this
      ensures r.Ok? <==> !isSecret && interrupt > (if Key(job.update, role) in old(tables).reservations then 2 else 5)
      ensures r.Ok? ==> tables == Appended(old(tables), job, role, text) && r.value == FirstOf(old(tables), job, role)
      ensures r.Thrown? ==> tables == old(tables).(nextId := tables.nextId) && tables.nextId >= old(tables.nextId)
    {
      if isSecret { return Thrown; }
      var before := tables;
      if interrupt == 0 { return Thrown; }
      var firstInteraction := job.user !in tables.users;
      tables := tables.(users := tables.users + {job.user});
      if interrupt == 1 { tables := before; return Thrown; }
      var key := Key(job.update, role);
      if key in tables.reservations {
        if interrupt == 2 { tables := before; return Thrown; }
        return Ok(tables.reservations[key].first);
      }
      tables := tables.(reservations := tables.reservations[key := Reservation(firstInteraction, None)]);
      if interrupt == 2 { tables := before; return Thrown; }
      var id := tables.nextId;
      tables := tables.(nextId := id + 1);
      if interrupt == 3 { tables := before.(nextId := id + 1); return Thrown; }
      tables := tables.(messages := tables.messages[id := Message(job.user, job.chat, role, text)]);
      if interrupt == 4 { tables := before.(nextId := id + 1); return Thrown; }
      // The row reserved above is still unlinked, so this update touches exactly one row.
      tables := tables.(reservations := tables.reservations[key := tables.reservations[key].(messageId := Some(id))]);
      if interrupt == 5 { tables := before.(nextId := id + 1); return Thrown; }
      return Ok(firstInteraction);
    }

    method FindForUpdate(job: Job, role: Role) returns (found: Option<string>)
      ensures found == Found(tables, job, role)
    {
      var key := Key(job.update, role);
      if key !in tables.reservations { return None; }
      var messageId := tables.reservations[key].messageId;
      if messageId == None || messageId.value !in tables.messages { return None; }
      var row := tables.messages[messageId.value];
      if row.user != job.user || row.chat != job.chat || row.role != role { return None; }
      return Some(row.text);
    }
  }

  // ---------------------------------------------------------------- attempts

  // `Working` retrieves and completes; `Ready` holds the answer and whether it is still to be stored.
  datatype Phase =
    | Begun
    | UserStored(first: bool)
    | Looked(first: bool, existing: Option<string>)
    | Working(first: bool)
    | Ready(text: string, store: bool)
    | Ended

  // `late` remembers whether the answer was already stored when the attempt began; `worked` and
  // `stored` whether it retrieved or completed, and whether it stored an answer of its own.
  datatype Attempt = Attempt(job: Job, phase: Phase, late: bool, worked: bool, stored: bool)

  datatype System = System(tables: Tables, attempts: seq<Attempt>)

  datatype Step =
    | Begin(job: Job)
    | AppendUser(i: nat, works: bool)
    | Look(i: nat, works: bool)
    | Decide(i: nat, quick: Option<string>)
    | Work(i: nat, text: string)
    | AppendAssistant(i: nat, works: bool)
    | Crash(i: nat)
    | LoseId

  predicate IsStored(t: Tables, update: nat) { Key(update, Assistant) in t.reservations }

  function Put(s: System, i: nat, a: Attempt): System
    requires i < |s.attempts|
  {
    s.(attempts := s.attempts[i := a])
  }

  // Whose each update is.
  type Owners = nat -> Job

  predicate Next(owner: Owners, s: System, step: Step, s': System) {
    match step
    case Begin(job) =>
      job == owner(job.update)
      && s' == s.(attempts := s.attempts + [Attempt(job, Begun, IsStored(s.tables, job.update), false, false)])
    case LoseId => s' == s.(tables := s.tables.(nextId := s.tables.nextId + 1))
    case Crash(i) => i < |s.attempts| && s' == Put(s, i, s.attempts[i].(phase := Ended))
    // A failed append or lookup: answerQuestion answers without `persisted`, and nothing is stored.
    case AppendUser(i, works) =>
      i < |s.attempts| && s.attempts[i].phase.Begun?
      && var a := s.attempts[i];
         s' == if works then Put(s, i, a.(phase := UserStored(FirstOf(s.tables, a.job, User))))
                             .(tables := Appended(s.tables, a.job, User, a.job.text))
               else Put(s, i, a.(phase := Ended))
    case Look(i, works) =>
      i < |s.attempts| && s.attempts[i].phase.UserStored?
      && var a := s.attempts[i];
         s' == Put(s, i, a.(phase := if works then Looked(a.phase.first, Found(s.tables, a.job, Assistant)) else Ended))
    // A stored answer is given again; otherwise a refusal or greeting is quick, and the rest is worked out.
    case Decide(i, quick) =>
      i < |s.attempts| && s.attempts[i].phase.Looked?
      && var a := s.attempts[i];
         s' == Put(s, i, match a.phase.existing
                         case Some(text) => a.(phase := Ready(text, false))
                         case None =>
                           if quick.Some? then a.(phase := Ready(quick.value, true))
                           else a.(phase := Working(a.phase.first), worked := true))
    case Work(i, text) =>
      i < |s.attempts| && s.attempts[i].phase.Working? && s' == Put(s, i, s.attempts[i].(phase := Ready(text, true)))
    case AppendAssistant(i, works) =>
      i < |s.attempts| && s.attempts[i].phase.Ready?
      && var a := s.attempts[i];
         s' == if !a.phase.store || !works then Put(s, i, a.(phase := Ended))
               else Put(s, i, a.(phase := Ended, stored := !IsStored(s.tables, a.job.update)))
                    .(tables := Appended(s.tables, a.job, Assistant, a.phase.text))
  }

  predicate Initial(s: System) {
    s.tables == Tables({}, map[], map[], 1) && s.attempts == []
  }

  ghost predicate IsRun(owner: Owners, states: seq<System>, steps: seq<Step>) {
    && |states| == |steps| + 1 && Initial(states[0])
    && (forall k | 0 <= k < |steps| :: Next(owner, states[k], steps[k], states[k + 1]))
  }

  ghost predicate Reachable(owner: Owners, s: System) {
    exists states, steps :: IsRun(owner, states, steps) && states[|steps|] == s
  }

  // ---------------------------------------------------------------- the invariant

  predicate IsLink(t: Tables, id: nat, k: Key) { k in t.reservations && t.reservations[k].messageId == Some(id) }

  // A reservation and its message belong together.
  predicate IsLinked(owner: Owners, t: Tables, k: Key) {
    && k in t.reservations && t.reservations[k].messageId.Some? && t.reservations[k].messageId.value in t.messages
    && var m := t.messages[t.reservations[k].messageId.value];
       m.role == k.role && m.user == owner(k.update).user && m.chat == owner(k.update).chat
  }

  // Every reservation has a message of its own, and every message its reservation.
  ghost predicate Linked(owner: Owners, t: Tables) {
    && (forall k <- t.reservations :: IsLinked(owner, t, k))
    && (forall k, l | k in t.reservations && l in t.reservations
        && t.reservations[k].messageId == t.reservations[l].messageId :: k == l)
    && (forall id <- t.messages :: id < t.nextId && exists k :: IsLink(t, id, k))
  }

  predicate IsFirst(owner: Owners, t: Tables, u: nat, user: string) {
    Key(u, User) in t.reservations && t.reservations[Key(u, User)].first && owner(u).user == user
  }

  // The first interaction of a user is one update's.
  ghost predicate FirstOnce(owner: Owners, t: Tables) {
    && (forall k <- t.reservations :: owner(k.update).user in t.users && (t.reservations[k].first ==> k.role.User?))
    && (forall user <- t.users :: exists u :: IsFirst(owner, t, u, user))
    && (forall u, v, user | IsFirst(owner, t, u, user) && IsFirst(owner, t, v, user) :: u == v)
  }

  predicate SoundAttempt(owner: Owners, t: Tables, a: Attempt) {
    && a.job == owner(a.job.update)
    && (a.late ==> IsStored(t, a.job.update) && !a.worked && !a.stored && !a.phase.Working?
                   && (a.phase.Looked? ==> a.phase.existing.Some?) && (a.phase.Ready? ==> !a.phase.store))
    && (a.phase.UserStored? || a.phase.Looked? || a.phase.Working? || a.phase.Ready? ==>
        Key(a.job.update, User) in t.reservations)
    && (a.phase.Looked? && a.phase.existing.Some? ==> Found(t, a.job, Assistant) == a.phase.existing)
    && (a.phase.Ready? && !a.phase.store ==> Found(t, a.job, Assistant) == Some(a.phase.text))
    && (a.phase.UserStored? || a.phase.Looked? || a.phase.Working? ==>
        a.phase.first == t.reservations[Key(a.job.update, User)].first)
  }

  ghost predicate Inv(owner: Owners, s: System) {
    && Linked(owner, s.tables) && FirstOnce(owner, s.tables)
    && forall i | 0 <= i < |s.attempts| :: SoundAttempt(owner, s.tables, s.attempts[i])
  }

  lemma {:induction false} AppendKeepsLinks(owner: Owners, t: Tables, job: Job, role: Role, text: string)
    requires Linked(owner, t) && job == owner(job.update)
    ensures Linked(owner, Appended(t, job, role, text))
  {
    var t' := Appended(t, job, role, text);
    var key := Key(job.update, role);
    if key !in t.reservations {
      forall k | k in t'.reservations ensures IsLinked(owner, t', k) {
        if k != key { assert IsLinked(owner, t, k); }
      }
      forall k, l | k in t'.reservations && l in t'.reservations
          && t'.reservations[k].messageId == t'.reservations[l].messageId
        ensures k == l
      {
        assert k != key ==> IsLinked(owner, t, k);
        assert l != key ==> IsLinked(owner, t, l);
      }
      forall id | id in t'.messages ensures id < t'.nextId && exists k :: IsLink(t', id, k) {
        if id == t.nextId {
          assert IsLink(t', id, key);
        } else {
          var k :| IsLink(t, id, k);
          assert IsLink(t', id, k);
        }
      }
    } else {
      forall k | k in t'.reservations ensures IsLinked(owner, t', k) { assert IsLinked(owner, t, k); }
      forall id | id in t'.messages ensures exists k :: IsLink(t', id, k) {
        var k :| IsLink(t, id, k);
        assert IsLink(t', id, k);
      }
    }
  }

  // A first interaction was one before, or is the new user's.
  lemma {:induction false} FirstStays(owner: Owners, t: Tables, job: Job, role: Role, text: string, u: nat,
                                      user: string)
    requires FirstOnce(owner, t) && job == owner(job.update) && IsFirst(owner, Appended(t, job, role, text), u, user)
    requires role.Assistant? ==> Key(job.update, User) in t.reservations
    ensures (IsFirst(owner, t, u, user) && user in t.users) || (u == job.update && user == job.user && user !in t.users)
  {
    var key := Key(job.update, role);
    if Key(u, User) in t.reservations { assert owner(Key(u, User).update).user in t.users; }
    if role.Assistant? { assert owner(Key(job.update, User).update).user in t.users; }
  }

  // An answer is stored only behind its question, so the user is known by then.
  lemma {:induction false} AppendKeepsFirst(owner: Owners, t: Tables, job: Job, role: Role, text: string)
    requires FirstOnce(owner, t) && job == owner(job.update)
             && (role.Assistant? ==> Key(job.update, User) in t.reservations)
    ensures FirstOnce(owner, Appended(t, job, role, text))
  {
    var t' := Appended(t, job, role, text);
    var key := Key(job.update, role);
    assert forall u, user | IsFirst(owner, t, u, user) :: IsFirst(owner, t', u, user);
    assert forall u, user | IsFirst(owner, t', u, user) && Key(u, User) != key :: IsFirst(owner, t, u, user);
    if job.user !in t.users {
      assert key !in t.reservations;
      assert IsFirst(owner, t', job.update, job.user);
    }
    forall user | user in t'.users ensures exists u :: IsFirst(owner, t', u, user) {
      if user in t.users {
        var u :| IsFirst(owner, t, u, user);
        assert IsFirst(owner, t', u, user);
      }
    }
    forall u, v, user | IsFirst(owner, t', u, user) && IsFirst(owner, t', v, user) ensures u == v {
      FirstStays(owner, t, job, role, text, u, user);
      FirstStays(owner, t, job, role, text, v, user);
    }
  }

  // Rows once inserted stay as they are.
  lemma {:induction false} AppendKeepsRows(t: Tables, job: Job, role: Role, text: string)
    requires forall id <- t.messages :: id < t.nextId
    ensures forall id <- t.messages :: id in Appended(t, job, role, text).messages
                                       && Appended(t, job, role, text).messages[id] == t.messages[id]
    ensures forall k <- t.reservations :: k in Appended(t, job, role, text).reservations
                                          && Appended(t, job, role, text).reservations[k] == t.reservations[k]
    ensures Key(job.update, role) in Appended(t, job, role, text).reservations
  {
  }

  lemma {:induction false} AttemptSurvives(owner: Owners, t: Tables, t': Tables, a: Attempt)
    requires SoundAttempt(owner, t, a)
             && forall k <- t.reservations :: k in t'.reservations && t'.reservations[k] == t.reservations[k]
    requires forall id <- t.messages :: id in t'.messages && t'.messages[id] == t.messages[id]
    ensures SoundAttempt(owner, t', a)
  {
  }

  lemma {:induction false} StoredIsFound(owner: Owners, t: Tables, job: Job)
    requires Linked(owner, t) && job == owner(job.update) && IsStored(t, job.update)
    ensures Found(t, job, Assistant).Some?
  {
    assert IsLinked(owner, t, Key(job.update, Assistant));
  }

  lemma {:induction false} AppendStepKeepsInv(owner: Owners, s: System, step: Step, i: nat, role: Role, text: string,
                                              s': System)
    requires Inv(owner, s) && i < |s.attempts| && s'.tables == Appended(s.tables, s.attempts[i].job, role, text)
    requires |s'.attempts| == |s.attempts| && s'.attempts == s.attempts[i := s'.attempts[i]]
    requires role.Assistant? ==> Key(s.attempts[i].job.update, User) in s.tables.reservations
    requires SoundAttempt(owner, s'.tables, s'.attempts[i])
    ensures Inv(owner, s')
  {
    hide Appended, SoundAttempt, Linked, FirstOnce;
    var job := s.attempts[i].job;
    assert job == owner(job.update) by {
      assert SoundAttempt(owner, s.tables, s.attempts[i]);
      SoundJob(owner, s.tables, s.attempts[i]);
    }
    AppendKeepsLinks(owner, s.tables, job, role, text);
    AppendKeepsFirst(owner, s.tables, job, role, text);
    IdsAreBelow(owner, s.tables);
    AppendKeepsRows(s.tables, job, role, text);
    forall j | 0 <= j < |s'.attempts| ensures SoundAttempt(owner, s'.tables, s'.attempts[j]) {
      if j != i { AttemptSurvives(owner, s.tables, s'.tables, s.attempts[j]); }
    }
  }

  lemma {:induction false} IdsAreBelow(owner: Owners, t: Tables)
    requires Linked(owner, t)
    ensures forall id <- t.messages :: id < t.nextId
  {
  }

  lemma {:induction false} SoundJob(owner: Owners, t: Tables, a: Attempt)
    requires SoundAttempt(owner, t, a)
    ensures a.job == owner(a.job.update)
  {
  }

  lemma {:induction false} NextKeepsInv(owner: Owners, s: System, step: Step, s': System)
    requires Inv(owner, s) && Next(owner, s, step, s')
    ensures Inv(owner, s')
  {
    hide Linked, FirstOnce;
    match step
    case AppendUser(i, works) =>
      if works {
        assert SoundAttempt(owner, s.tables, s.attempts[i]);
        AppendStepKeepsInv(owner, s, step, i, User, s.attempts[i].job.text, s');
      }
    case AppendAssistant(i, works) =>
      assert SoundAttempt(owner, s.tables, s.attempts[i]);
      if works && s.attempts[i].phase.store {
        AppendStepKeepsInv(owner, s, step, i, Assistant, s.attempts[i].phase.text, s');
      }
    case Look(i, works) =>
      assert SoundAttempt(owner, s.tables, s.attempts[i]);
      if s.attempts[i].late { StoredIsFound(owner, s.tables, s.attempts[i].job); }
    case LoseId => LostIdKeepsInv(owner, s, s');
    case Begin(_) =>
    case Crash(i) => assert SoundAttempt(owner, s.tables, s.attempts[i]);
    case Decide(i, _) => assert SoundAttempt(owner, s.tables, s.attempts[i]);
    case Work(i, _) => assert SoundAttempt(owner, s.tables, s.attempts[i]);
  }

  lemma {:induction false} LostIdKeepsInv(owner: Owners, s: System, s': System)
    requires Inv(owner, s) && Next(owner, s, LoseId, s')
    ensures Inv(owner, s')
  {
    var t, t' := s.tables, s'.tables;
    forall k | k in t'.reservations ensures IsLinked(owner, t', k) { assert IsLinked(owner, t, k); }
    forall id | id in t'.messages ensures id < t'.nextId && exists k :: IsLink(t', id, k) {
      var k :| IsLink(t, id, k);
      assert IsLink(t', id, k);
    }
    assert forall u, user :: IsFirst(owner, t', u, user) == IsFirst(owner, t, u, user);
    forall i | 0 <= i < |s'.attempts| ensures SoundAttempt(owner, t', s'.attempts[i]) {
      AttemptSurvives(owner, t, t', s.attempts[i]);
    }
  }

  lemma {:induction false} RunKeepsInv(owner: Owners, states: seq<System>, steps: seq<Step>, k: nat)
    requires IsRun(owner, states, steps) && k < |states|
    ensures Inv(owner, states[k])
  {
    hide Next;
    if k > 0 {
      RunKeepsInv(owner, states, steps, k - 1);
      NextKeepsInv(owner, states[k - 1], steps[k - 1], states[k]);
    }
  }

  lemma {:induction false} ReachableKeepsInv(owner: Owners, s: System)
    requires Reachable(owner, s)
    ensures Inv(owner, s)
  {
    var states, steps :| IsRun(owner, states, steps) && states[|steps|] == s;
    RunKeepsInv(owner, states, steps, |steps|);
  }

  // ---------------------------------------------------------------- theorems

  // At most one message per update and role: each reservation is committed with its own message, and
  // no message is without one.
  lemma {:induction false} OneMessagePerUpdateAndRole(owner: Owners, s: System, id: nat)
    requires Reachable(owner, s) && id in s.tables.messages
    ensures exists k ::
              IsLink(s.tables, id, k) && IsLinked(owner, s.tables, k) && forall l | IsLink(s.tables, id, l) :: l == k
  {
    hide IsLinked;
    ReachableKeepsInv(owner, s);
    var k :| IsLink(s.tables, id, k);
    assert IsLinked(owner, s.tables, k);
  }

  // Exactly one update of a known user is its first interaction, and no answer ever is one.
  lemma {:induction false} ExactlyOneFirstInteraction(owner: Owners, s: System, user: string)
    requires Reachable(owner, s) && user in s.tables.users
    ensures exists u :: IsFirst(owner, s.tables, u, user) && forall v | IsFirst(owner, s.tables, v, user) :: v == u
    ensures forall k <- s.tables.reservations :: s.tables.reservations[k].first ==> k.role.User?
  {
    hide IsFirst, Linked;
    ReachableKeepsInv(owner, s);
    var u :| IsFirst(owner, s.tables, u, user);
  }

  // Every attempt works with the first-interaction mark its update got originally, and no step
  // changes a reservation once it is there.
  lemma {:induction false} RetriesSeeTheOriginal(owner: Owners, s: System, step: Step, s': System)
    requires Reachable(owner, s) && Next(owner, s, step, s')
    ensures forall k <- s.tables.reservations ::
            k in s'.tables.reservations && s'.tables.reservations[k] == s.tables.reservations[k]
    ensures forall i | 0 <= i < |s.attempts|
            && (s.attempts[i].phase.UserStored? || s.attempts[i].phase.Looked? || s.attempts[i].phase.Working?) ::
              var key := Key(s.attempts[i].job.update, User);
              key in s.tables.reservations && s.attempts[i].phase.first == s.tables.reservations[key].first
  {
    hide Linked, FirstOnce;
    ReachableKeepsInv(owner, s);
    assert forall i | 0 <= i < |s.attempts| :: SoundAttempt(owner, s.tables, s.attempts[i]);
    IdsAreBelow(owner, s.tables);
    if step.AppendUser? { AppendKeepsRows(s.tables, s.attempts[step.i].job, User, s.attempts[step.i].job.text); }
  }

  // An attempt that begins once an answer is stored neither retrieves nor completes nor stores
  // another; what it gets ready is the stored answer.
  lemma {:induction false} StoredAnswersAreFinal(owner: Owners, s: System, i: nat)
    requires Reachable(owner, s) && i < |s.attempts| && s.attempts[i].late
    ensures IsStored(s.tables, s.attempts[i].job.update) && !s.attempts[i].worked && !s.attempts[i].stored
    ensures Found(s.tables, s.attempts[i].job, Assistant).Some?
    ensures s.attempts[i].phase.Ready? ==>
            Found(s.tables, s.attempts[i].job, Assistant) == Some(s.attempts[i].phase.text)
  {
    ReachableKeepsInv(owner, s);
    assert SoundAttempt(owner, s.tables, s.attempts[i]);
    StoredIsFound(owner, s.tables, s.attempts[i].job);
  }
}
