/**
 * Queue admission (apps/telegram-bot/src/privateComparisonQueue.ts:126-191 and 485-549).
 *
 * Any number of transactions run `enqueuePgBossJob` at once.  Each claims its update row, then
 * locks its user window row, then its chat window row, and either queues one job and charges both
 * windows, or records a refusal, or rolls back.  A row is locked while a transaction that has not
 * finished inserted it or selected it FOR UPDATE; nothing a transaction wrote is visible to the
 * others before it commits.
 */
module QueueAdmission {
  import opened Wrappers

  const ADMISSION_LIMIT := 10
  const ADMISSION_WINDOW_MS := 60000

  datatype SubjectKind = User | Chat
  datatype Subject = Subject(kind: SubjectKind, id: string)
  datatype Window = Window(startedAt: int, count: int)
  datatype Status = Received | Failed
  datatype Input = Input(updateId: nat, userId: string, chatId: string)

  // `txn` and `at` say which transaction queued the job and the clock value it had read.
  datatype Job = Job(input: Input, at: int, txn: nat)

  // `openedAt` remembers when each window row was inserted; no statement reads it.
  datatype Database = Database(updates: map<nat, Status>, windows: map<Subject, Window>, jobs: seq<Job>,
                               openedAt: map<Subject, int>)

  function UserOf(input: Input): Subject { Subject(User, input.userId) }
  function ChatOf(input: Input): Subject { Subject(Chat, input.chatId) }

  predicate WithinLimit(w: Window, now: int) {
    now - w.startedAt >= ADMISSION_WINDOW_MS || w.count < ADMISSION_LIMIT
  }

  function NextWindow(w: Window, now: int): Window {
    if now - w.startedAt >= ADMISSION_WINDOW_MS then Window(now, 1) else Window(w.startedAt, w.count + 1)
  }

  predicate ValidRow(w: Window) { 0 <= w.count <= ADMISSION_LIMIT }

  // ---------------------------------------------------------------- transactions

  datatype Outcome = Enqueued | Refused | Duplicate | Threw

  datatype Pc = Begin | ReadClock | OpenUser | LockUser | OpenChat | LockChat | Decide | Send | CommitJob
      | CommitRefusal
              | Done(outcome: Outcome)

  // `inserted` holds the window rows this transaction inserted and has not committed yet.
  datatype Txn = Txn(input: Input, pc: Pc, now: int, inserted: map<Subject, Window>, user: Window, chat: Window)

  datatype SendResult = Accepted | NoId | SendFailed

  datatype System = System(db: Database, txns: seq<Txn>)

  datatype Step = Advance(i: nat, now: int, send: SendResult) | Crash(i: nat)

  function Rank(pc: Pc): nat {
    match pc
    case Begin => 0
    case ReadClock => 1
    case OpenUser => 2
    case LockUser => 3
    case OpenChat => 4
    case LockChat => 5
    case Decide => 6
    case Send => 7
    case CommitJob => 8
    case CommitRefusal => 8
    case Done(_) => 9
  }

  predicate IsActive(t: Txn) { 0 < Rank(t.pc) < 9 }

  datatype Resource = UpdateRow(updateId: nat) | WindowRow(subject: Subject)

  predicate Holds(t: Txn, r: Resource) {
    && IsActive(t)
    && match r
       case UpdateRow(u) => u == t.input.updateId
       case WindowRow(s) =>
         || s in t.inserted
         || (s == UserOf(t.input) && Rank(t.pc) > Rank(LockUser))
         || (s == ChatOf(t.input) && Rank(t.pc) > Rank(LockChat))
  }

  datatype Wanted = Nothing | Wants(resource: Resource)

  // INSERT ... ON CONFLICT DO NOTHING waits only for an uncommitted insert of the same key; on a
  // committed row it does nothing and takes no lock.
  function WantedBy(db: Database, t: Txn): Wanted {
    match t.pc
    case Begin => Wants(UpdateRow(t.input.updateId))
    case OpenUser => if UserOf(t.input) in db.windows then Nothing else Wants(WindowRow(UserOf(t.input)))
    case LockUser => Wants(WindowRow(UserOf(t.input)))
    case OpenChat => if ChatOf(t.input) in db.windows then Nothing else Wants(WindowRow(ChatOf(t.input)))
    case LockChat => Wants(WindowRow(ChatOf(t.input)))
    case _ => Nothing
  }

  predicate IsBlocked(s: System, i: nat)
    requires i < |s.txns|
  {
    var wanted := WantedBy(s.db, s.txns[i]);
    wanted.Wants? && exists j | 0 <= j < |s.txns| :: j != i && Holds(s.txns[j], wanted.resource)
  }

  // The row a SELECT ... FOR UPDATE returns: the transaction's own insert or the committed row.
  function RowSeen(db: Database, t: Txn, s: Subject): Window {
    if s in t.inserted then t.inserted[s] else if s in db.windows then db.windows[s] else Window(t.now, 0)
  }

  function Opened(db: Database, t: Txn, s: Subject): map<Subject, Window> {
    if s in db.windows then t.inserted else t.inserted[s := Window(t.now, 0)]
  }

  function StartTimes(inserted: map<Subject, Window>): map<Subject, int> {
    map s | s in inserted :: inserted[s].startedAt
  }

  function WindowsSaved(db: Database, t: Txn): Database {
    db.(windows := db.windows + t.inserted, openedAt := db.openedAt + StartTimes(t.inserted))
  }

  function WindowsCharged(db: Database, t: Txn): Database {
    var rows := db.windows + t.inserted;
    WindowsSaved(db, t).(windows := rows[UserOf(t.input) := NextWindow(t.user, t.now)]
                                        [ChatOf(t.input) := NextWindow(t.chat, t.now)])
  }

  function RefusalCommitted(db: Database, t: Txn): Database {
    WindowsSaved(db, t).(updates := db.updates[t.input.updateId := Failed])
  }

  function JobCommitted(db: Database, t: Txn, i: nat): Database {
    WindowsCharged(db, t).(updates := db.updates[t.input.updateId := Received],
                           jobs := db.jobs + [Job(t.input, t.now, i)])
  }

  function Advanced(db: Database, t: Txn, i: nat, now: int, send: SendResult): (Database, Txn) {
    match t.pc
    case Begin =>
      (db, if t.input.updateId in db.updates then t.(pc := Done(Duplicate)) else t.(pc := ReadClock))
    case ReadClock => (db, t.(pc := OpenUser, now := now))
    case OpenUser => (db, t.(pc := LockUser, inserted := Opened(db, t, UserOf(t.input))))
    case LockUser =>
      var row := RowSeen(db, t, UserOf(t.input));
      (db, if ValidRow(row) then t.(pc := OpenChat, user := row) else t.(pc := Done(Threw)))
    case OpenChat => (db, t.(pc := LockChat, inserted := Opened(db, t, ChatOf(t.input))))
    case LockChat =>
      var row := RowSeen(db, t, ChatOf(t.input));
      (db, if ValidRow(row) then t.(pc := Decide, chat := row) else t.(pc := Done(Threw)))
    case Decide =>
      (db, t.(pc := if WithinLimit(t.user, t.now) && WithinLimit(t.chat, t.now) then Send else CommitRefusal))
    case Send => (db, t.(pc := if send == Accepted then CommitJob else Done(Threw)))
    case CommitRefusal => (RefusalCommitted(db, t), t.(pc := Done(Refused)))
    case CommitJob => (JobCommitted(db, t, i), t.(pc := Done(Enqueued)))
    case Done(_) => (db, t)
  }

  predicate Initial(s: System) {
    && s.db == Database(map[], map[], [], map[])
    && forall i | 0 <= i < |s.txns| :: s.txns[i].pc == Begin && s.txns[i].inserted == map[]
  }

  function After(s: System, i: nat, now: int, send: SendResult): System
    requires i < |s.txns|
  {
    var (db, t) := Advanced(s.db, s.txns[i], i, now, send);
    System(db, s.txns[i := t])
  }

  // A rollback releases the locks and forgets everything the transaction wrote.
  function RolledBack(s: System, i: nat): System
    requires i < |s.txns|
  {
    s.(txns := s.txns[i := s.txns[i].(pc := Done(Threw))])
  }

  ghost predicate Next(s: System, step: Step, s': System) {
    match step
    case Advance(i, now, send) =>
      i < |s.txns| && !s.txns[i].pc.Done? && !IsBlocked(s, i) && s' == After(s, i, now, send)
    case Crash(i) =>
      i < |s.txns| && !s.txns[i].pc.Done? && s' == RolledBack(s, i)
  }

  ghost predicate IsRun(states: seq<System>, steps: seq<Step>) {
    && |states| == |steps| + 1
    && forall k | 0 <= k < |steps| :: Next(states[k], steps[k], states[k + 1])
  }

  ghost predicate Reachable(s: System) {
    exists states, steps :: IsRun(states, steps) && Initial(states[0]) && states[|steps|] == s
  }

  // ---------------------------------------------------------------- the job log, read back

  predicate Charges(job: Job, s: Subject) { UserOf(job.input) == s || ChatOf(job.input) == s }

  // The clock values of the jobs that charge `s`, in commit order.
  function Times(jobs: seq<Job>, s: Subject): seq<int> {
    if |jobs| == 0 then []
    else
      var last, earlier := jobs[|jobs| - 1], Times(jobs[..|jobs| - 1], s);
      if Charges(last, s) then earlier + [last.at] else earlier
  }

  // The window row after charging it at each of `times`, and whether every charge was allowed.
  function Replay(w: Window, times: seq<int>): Window {
    if |times| == 0 then w else NextWindow(Replay(w, times[..|times| - 1]), times[|times| - 1])
  }

  predicate AllAllowed(w: Window, times: seq<int>) {
    |times| == 0 || (AllAllowed(w, times[..|times| - 1])
                     && WithinLimit(Replay(w, times[..|times| - 1]), times[|times| - 1]))
  }

  lemma {:induction false} AllowedStaysValid(w: Window, times: seq<int>)
    requires ValidRow(w) && AllAllowed(w, times)
    ensures ValidRow(Replay(w, times))
    ensures |times| > 0 ==> Replay(w, times).count > 0
  {
    if |times| > 0 { AllowedStaysValid(w, times[..|times| - 1]); }
  }

  lemma TimesOfOneMore(jobs: seq<Job>, job: Job, s: Subject)
    ensures Times(jobs + [job], s) == if Charges(job, s) then Times(jobs, s) + [job.at] else Times(jobs, s)
  {
    assert (jobs + [job])[..|jobs|] == jobs;
  }

  lemma ReplayOneMore(w: Window, times: seq<int>, at: int)
    ensures Replay(w, times + [at]) == NextWindow(Replay(w, times), at)
    ensures AllAllowed(w, times + [at]) <==> AllAllowed(w, times) && WithinLimit(Replay(w, times), at)
  {
    assert (times + [at])[..|times|] == times;
  }

  // ---------------------------------------------------------------- invariant

  ghost predicate Excludes(txns: seq<Txn>) {
    forall i, j, r | 0 <= i < |txns| && 0 <= j < |txns| && Holds(txns[i], r) && Holds(txns[j], r) :: i == j
  }

  // Each window row is the replay of exactly the jobs that charge its subject.
  ghost predicate Balanced(db: Database, s: Subject) {
    if s in db.windows then
      && s in db.openedAt
      && AllAllowed(Window(db.openedAt[s], 0), Times(db.jobs, s))
      && db.windows[s] == Replay(Window(db.openedAt[s], 0), Times(db.jobs, s))
    else Times(db.jobs, s) == []
  }

  ghost predicate SoundDatabase(db: Database) {
    && (forall k | 0 <= k < |db.jobs| ::
        db.jobs[k].input.updateId in db.updates && db.updates[db.jobs[k].input.updateId] == Received)
    && (forall k, m | 0 <= k < m < |db.jobs| :: db.jobs[k].input.updateId != db.jobs[m].input.updateId)
    && forall s :: Balanced(db, s)
  }

  ghost predicate SoundTxn(db: Database, t: Txn) {
    && (t.pc == Begin ==> t.inserted == map[])
    && (IsActive(t) ==> SoundActive(db, t))
  }

  ghost predicate SoundActive(db: Database, t: Txn) {
      && t.input.updateId !in db.updates
      && (forall s <- t.inserted ::
          s !in db.windows && t.inserted[s] == Window(t.now, 0) && (s == UserOf(t.input) || s == ChatOf(t.input)))
      && (UserOf(t.input) in t.inserted ==> Rank(t.pc) > Rank(OpenUser))
      && (ChatOf(t.input) in t.inserted ==> Rank(t.pc) > Rank(OpenChat))
      && (Rank(t.pc) > Rank(OpenUser) ==> UserOf(t.input) in db.windows || UserOf(t.input) in t.inserted)
      && (Rank(t.pc) > Rank(OpenChat) ==> ChatOf(t.input) in db.windows || ChatOf(t.input) in t.inserted)
      && (Rank(t.pc) > Rank(LockUser) ==> t.user == RowSeen(db, t, UserOf(t.input)))
      && (Rank(t.pc) > Rank(LockChat) ==> t.chat == RowSeen(db, t, ChatOf(t.input)))
      && (t.pc == Send || t.pc == CommitJob ==> WithinLimit(t.user, t.now) && WithinLimit(t.chat, t.now))
  }

  ghost predicate HasJob(db: Database, i: nat) {
    exists k :: 0 <= k < |db.jobs| && db.jobs[k].txn == i
  }

  ghost predicate JobsMatch(s: System) {
    && (forall i | 0 <= i < |s.txns| :: s.txns[i].pc == Done(Enqueued) <==> HasJob(s.db, i))
    && (forall k | 0 <= k < |s.db.jobs| :: s.db.jobs[k].txn < |s.txns|
          && s.db.jobs[k].input == s.txns[s.db.jobs[k].txn].input)
  }

  ghost predicate Inv(s: System) {
    && Excludes(s.txns) && SoundDatabase(s.db) && JobsMatch(s)
    && forall i | 0 <= i < |s.txns| :: SoundTxn(s.db, s.txns[i])
  }

  // ---------------------------------------------------------------- preservation

  // What a transaction newly holds after a step is what it waited for, so nobody else holds it.
  lemma AdvanceKeepsExclusion(s: System, i: nat, now: int, send: SendResult)
    requires Inv(s) && i < |s.txns| && !s.txns[i].pc.Done? && !IsBlocked(s, i)
    ensures Excludes(After(s, i, now, send).txns)
  {
    var t, t' := s.txns[i], After(s, i, now, send).txns[i];
    forall r | Holds(t', r) && !Holds(t, r)
      ensures WantedBy(s.db, t) == Wants(r)
    {
      assert SoundTxn(s.db, t);
    }
  }

  // A commit leaves alone every row another transaction holds, and never deletes a window row.
  ghost predicate LeavesAlone(db: Database, db': Database, o: Txn) {
    && (o.input.updateId in db'.updates ==> o.input.updateId in db.updates)
    && (forall s <- db.windows :: s in db'.windows)
    && (forall s | Holds(o, WindowRow(s)) ::
          (s in db'.windows <==> s in db.windows) && (s in db.windows ==> db'.windows[s] == db.windows[s]))
  }

  lemma CommitLeavesOthersAlone(db: Database, db': Database, t: Txn, o: Txn)
    requires SoundTxn(db, t) && IsActive(t) && Rank(t.pc) > Rank(LockChat) && IsActive(o)
    requires forall r :: Holds(t, r) ==> !Holds(o, r)
    requires db' == RefusalCommitted(db, t) || exists i :: db' == JobCommitted(db, t, i)
    ensures LeavesAlone(db, db', o)
  {
    assert Holds(t, UpdateRow(t.input.updateId)) && Holds(o, UpdateRow(o.input.updateId));
    assert Holds(t, WindowRow(UserOf(t.input))) && Holds(t, WindowRow(ChatOf(t.input)));
  }

  lemma OthersStaySound(db: Database, db': Database, o: Txn)
    requires SoundTxn(db, o) && (IsActive(o) ==> LeavesAlone(db, db', o))
    ensures SoundTxn(db', o)
  {
    if IsActive(o) {
      forall s | s in o.inserted ensures s !in db'.windows { assert Holds(o, WindowRow(s)); }
      if Rank(o.pc) > Rank(LockUser) { assert Holds(o, WindowRow(UserOf(o.input))); }
      if Rank(o.pc) > Rank(LockChat) { assert Holds(o, WindowRow(ChatOf(o.input))); }
    }
  }

  lemma RefusalKeepsBalance(db: Database, t: Txn)
    requires SoundDatabase(db) && SoundTxn(db, t) && IsActive(t)
    ensures SoundDatabase(RefusalCommitted(db, t))
  {
    var db' := RefusalCommitted(db, t);
    forall s ensures Balanced(db', s) { assert Balanced(db, s); }
  }

  lemma JobBalancesSubject(db: Database, t: Txn, i: nat, s: Subject)
    requires Balanced(db, s) && SoundTxn(db, t) && t.pc == CommitJob
    ensures Balanced(JobCommitted(db, t, i), s)
  {
    var db' := JobCommitted(db, t, i);
    var times := Times(db.jobs, s);
    TimesOfOneMore(db.jobs, Job(t.input, t.now, i), s);
    if Charges(Job(t.input, t.now, i), s) {
      assert s in db'.openedAt && db'.windows[s] == NextWindow(RowSeen(db, t, s), t.now);
      assert WithinLimit(RowSeen(db, t, s), t.now);
      assert RowSeen(db, t, s) == Replay(Window(db'.openedAt[s], 0), times);
      ReplayOneMore(Window(db'.openedAt[s], 0), times, t.now);
    }
  }

  lemma JobKeepsBalance(db: Database, t: Txn, i: nat)
    requires SoundDatabase(db) && SoundTxn(db, t) && t.pc == CommitJob
    ensures SoundDatabase(JobCommitted(db, t, i))
  {
    forall s ensures Balanced(JobCommitted(db, t, i), s) {
      assert Balanced(db, s);
      JobBalancesSubject(db, t, i, s);
    }
  }

  lemma CommitKeepsInv(s: System, i: nat, now: int, send: SendResult)
    requires Inv(s) && i < |s.txns| && (s.txns[i].pc == CommitJob || s.txns[i].pc == CommitRefusal)
    ensures Inv(After(s, i, now, send))
  {
    var t, s' := s.txns[i], After(s, i, now, send);
    assert SoundTxn(s.db, t);
    AdvanceKeepsExclusion(s, i, now, send);
    if t.pc == CommitJob { JobKeepsBalance(s.db, t, i); } else { RefusalKeepsBalance(s.db, t); }
    forall j | 0 <= j < |s'.txns| ensures SoundTxn(s'.db, s'.txns[j]) {
      if j != i {
        if IsActive(s.txns[j]) { CommitLeavesOthersAlone(s.db, s'.db, t, s.txns[j]); }
        OthersStaySound(s.db, s'.db, s.txns[j]);
      }
    }
    CommitKeepsJobs(s, i, now, send);
  }

  lemma CommitKeepsJobs(s: System, i: nat, now: int, send: SendResult)
    requires Inv(s) && i < |s.txns| && (s.txns[i].pc == CommitJob || s.txns[i].pc == CommitRefusal)
    ensures JobsMatch(After(s, i, now, send))
  {
    var t, s' := s.txns[i], After(s, i, now, send);
    forall j | 0 <= j < |s'.txns| ensures s'.txns[j].pc == Done(Enqueued) <==> HasJob(s'.db, j) {
      if t.pc == CommitJob {
        assert s'.db.jobs[|s.db.jobs|].txn == i;
        if HasJob(s.db, j) {
          var k :| 0 <= k < |s.db.jobs| && s.db.jobs[k].txn == j;
          assert s'.db.jobs[k].txn == j;
        }
      }
    }
  }

  lemma UserStepsStaySound(db: Database, t: Txn, i: nat, now: int, send: SendResult)
    requires SoundTxn(db, t) && Rank(t.pc) <= Rank(LockUser)
    ensures SoundTxn(db, Advanced(db, t, i, now, send).1)
  {
  }

  lemma ChatStepsStaySound(db: Database, t: Txn, i: nat, now: int, send: SendResult)
    requires SoundTxn(db, t) && Rank(LockUser) < Rank(t.pc) <= Rank(LockChat)
    ensures SoundTxn(db, Advanced(db, t, i, now, send).1)
  {
  }

  lemma LocalStaysSound(db: Database, t: Txn, i: nat, now: int, send: SendResult)
    requires SoundTxn(db, t) && t.pc != CommitJob && t.pc != CommitRefusal
    ensures SoundTxn(db, Advanced(db, t, i, now, send).1)
  {
    if Rank(t.pc) <= Rank(LockUser) {
      UserStepsStaySound(db, t, i, now, send);
    } else if Rank(t.pc) <= Rank(LockChat) {
      ChatStepsStaySound(db, t, i, now, send);
    }
  }

  lemma LocalKeepsInv(s: System, i: nat, now: int, send: SendResult)
    requires Inv(s) && i < |s.txns| && !s.txns[i].pc.Done? && !IsBlocked(s, i)
    requires s.txns[i].pc != CommitJob && s.txns[i].pc != CommitRefusal
    ensures Inv(After(s, i, now, send))
  {
    var s' := After(s, i, now, send);
    assert SoundTxn(s.db, s.txns[i]);
    LocalStaysSound(s.db, s.txns[i], i, now, send);
    AdvanceKeepsExclusion(s, i, now, send);
    assert s'.db == s.db;
    forall j | 0 <= j < |s'.txns| ensures SoundTxn(s'.db, s'.txns[j]) {
      assert j != i ==> SoundTxn(s.db, s.txns[j]);
    }
  }

  lemma CrashKeepsInv(s: System, i: nat)
    requires Inv(s) && i < |s.txns| && !s.txns[i].pc.Done?
    ensures Inv(RolledBack(s, i))
  {
    var s' := RolledBack(s, i);
    forall j | 0 <= j < |s'.txns| ensures SoundTxn(s'.db, s'.txns[j]) {
      assert j != i ==> SoundTxn(s.db, s.txns[j]);
    }
  }

  lemma NextKeepsInv(s: System, step: Step, s': System)
    requires Inv(s) && Next(s, step, s')
    ensures Inv(s')
  {
    match step
    case Crash(i) => CrashKeepsInv(s, i);
    case Advance(i, now, send) =>
      if s.txns[i].pc == CommitJob || s.txns[i].pc == CommitRefusal {
        CommitKeepsInv(s, i, now, send);
      } else {
        LocalKeepsInv(s, i, now, send);
      }
  }

  lemma {:induction false} RunKeepsInv(states: seq<System>, steps: seq<Step>, k: nat)
    requires IsRun(states, steps) && Initial(states[0]) && k < |states|
    ensures Inv(states[k])
  {
    if k > 0 {
      RunKeepsInv(states, steps, k - 1);
      NextKeepsInv(states[k - 1], steps[k - 1], states[k]);
    }
  }

  lemma ReachableInv(s: System)
    requires Reachable(s)
    ensures Inv(s)
  {
    var states, steps :| IsRun(states, steps) && Initial(states[0]) && states[|steps|] == s;
    RunKeepsInv(states, steps, |steps|);
  }

  // ---------------------------------------------------------------- no deadlock

  ghost predicate AllDone(s: System) {
    forall i | 0 <= i < |s.txns| :: s.txns[i].pc.Done?
  }

  lemma {:induction false} FurthestUnfinished(txns: seq<Txn>) returns (i: nat)
    requires exists j :: 0 <= j < |txns| && !txns[j].pc.Done?
    ensures i < |txns| && !txns[i].pc.Done?
    ensures forall j | 0 <= j < |txns| && !txns[j].pc.Done? :: Rank(txns[j].pc) <= Rank(txns[i].pc)
  {
    var last := |txns| - 1;
    if j :| 0 <= j < last && !txns[j].pc.Done? {
      assert !txns[..last][j].pc.Done?;
      i := FurthestUnfinished(txns[..last]);
      if !txns[last].pc.Done? && Rank(txns[last].pc) > Rank(txns[i].pc) { i := last; }
      forall j | 0 <= j < |txns| && !txns[j].pc.Done? ensures Rank(txns[j].pc) <= Rank(txns[i].pc) {
        if j < last { assert !txns[..last][j].pc.Done?; }
      }
    } else {
      i := last;
    }
  }

  // Whoever holds the row a transaction waits for is strictly further along than it.
  lemma HolderIsAhead(s: System, i: nat, j: nat)
    requires Inv(s) && i < |s.txns| && j < |s.txns| && i != j
    requires var wanted := WantedBy(s.db, s.txns[i]); wanted.Wants? && Holds(s.txns[j], wanted.resource)
    ensures Rank(s.txns[j].pc) > Rank(s.txns[i].pc) && !s.txns[j].pc.Done?
  {
    assert SoundTxn(s.db, s.txns[i]) && SoundTxn(s.db, s.txns[j]);
    var wanted := WantedBy(s.db, s.txns[i]);
    assert !Holds(s.txns[i], wanted.resource);
  }

  // In no reachable state is every unfinished transaction waiting.
  lemma NeverDeadlocked(s: System) returns (i: nat)
    requires Reachable(s) && !AllDone(s)
    ensures i < |s.txns| && !s.txns[i].pc.Done? && !IsBlocked(s, i)
  {
    ReachableInv(s);
    i := FurthestUnfinished(s.txns);
    if IsBlocked(s, i) {
      var wanted := WantedBy(s.db, s.txns[i]);
      var j :| 0 <= j < |s.txns| && j != i && Holds(s.txns[j], wanted.resource);
      HolderIsAhead(s, i, j);
    }
  }

  function Remaining(txns: seq<Txn>): nat {
    if |txns| == 0 then 0 else Remaining(txns[..|txns| - 1]) + 9 - Rank(txns[|txns| - 1].pc)
  }

  lemma {:induction false} RemainingAfter(txns: seq<Txn>, i: nat, t: Txn)
    requires i < |txns|
    ensures Remaining(txns[i := t]) == Remaining(txns) + Rank(txns[i].pc) - Rank(t.pc)
  {
    var last := |txns| - 1;
    if i < last {
      assert txns[i := t][..last] == txns[..last][i := t];
      RemainingAfter(txns[..last], i, t);
    } else {
      assert txns[i := t][..last] == txns[..last];
    }
  }

  lemma ReachableNext(s: System, step: Step, s': System)
    requires Reachable(s) && Next(s, step, s')
    ensures Reachable(s')
  {
    var states, steps :| IsRun(states, steps) && Initial(states[0]) && states[|steps|] == s;
    var more, moreSteps := states + [s'], steps + [step];
    forall k | 0 <= k < |moreSteps| ensures Next(more[k], moreSteps[k], more[k + 1]) {
      if k < |steps| { assert Next(states[k], steps[k], states[k + 1]); }
    }
    assert IsRun(more, moreSteps) && Initial(more[0]) && more[|moreSteps|] == s';
  }

  lemma RunFrom(s: System, step: Step, rest: seq<System>, restSteps: seq<Step>)
    requires IsRun(rest, restSteps) && Next(s, step, rest[0])
    ensures IsRun([s] + rest, [step] + restSteps)
  {
    var states, steps := [s] + rest, [step] + restSteps;
    forall k | 0 <= k < |steps| ensures Next(states[k], steps[k], states[k + 1]) {
      if k > 0 { assert Next(rest[k - 1], restSteps[k - 1], rest[k]); }
    }
  }

  // From every reachable state all transactions can run to their end, with nothing failing, in at
  // most nine statements each.
  lemma {:induction false} EveryoneCanFinish(s: System) returns (states: seq<System>, steps: seq<Step>)
    requires Reachable(s)
    ensures IsRun(states, steps) && states[0] == s && AllDone(states[|steps|]) && |steps| <= Remaining(s.txns)
    ensures forall k | 0 <= k < |steps| :: steps[k].Advance? && steps[k].send == Accepted
    decreases Remaining(s.txns)
  {
    if AllDone(s) { return [s], []; }
    var i := NeverDeadlocked(s);
    var step := Advance(i, 0, Accepted);
    var s' := After(s, i, 0, Accepted);
    assert Next(s, step, s');
    ReachableNext(s, step, s');
    RemainingAfter(s.txns, i, s'.txns[i]);
    var rest, restSteps := EveryoneCanFinish(s');
    states, steps := [s] + rest, [step] + restSteps;
    RunFrom(s, step, rest, restSteps);
  }

  // ---------------------------------------------------------------- safety theorems

  // At most one job per update, and it is there exactly when some call returned true for it.
  lemma OneJobPerUpdate(s: System)
    requires Reachable(s)
    ensures forall k, m | 0 <= k < m < |s.db.jobs| :: s.db.jobs[k].input.updateId != s.db.jobs[m].input.updateId
    ensures forall i | 0 <= i < |s.txns| ::
            s.txns[i].pc == Done(Enqueued) <==> exists k :: 0 <= k < |s.db.jobs| && s.db.jobs[k].txn == i
    ensures forall k | 0 <= k < |s.db.jobs| ::
            s.db.jobs[k].txn < |s.txns| && s.db.jobs[k].input == s.txns[s.db.jobs[k].txn].input
    ensures forall k | 0 <= k < |s.db.jobs| :: s.db.jobs[k].input.updateId in s.db.updates
                                              && s.db.updates[s.db.jobs[k].input.updateId] == Received
  {
    ReachableInv(s);
    forall i | 0 <= i < |s.txns|
      ensures s.txns[i].pc == Done(Enqueued) <==> exists k :: 0 <= k < |s.db.jobs| && s.db.jobs[k].txn == i
    {
      assert s.txns[i].pc == Done(Enqueued) <==> HasJob(s.db, i);
    }
  }

  // Conservation: both rows of every subject are exactly what replaying the queued jobs' charges
  // gives, every one of those charges was within the limit, and no stored count exceeds ten.
  lemma WindowsAreTheReplayOfTheJobs(s: System, subject: Subject)
    requires Reachable(s)
    ensures subject !in s.db.windows ==> Times(s.db.jobs, subject) == []
    ensures subject in s.db.windows ==>
              exists start :: var times := Times(s.db.jobs, subject);
                              AllAllowed(Window(start, 0), times)
                                  && s.db.windows[subject] == Replay(Window(start, 0), times)
    ensures subject in s.db.windows ==> 0 <= s.db.windows[subject].count <= ADMISSION_LIMIT
  {
    ReachableInv(s);
    assert Balanced(s.db, subject);
    if subject in s.db.windows {
      AllowedStaysValid(Window(s.db.openedAt[subject], 0), Times(s.db.jobs, subject));
    }
  }

  // The "Admission state is invalid." throw is unreachable.
  lemma StoredRowsAreNeverInvalid(s: System, i: nat, now: int, send: SendResult)
    requires Reachable(s) && i < |s.txns| && (s.txns[i].pc == LockUser || s.txns[i].pc == LockChat)
    ensures !After(s, i, now, send).txns[i].pc.Done?
  {
    ReachableInv(s);
    var t := s.txns[i];
    assert SoundTxn(s.db, t);
    var subject := if t.pc == LockUser then UserOf(t.input) else ChatOf(t.input);
    if subject !in t.inserted { WindowsAreTheReplayOfTheJobs(s, subject); }
  }

  // One commit queues the job, claims the update and charges both rows; a call that throws or
  // finds a duplicate changes nothing at all, and a refusal charges nobody.
  lemma OutcomeDecidesTheEffect(s: System, step: Step, s': System)
    requires Reachable(s) && Next(s, step, s')
    ensures var i := step.i;
            match s'.txns[i].pc
            case Done(Enqueued) =>
              var t, u, c := s.txns[i], UserOf(s.txns[i].input), ChatOf(s.txns[i].input);
              && s'.db.jobs == s.db.jobs + [Job(t.input, t.now, i)]
              && t.input.updateId !in s.db.updates && s'.db.updates == s.db.updates[t.input.updateId := Received]
              && u in s'.db.windows && c in s'.db.windows && u != c
              && s'.db.windows[u] == NextWindow(RowSeen(s.db, t, u), t.now)
              && s'.db.windows[c] == NextWindow(RowSeen(s.db, t, c), t.now)
              && (forall o | o != u && o != c :: o in s'.db.windows <==> o in s.db.windows)
              && (forall o <- s.db.windows | o != u && o != c :: s'.db.windows[o] == s.db.windows[o])
            case Done(Refused) =>
              && s'.db.jobs == s.db.jobs && s'.db.updates == s.db.updates[s.txns[i].input.updateId := Failed]
              && (forall o <- s.db.windows :: o in s'.db.windows && s'.db.windows[o] == s.db.windows[o])
              && (forall o <- s'.db.windows | o !in s.db.windows :: s'.db.windows[o].count == 0)
            case _ => s'.db == s.db
  {
    ReachableInv(s);
    assert SoundTxn(s.db, s.txns[step.i]);
  }

  // ---------------------------------------------------------------- one call, statement by statement

  // The transaction as it stands after both rows are locked, with nobody else running.
  function Locked(db: Database, input: Input, now: int): Txn {
    var t := Txn(input, OpenUser, now, map[], Window(now, 0), Window(now, 0));
    var t1 := t.(inserted := Opened(db, t, UserOf(input)));
    var t2 := t1.(user := RowSeen(db, t1, UserOf(input)));
    var t3 := t2.(inserted := Opened(db, t2, ChatOf(input)));
    t3.(pc := Decide, chat := RowSeen(db, t3, ChatOf(input)))
  }

  predicate Admissible(t: Txn) { WithinLimit(t.user, t.now) && WithinLimit(t.chat, t.now) }

  predicate RowsAreValid(t: Txn) { ValidRow(t.user) && ValidRow(t.chat) }

  function WindowOpened(db: Database, s: Subject, now: int): (r: Database)
    ensures s in r.windows
  {
    if s in db.windows then db
    else db.(windows := db.windows[s := Window(now, 0)], openedAt := db.openedAt[s := now])
  }

  lemma OpeningOneMore(db: Database, t: Txn, s: Subject)
    requires s !in t.inserted
    ensures var t' := t.(inserted := Opened(db, t, s));
            && WindowOpened(WindowsSaved(db, t), s, t.now) == WindowsSaved(db, t')
            && WindowsSaved(db, t').windows[s] == RowSeen(db, t', s)
  {
    var t' := t.(inserted := Opened(db, t, s));
    if s !in db.windows {
      assert db.windows + t'.inserted == (db.windows + t.inserted)[s := Window(t.now, 0)];
      assert db.openedAt + StartTimes(t'.inserted) == (db.openedAt + StartTimes(t.inserted))[s := t.now];
    }
  }

  lemma {:induction false} LockingOpensBothWindows(db: Database, input: Input, now: int)
    ensures var t := Locked(db, input, now);
            var db1 := WindowOpened(db, UserOf(input), now);
            var db2 := WindowOpened(db1, ChatOf(input), now);
            && db2 == WindowsSaved(db, t)
            && t.user == db1.windows[UserOf(input)] && t.chat == db2.windows[ChatOf(input)]
  {
    var t := Txn(input, OpenUser, now, map[], Window(now, 0), Window(now, 0));
    assert WindowsSaved(db, t) == db;
    OpeningOneMore(db, t, UserOf(input));
    var t1 := t.(inserted := Opened(db, t, UserOf(input)));
    var t2 := t1.(user := RowSeen(db, t1, UserOf(input)));
    OpeningOneMore(db, t2, ChatOf(input));
  }

  // What a call on its own comes to.
  function Called(db: Database, input: Input, now: int, send: SendResult, txn: nat): (Result<bool>, Database) {
    if input.updateId in db.updates then (Ok(false), db)
    else
      var t := Locked(db, input, now);
      if !RowsAreValid(t) then (Thrown, db)
      else if !Admissible(t) then (Ok(false), RefusalCommitted(db, t))
      else if send != Accepted then (Thrown, db)
      else (Ok(true), JobCommitted(db, t, txn))
  }

  function OutcomeOf(db: Database, input: Input, r: Result<bool>): Outcome {
    match r
    case Thrown => Threw
    case Ok(queued) => if queued then Enqueued else if input.updateId in db.updates then Duplicate else Refused
  }

  // The transaction runs on, statement by statement of the state machine, until it is done.
  function Finished(db: Database, t: Txn, i: nat, now: int, send: SendResult): (Database, Txn)
    decreases 9 - Rank(t.pc)
  {
    if t.pc.Done? then (db, t)
    else
      var (db', t') := Advanced(db, t, i, now, send);
      Finished(db', t', i, now, send)
  }

  lemma {:induction false} FinishedStep(db: Database, t: Txn, i: nat, now: int, send: SendResult)
    requires !t.pc.Done?
    ensures var (db', t') := Advanced(db, t, i, now, send);
            Finished(db, t, i, now, send) == Finished(db', t', i, now, send) && Rank(t'.pc) > Rank(t.pc)
  {
  }

  // OpenUser, LockUser, OpenChat and LockChat lead to the locked transaction, unless a row is invalid.
  lemma {:induction false} LockingFinishes(db: Database, t: Txn, i: nat, now: int, send: SendResult)
    requires t.pc == OpenUser && t.now == now && t.inserted == map[]
    ensures var locked := Locked(db, t.input, now);
            if RowsAreValid(locked) then Finished(db, t, i, now, send) == Finished(db, locked, i, now, send)
            else var end := Finished(db, t, i, now, send);
                 end.0 == db && end.1.pc == Done(Threw) && end.1.input == t.input
  {
    hide Finished;
    FinishedStep(db, t, i, now, send);
    var t1 := Advanced(db, t, i, now, send).1;
    FinishedStep(db, t1, i, now, send);
    var t2 := Advanced(db, t1, i, now, send).1;
    if t2.pc.Done? {
      DoneIsFinished(db, t2, i, now, send);
    } else {
      FinishedStep(db, t2, i, now, send);
      var t3 := Advanced(db, t2, i, now, send).1;
      FinishedStep(db, t3, i, now, send);
      var t4 := Advanced(db, t3, i, now, send).1;
      if t4.pc.Done? { DoneIsFinished(db, t4, i, now, send); }
    }
  }

  lemma {:induction false} DoneIsFinished(db: Database, t: Txn, i: nat, now: int, send: SendResult)
    requires t.pc.Done?
    ensures Finished(db, t, i, now, send) == (db, t)
  {
  }

  // Run on its own by the state machine, the transaction of a call comes to what the call below does: the
  // same database and the same outcome.
  lemma {:induction false} CallsAreTheMachines(db: Database, t: Txn, i: nat, now: int, send: SendResult)
    requires t.pc == Begin && t.inserted == map[]
    ensures var call := Called(db, t.input, now, send, i);
            var end := Finished(db, t, i, now, send);
            end.0 == call.1 && end.1.pc == Done(OutcomeOf(db, t.input, call.0)) && end.1.input == t.input
  {
    hide Finished, Locked, RowsAreValid, RefusalCommitted, JobCommitted, WithinLimit;
    FinishedStep(db, t, i, now, send);
    var t1 := Advanced(db, t, i, now, send).1;
    if t1.pc.Done? {
      DoneIsFinished(db, t1, i, now, send);
    } else {
      FinishedStep(db, t1, i, now, send);
      var t2 := Advanced(db, t1, i, now, send).1;
      LockingFinishes(db, t2, i, now, send);
      LockedIsAtDecide(db, t.input, now);
      if RowsAreValid(Locked(db, t.input, now)) { DecidingFinishes(db, Locked(db, t.input, now), i, now, send); }
    }
  }

  lemma {:induction false} LockedIsAtDecide(db: Database, input: Input, now: int)
    ensures var t := Locked(db, input, now); t.pc == Decide && t.now == now && t.input == input
  {
  }

  lemma {:induction false} DecidingFinishes(db: Database, t: Txn, i: nat, now: int, send: SendResult)
    requires t.pc == Decide && t.now == now
    ensures Finished(db, t, i, now, send)
            == if !Admissible(t) then (RefusalCommitted(db, t), t.(pc := Done(Refused)))
               else if send != Accepted then (db, t.(pc := Done(Threw)))
               else (JobCommitted(db, t, i), t.(pc := Done(Enqueued)))
  {
    hide Finished, WithinLimit;
    FinishedStep(db, t, i, now, send);
    var t1 := Advanced(db, t, i, now, send).1;
    FinishedStep(db, t1, i, now, send);
    var (db2, t2) := Advanced(db, t1, i, now, send);
    if t2.pc.Done? {
      DoneIsFinished(db2, t2, i, now, send);
    } else {
      FinishedStep(db2, t2, i, now, send);
      var (db3, t3) := Advanced(db2, t2, i, now, send);
      DoneIsFinished(db3, t3, i, now, send);
    }
  }

  // Those statements are a run of the system in which the transaction is alone.
  lemma {:induction false} FinishedIsARun(db: Database, t: Txn, now: int, send: SendResult)
    returns (states: seq<System>, steps: seq<Step>)
    ensures |states| == |steps| + 1 && IsRun(states, steps) && states[0] == System(db, [t])
    ensures states[|steps|] == System(Finished(db, t, 0, now, send).0, [Finished(db, t, 0, now, send).1])
    decreases 9 - Rank(t.pc)
  {
    hide Finished, Advanced, IsRun, WantedBy, Holds;
    if t.pc.Done? {
      DoneIsFinished(db, t, 0, now, send);
      states, steps := [System(db, [t])], [];
      assert IsRun(states, steps) by { NoSteps(states[0]); }
    } else {
      var (db', t') := Advanced(db, t, 0, now, send);
      FinishedStep(db, t, 0, now, send);
      var rest, restSteps := FinishedIsARun(db', t', now, send);
      assert [t][0 := t'] == [t'];
      assert !IsBlocked(System(db, [t]), 0);
      assert Next(System(db, [t]), Advance(0, now, send), rest[0]);
      RunFrom(System(db, [t]), Advance(0, now, send), rest, restSteps);
      states, steps := [System(db, [t])] + rest, [Advance(0, now, send)] + restSteps;
      assert states[|steps|] == rest[|restSteps|];
    }
  }

  lemma {:induction false} NoSteps(s: System)
    ensures IsRun([s], [])
  {
  }

  // Claiming the update first makes no difference to the rows, and each end of the call saves it.
  lemma {:induction false} ClaimingFirst(db: Database, input: Input, now: int, txn: nat)
    requires input.updateId !in db.updates
    ensures var claimed := db.(updates := db.updates[input.updateId := Received]);
            var t := Locked(db, input, now);
            && Locked(claimed, input, now) == t
            && RefusalCommitted(db, t) == (var s := WindowsSaved(claimed, t);
                                           s.(updates := s.updates[input.updateId := Failed]))
            && JobCommitted(db, t, txn) == (var s := WindowsCharged(claimed, t);
                                            s.(jobs := s.jobs + [Job(input, now, txn)]))
  {
    var u: map<nat, Status> := db.updates;
    assert u[input.updateId := Received][input.updateId := Failed] == u[input.updateId := Failed];
  }

  class AdmissionConnection {
    var db: Database

    constructor ()
      ensures db == Database(map[], map[], [], map[])
    {
      db := Database(map[], map[], [], map[]);
    }

    method LockAdmissionState(subject: Subject, now: int) returns (row: Window)
      modifies this
      ensures db == WindowOpened(old(db), subject, now) && row == db.windows[subject]
    {
      if subject !in db.windows {
        db := db.(windows := db.windows[subject := Window(now, 0)], openedAt := db.openedAt[subject := now]);
      }
      row := db.windows[subject];
    }

    method AdmitUpdate(input: Input, now: int) returns (r: Result<bool>)
      modifies this
      ensures var t := Locked(old(db), input, now);
              && (r == if RowsAreValid(t) then Ok(Admissible(t)) else Thrown)
              && (r == Ok(false) ==> db == WindowsSaved(old(db), t))
              && (r == Ok(true) ==> db == WindowsCharged(old(db), t))
    {
      LockingOpensBothWindows(db, input, now);
      var user := LockAdmissionState(UserOf(input), now);
      if !ValidRow(user) { return Thrown; }
      var chat := LockAdmissionState(ChatOf(input), now);
      if !ValidRow(chat) { return Thrown; }
      if !WithinLimit(user, now) || !WithinLimit(chat, now) { return Ok(false); }
      db := db.(windows := db.windows[UserOf(input) := NextWindow(user, now)]);
      db := db.(windows := db.windows[ChatOf(input) := NextWindow(chat, now)]);
      return Ok(true);
    }

    method EnqueuePgBossJob(input: Input, now: int, send: SendResult, txn: nat) returns (r: Result<bool>)
      modifies this
      ensures (r, db) == Called(old(db), input, now, send, txn)
    {
      hide Locked, RowsAreValid, Admissible, RefusalCommitted, JobCommitted, WindowsSaved, WindowsCharged;
      var saved := db;
      if input.updateId in db.updates { return Ok(false); }
      ClaimingFirst(saved, input, now, txn);
      db := db.(updates := db.updates[input.updateId := Received]);
      var admitted := AdmitUpdate(input, now);
      if admitted.Thrown? { db := saved; return Thrown; }
      if !admitted.value {
        db := db.(updates := db.updates[input.updateId := Failed]);
        return Ok(false);
      }
      if send != Accepted { db := saved; return Thrown; }
      db := db.(jobs := db.jobs + [Job(input, now, txn)]);
      return Ok(true);
    }
  }
}
