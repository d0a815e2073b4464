/**
 * The retrieval cache against the live query
 * (packages/cardano-agent/src/knowledge/retrievalCache.ts and retrieveEvidence.ts:90-152).
 *
 * `retrieveEvidence` reads the cache in one snapshot, queries in a second transaction, and checks
 * and writes the cache in a third, while indexers commit in between.  `System` holds the shared
 * tables and any number of readers; `Step` is one database statement or commit of one of them.
 * SHA-256 is taken as injective, so a fingerprint is the revision itself and a query hash is the
 * query itself.
 */
module RetrievalCache {
  import opened Wrappers
  import opened Knowledge
  import opened Retrieval

  const CACHE_TTL_MS := 15 * 60 * 1000
  const MAX_CACHED := 10

  datatype Key = Key(query: string, language: string, topics: set<string>, networks: set<string>, model: string)

  datatype Entry = Entry(fingerprint: nat, chunkIds: seq<nat>, scores: seq<real>, expiresAt: int)

  datatype Lookup = Absent | Stale(fingerprint: nat) | Cached(chunkIds: seq<nat>, scores: seq<real>)

  // validateTopics and validateNetworks refuse an empty filter, so absent and empty share a key.
  predicate ValidRequest(r: Request) {
    r.topics != Some({}) && r.networks != Some({})
  }

  function SetOf(filter: Option<set<string>>): set<string> { if filter.Some? then filter.value else {} }

  function KeyOf(r: Request): Key {
    Key(r.query, r.language, SetOf(r.topics), SetOf(r.networks), r.model)
  }

  function ParseIds(ids: seq<nat>): seq<nat> {
    if |ids| > MAX_CACHED then [] else Positive(ids)
  }

  function Positive(ids: seq<nat>): (r: seq<nat>)
    ensures (forall i | 0 <= i < |ids| :: ids[i] > 0) ==> r == ids
  {
    if |ids| == 0 then [] else (if ids[0] > 0 then [ids[0]] else []) + Positive(ids[1..])
  }

  function ParseScores(scores: seq<real>): seq<real> {
    if |scores| > MAX_CACHED then [] else scores
  }

  function Read(rows: map<Key, Entry>, key: Key, now: int, revision: nat): Lookup {
    if key !in rows then Absent
    else if rows[key].fingerprint != revision then Stale(rows[key].fingerprint)
    else if rows[key].expiresAt <= now then Absent
    else
      var ids, scores := ParseIds(rows[key].chunkIds), ParseScores(rows[key].scores);
      if |ids| == 0 || |ids| != |scores| then Absent else Cached(ids, scores)
  }

  function Written(rows: map<Key, Entry>, key: Key, fingerprint: nat, ids: seq<nat>, scores: seq<real>,
                   now: int): map<Key, Entry> {
    rows[key := Entry(fingerprint, ids, scores, now + CACHE_TTL_MS)]
  }

  function WithoutStale(rows: map<Key, Entry>, key: Key, observed: nat): map<Key, Entry> {
    if key in rows && rows[key].fingerprint == observed then rows - {key} else rows
  }

  // The retrieval_cache table.
  class CacheTable {
    var rows: map<Key, Entry>

    constructor ()
      ensures rows == map[]
    {
      rows := map[];
    }

    method ReadOnClient(key: Key, now: int, revision: nat) returns (found: Lookup)
      ensures found == Read(rows, key, now, revision)
    {
      if key !in rows { return Absent; }
      var row := rows[key];
      if row.fingerprint != revision { return Stale(row.fingerprint); }
      if row.expiresAt <= now { return Absent; }
      var ids, scores := ParseIds(row.chunkIds), ParseScores(row.scores);
      if |ids| == 0 || |ids| != |scores| { return Absent; }
      return Cached(ids, scores);
    }

    // `current` is the revision the write transaction reads; the row is stored only when it is
    // still the revision the caller looked the cache up at.
    method Write(key: Key, fingerprint: nat, current: nat, ids: seq<nat>, scores: seq<real>, now: int)
      returns (stored: bool)
      modifies this
      ensures stored <==> current == fingerprint
      ensures rows == if stored then Written(old(rows), key, fingerprint, ids, scores, now) else old(rows)
    {
      if current != fingerprint { return false; }
      rows := rows[key := Entry(fingerprint, ids, scores, now + CACHE_TTL_MS)];
      return true;
    }

    method DeleteStale(key: Key, observed: nat)
      modifies this
      ensures rows == WithoutStale(old(rows), key, observed)
    {
      if key in rows && rows[key].fingerprint == observed { rows := map k | k in rows && k != key :: rows[k]; }
    }
  }

  // ---------------------------------------------------------------- the system

  // `at` is the revision the answer was computed at; only the theorems look at it.
  datatype Phase =
    | Start
    | Forgetting(observed: nat)
    | Asking
    | Checking(rows: seq<Row>, at: nat)
    | Storing(rows: seq<Row>, at: nat)
    | Answered(evidence: seq<Evidence>, at: nat, fromCache: bool)
    | Failed

  datatype Reader = Reader(request: Request, fingerprint: Option<nat>, phase: Phase)

  // `history` remembers the view committed at each revision; no step reads it.
  datatype System = System(tables: Tables, rows: map<Key, Entry>, readers: seq<Reader>, history: map<nat, View>)

  datatype Step =
    | RegisterSource(id: string, owner: string, trustTier: TrustTier, registry: Registry)
    | AddVersion(version: Version)
    | Index(versionId: nat, chunks: seq<Chunk>)
    | CommitStates(updates: seq<StateUpdate>)
    | Snapshot(reader: nat)
    | Forget(reader: nat)
    | SkipForget(reader: nat)
    | Ask(reader: nat)
    | Check(reader: nat)
    | Store(reader: nat, lateFailure: bool)
    | SkipStore(reader: nat)
    | Fail(reader: nat)

  ghost predicate Initial(s: System) {
    && s.tables.Valid() && s.rows == map[]
    && s.history == map[s.tables.revision := Visible(s.tables)]
    && forall i | 0 <= i < |s.readers| ::
         ValidRequest(s.readers[i].request) && s.readers[i].phase == Start && s.readers[i].fingerprint == None
  }

  ghost function Commit(s: System, t: Tables): System {
    s.(tables := t, history := s.history[t.revision := Visible(t)])
  }

  ghost function Move(s: System, i: nat, fingerprint: Option<nat>, phase: Phase): System
    requires i < |s.readers|
  {
    s.(readers := s.readers[i := s.readers[i].(fingerprint := fingerprint, phase := phase)])
  }

  // What the snapshot transaction decides for a request, on one committed state.
  ghost function AfterSnapshot(t: Tables, rows: map<Key, Entry>, r: Request): Phase {
    match Read(rows, KeyOf(r), r.now, t.revision)
    case Absent => Asking
    case Stale(observed) => Forgetting(observed)
    case Cached(ids, scores) =>
      match Hydrate(t, r, ids, scores)
      case None => Asking
      case Some(evidence) => Answered(evidence, t.revision, true)
  }

  ghost predicate MayStore(fingerprint: Option<nat>, rows: seq<Row>) {
    fingerprint.Some? && |rows| > 0 && forall i | 0 <= i < |rows| :: !rows[i].volatileSource
  }

  ghost predicate Next(rank: Ranker, s: System, step: Step, s': System) {
    match step
    case RegisterSource(id, owner, trustTier, registry) =>
      s.tables.Valid() && s' == Commit(s, SourceEnsured(s.tables, id, owner, trustTier, registry))
    case AddVersion(version) =>
      s.tables.Valid() && version.sourceId in s.tables.sources && s' == Commit(s, VersionStored(s.tables, version))
    case Index(versionId, chunks) =>
      s.tables.Valid() && versionId in s.tables.versions && ValidChunks(chunks, versionId)
      && s' == Commit(s, ChunksReplaced(s.tables, versionId, chunks))
    case CommitStates(updates) =>
      s.tables.Valid() && StateAfter(s.tables, updates).Some? && s' == Commit(s, StateAfter(s.tables, updates).value)
    case Snapshot(i) =>
      i < |s.readers| && s.readers[i].phase == Start
      && s' == if s.readers[i].request.cacheable
               then Move(s, i, Some(s.tables.revision), AfterSnapshot(s.tables, s.rows, s.readers[i].request))
               else Move(s, i, None, Asking)
    case Forget(i) =>
      i < |s.readers| && s.readers[i].phase.Forgetting?
      && s' == Move(s, i, s.readers[i].fingerprint, Asking)
               .(rows := WithoutStale(s.rows, KeyOf(s.readers[i].request), s.readers[i].phase.observed))
    case SkipForget(i) =>
      i < |s.readers| && s.readers[i].phase.Forgetting? && s' == Move(s, i, s.readers[i].fingerprint, Asking)
    case Ask(i) =>
      i < |s.readers| && s.readers[i].phase == Asking && s.tables.Valid()
      && var reader := s.readers[i];
         var rows := Query(rank, s.tables, reader.request);
         s' == Move(s, i, reader.fingerprint,
                    if MayStore(reader.fingerprint, rows) then Checking(rows, s.tables.revision)
                    else Answered(AllEvidence(rows, reader.request.now), s.tables.revision, false))
    case Check(i) =>
      i < |s.readers| && s.readers[i].phase.Checking?
      && var reader := s.readers[i];
         s' == Move(s, i, reader.fingerprint,
                    if reader.fingerprint == Some(s.tables.revision) then Storing(reader.phase.rows, reader.phase.at)
                    else Answered(AllEvidence(reader.phase.rows, reader.request.now), reader.phase.at, false))
    case Store(i, lateFailure) =>
      i < |s.readers| && s.readers[i].phase.Storing? && s.readers[i].fingerprint.Some?
      && var reader := s.readers[i];
         s' == Move(s, i, reader.fingerprint,
                    if lateFailure then Failed
                    else Answered(AllEvidence(reader.phase.rows, reader.request.now), reader.phase.at, false))
               .(rows := Written(s.rows, KeyOf(reader.request), reader.fingerprint.value,
                                 IdsOf(reader.phase.rows), ScoresOf(reader.phase.rows), reader.request.now))
    case SkipStore(i) =>
      i < |s.readers| && (s.readers[i].phase.Checking? || s.readers[i].phase.Storing?)
      && var reader := s.readers[i];
         s' == Move(s, i, reader.fingerprint,
                    Answered(AllEvidence(reader.phase.rows, reader.request.now), reader.phase.at, false))
    case Fail(i) =>
      i < |s.readers| && !s.readers[i].phase.Answered? && s' == Move(s, i, s.readers[i].fingerprint, Failed)
  }

  ghost predicate IsRun(rank: Ranker, states: seq<System>, steps: seq<Step>) {
    && |states| == |steps| + 1
    && Initial(states[0])
    && forall k | 0 <= k < |steps| :: Next(rank, states[k], steps[k], states[k + 1])
  }

  // ---------------------------------------------------------------- invariant

  // `rows` is what the query returns on some state whose view is `view`.
  ghost predicate QueriedAt(rank: Ranker, view: View, r: Request, rows: seq<Row>) {
    exists t: Tables :: t.Valid() && Visible(t) == view && rows == Query(rank, t, r)
  }

  ghost predicate AnsweredAt(rank: Ranker, view: View, r: Request, evidence: seq<Evidence>) {
    exists rows :: QueriedAt(rank, view, r, rows) && evidence == AllEvidence(rows, r.now)
  }

  ghost predicate FaithfulEntry(rank: Ranker, history: map<nat, View>, key: Key, e: Entry) {
    e.fingerprint in history &&
    exists r, rows :: IsSourceOf(rank, history[e.fingerprint], key, e, r, rows)
  }

  ghost predicate IsSourceOf(rank: Ranker, view: View, key: Key, e: Entry, r: Request, rows: seq<Row>) {
    && ValidRequest(r) && KeyOf(r) == key && QueriedAt(rank, view, r, rows)
    && e.chunkIds == IdsOf(rows) && e.scores == ScoresOf(rows)
    && forall i | 0 <= i < |rows| :: !rows[i].volatileSource
  }

  ghost predicate SoundReader(rank: Ranker, s: System, reader: Reader) {
    var revision := s.tables.revision;
    && ValidRequest(reader.request)
    && (reader.fingerprint.Some? ==> reader.fingerprint.value <= revision)
    && match reader.phase
       case Start => true
       case Forgetting(observed) => reader.fingerprint.Some? && observed < reader.fingerprint.value
       case Asking => true
       case Checking(rows, at) =>
         && reader.fingerprint.Some? && reader.fingerprint.value <= at <= revision && at in s.history
         && QueriedAt(rank, s.history[at], reader.request, rows) && MayStore(reader.fingerprint, rows)
       case Storing(rows, at) =>
         && reader.fingerprint == Some(at) && at <= revision && at in s.history
         && QueriedAt(rank, s.history[at], reader.request, rows) && MayStore(reader.fingerprint, rows)
       case Answered(evidence, at, fromCache) =>
         && at <= revision && at in s.history && (reader.fingerprint.Some? ==> reader.fingerprint.value <= at)
         && AnsweredAt(rank, s.history[at], reader.request, evidence)
       case Failed => true
  }

  ghost predicate Recorded(s: System) {
    && s.tables.Valid()
    && s.tables.revision in s.history && s.history[s.tables.revision] == Visible(s.tables)
    && forall n <- s.history :: n <= s.tables.revision
  }

  ghost predicate Inv(rank: Ranker, s: System) {
    && Recorded(s)
    && (forall key <- s.rows ::
        s.rows[key].fingerprint <= s.tables.revision && FaithfulEntry(rank, s.history, key, s.rows[key]))
    && forall i | 0 <= i < |s.readers| :: SoundReader(rank, s, s.readers[i])
  }

  // ---------------------------------------------------------------- commits

  ghost predicate Extends(h: map<nat, View>, h': map<nat, View>) {
    forall n <- h :: n in h' && h'[n] == h[n]
  }

  // Every indexer commit keeps what the history says about past revisions: that is what an
  // accounted transaction means.
  lemma CommitKeepsInv(rank: Ranker, s: System, t: Tables)
    requires Inv(rank, s) && t.Valid() && Accounted(s.tables, t)
    ensures Inv(rank, Commit(s, t)) && Extends(s.history, Commit(s, t).history)
  {
    var s' := Commit(s, t);
    assert Extends(s.history, s'.history);
    forall key | key in s'.rows ensures FaithfulEntry(rank, s'.history, key, s'.rows[key]) {
      assert FaithfulEntry(rank, s.history, key, s.rows[key]);
    }
    forall i | 0 <= i < |s'.readers| ensures SoundReader(rank, s', s'.readers[i]) {
      assert SoundReader(rank, s, s.readers[i]);
    }
  }

  predicate IsIndexer(step: Step) {
    step.RegisterSource? || step.AddVersion? || step.Index? || step.CommitStates?
  }

  lemma IndexersAreAccounted(rank: Ranker, s: System, step: Step, s': System)
    requires s.tables.Valid() && IsIndexer(step) && Next(rank, s, step, s')
    ensures s' == Commit(s, s'.tables) && s'.tables.Valid() && Accounted(s.tables, s'.tables)
  {
    match step
    case RegisterSource(id, owner, trustTier, registry) => EnsureSourceAccounted(s.tables, id, owner, trustTier,
            registry);
    case AddVersion(version) => StoreVersionAccounted(s.tables, version);
    case Index(versionId, chunks) => ReplaceChunksAccounted(s.tables, versionId, chunks);
    case CommitStates(updates) => StateAfterAccounted(s.tables, updates);
  }

  lemma ReadersLeaveTablesAlone(rank: Ranker, s: System, step: Step, s': System)
    requires !IsIndexer(step) && Next(rank, s, step, s')
    ensures s'.tables == s.tables && s'.history == s.history
  {
  }

  // ---------------------------------------------------------------- readers

  lemma SameKeySameQuery(rank: Ranker, t: Tables, r: Request, q: Request)
    requires t.Valid() && ValidRequest(r) && ValidRequest(q) && KeyOf(r) == KeyOf(q)
    ensures Query(rank, t, r) == Query(rank, t, q)
  {
    assert r.topics == q.topics && r.networks == q.networks;
    assert forall v :: IsCandidate(t, r, v) <==> IsCandidate(t, q, v);
    assert forall v :: IsEligible(t, r, v) <==> IsEligible(t, q, v);
    assert EligibleRows(t, r) == EligibleRows(t, q);
  }

  lemma CurrentEntryIsQuery(rank: Ranker, s: System, r: Request)
    requires Recorded(s) && ValidRequest(r) && KeyOf(r) in s.rows
    requires var e := s.rows[KeyOf(r)];
             e.fingerprint == s.tables.revision && FaithfulEntry(rank, s.history, KeyOf(r), e)
    ensures var e, rows := s.rows[KeyOf(r)], Query(rank, s.tables, r);
            && e.chunkIds == IdsOf(rows) && e.scores == ScoresOf(rows)
            && forall i | 0 <= i < |rows| :: !rows[i].volatileSource
  {
    var e := s.rows[KeyOf(r)];
    var q, rows :| IsSourceOf(rank, Visible(s.tables), KeyOf(r), e, q, rows);
    var t: Tables :| t.Valid() && Visible(t) == Visible(s.tables) && rows == Query(rank, t, q);
    QueryReadsTheView(rank, t, s.tables, q);
    SameKeySameQuery(rank, s.tables, q, r);
  }

  // Parsing drops ids that are not positive numerals; when the count still matches, nothing was dropped.
  lemma ParsingKeepsTheEntry(rows: map<Key, Entry>, key: Key, now: int, revision: nat)
    requires Read(rows, key, now, revision).Cached?
    requires |rows[key].chunkIds| == |rows[key].scores|
    ensures rows[key].fingerprint == revision && rows[key].expiresAt > now
    ensures Read(rows, key, now, revision) == Cached(rows[key].chunkIds, rows[key].scores)
  {
    PositiveLength(rows[key].chunkIds);
  }

  lemma {:induction false} PositiveLength(ids: seq<nat>)
    ensures |Positive(ids)| <= |ids|
    ensures |Positive(ids)| == |ids| ==> Positive(ids) == ids
  {
    if |ids| > 0 { PositiveLength(ids[1..]); }
  }

  // A row with the current fingerprint, read in a snapshot, hydrates to the evidence the
  // uncached query gives on that same snapshot.
  lemma CurrentEntryHydrates(rank: Ranker, s: System, r: Request)
    requires Recorded(s) && ValidRequest(r)
    requires KeyOf(r) in s.rows ==> FaithfulEntry(rank, s.history, KeyOf(r), s.rows[KeyOf(r)])
    requires AfterSnapshot(s.tables, s.rows, r).Answered?
    ensures AfterSnapshot(s.tables, s.rows, r).evidence == Uncached(rank, s.tables, r)
  {
    CurrentEntryIsQuery(rank, s, r);
    ParsingKeepsTheEntry(s.rows, KeyOf(r), r.now, s.tables.revision);
    HydrateInvertsQuery(rank, s.tables, r);
  }

  lemma ReadersFrame(rank: Ranker, s: System, i: nat, fingerprint: Option<nat>, phase: Phase)
    requires Inv(rank, s) && i < |s.readers|
    requires SoundReader(rank, s, s.readers[i].(fingerprint := fingerprint, phase := phase))
    ensures Inv(rank, Move(s, i, fingerprint, phase))
  {
    hide Query, EligibleRows, Tables.Valid, FaithfulEntry, QueriedAt, AnsweredAt;
    var s' := Move(s, i, fingerprint, phase);
    forall j | 0 <= j < |s'.readers| ensures SoundReader(rank, s', s'.readers[j]) {
      assert j != i ==> SoundReader(rank, s, s.readers[j]);
      assert SoundReader(rank, s, s'.readers[j]);
    }
  }

  lemma RowsFrame(rank: Ranker, s: System, rows: map<Key, Entry>)
    requires Inv(rank, s)
    requires forall key <- rows ::
             rows[key].fingerprint <= s.tables.revision && FaithfulEntry(rank, s.history, key, rows[key])
    ensures Inv(rank, s.(rows := rows))
  {
    hide Query, EligibleRows, Tables.Valid, QueriedAt, AnsweredAt;
    var s' := s.(rows := rows);
    forall j | 0 <= j < |s'.readers| ensures SoundReader(rank, s', s'.readers[j]) {
      assert SoundReader(rank, s, s.readers[j]);
    }
  }

  lemma SnapshotPhases(t: Tables, rows: map<Key, Entry>, r: Request, phase: Phase)
    requires phase == AfterSnapshot(t, rows, r)
    ensures phase.Asking? || phase.Forgetting? || (phase.Answered? && phase.at == t.revision)
    ensures phase.Forgetting? ==> KeyOf(r) in rows && rows[KeyOf(r)].fingerprint == phase.observed != t.revision
  {
  }

  lemma SnapshotIsSound(rank: Ranker, s: System, reader: Reader, phase: Phase)
    requires Recorded(s) && ValidRequest(reader.request)
    requires forall key <- s.rows ::
             s.rows[key].fingerprint <= s.tables.revision && FaithfulEntry(rank, s.history, key, s.rows[key])
    requires phase == AfterSnapshot(s.tables, s.rows, reader.request)
    ensures SoundReader(rank, s, reader.(fingerprint := Some(s.tables.revision), phase := phase))
  {
    SnapshotPhases(s.tables, s.rows, reader.request, phase);
    if phase.Answered? { CachedAnswerIsSound(rank, s, reader.request); }
  }

  lemma CachedAnswerIsSound(rank: Ranker, s: System, r: Request)
    requires Recorded(s) && ValidRequest(r) && AfterSnapshot(s.tables, s.rows, r).Answered?
    requires KeyOf(r) in s.rows ==> FaithfulEntry(rank, s.history, KeyOf(r), s.rows[KeyOf(r)])
    ensures AnsweredAt(rank, s.history[s.tables.revision], r, AfterSnapshot(s.tables, s.rows, r).evidence)
  {
    CurrentEntryHydrates(rank, s, r);
    assert QueriedAt(rank, s.history[s.tables.revision], r, Query(rank, s.tables, r));
  }

  lemma SnapshotKeepsInv(rank: Ranker, s: System, i: nat, s': System)
    requires Inv(rank, s) && Next(rank, s, Snapshot(i), s')
    ensures Inv(rank, s')
  {
    assert SoundReader(rank, s, s.readers[i]);
    if s.readers[i].request.cacheable {
      SnapshotIsSound(rank, s, s.readers[i], s'.readers[i].phase);
      ReadersFrame(rank, s, i, Some(s.tables.revision), s'.readers[i].phase);
    } else {
      ReadersFrame(rank, s, i, None, Asking);
    }
  }

  lemma ForgetKeepsInv(rank: Ranker, s: System, i: nat, s': System)
    requires Inv(rank, s) && Next(rank, s, Forget(i), s')
    ensures Inv(rank, s')
  {
    assert SoundReader(rank, s, s.readers[i]);
    ReadersFrame(rank, s, i, s.readers[i].fingerprint, Asking);
    RowsFrame(rank, Move(s, i, s.readers[i].fingerprint, Asking), s'.rows);
  }

  lemma QueryIsOnRecord(rank: Ranker, s: System, r: Request)
    requires Recorded(s)
    ensures var rows := Query(rank, s.tables, r);
            && QueriedAt(rank, s.history[s.tables.revision], r, rows)
            && AnsweredAt(rank, s.history[s.tables.revision], r, AllEvidence(rows, r.now))
  {
    hide Query, EligibleRows, Visible;
    assert QueriedAt(rank, s.history[s.tables.revision], r, Query(rank, s.tables, r));
  }

  lemma AskKeepsInv(rank: Ranker, s: System, i: nat, s': System)
    requires Inv(rank, s) && Next(rank, s, Ask(i), s')
    ensures Inv(rank, s')
  {
    hide Query, EligibleRows, Tables.Valid, FaithfulEntry, QueriedAt, AnsweredAt;
    var reader := s.readers[i];
    assert SoundReader(rank, s, reader);
    QueryIsOnRecord(rank, s, reader.request);
    ReadersFrame(rank, s, i, reader.fingerprint, s'.readers[i].phase);
  }

  lemma StoredIsAnswered(rank: Ranker, view: View, r: Request, rows: seq<Row>)
    requires QueriedAt(rank, view, r, rows)
    ensures AnsweredAt(rank, view, r, AllEvidence(rows, r.now))
  {
    hide QueriedAt;
  }

  lemma StoreKeepsInv(rank: Ranker, s: System, i: nat, late: bool, s': System)
    requires Inv(rank, s) && Next(rank, s, Store(i, late), s')
    ensures Inv(rank, s')
  {
    hide Query, EligibleRows, Tables.Valid, AnsweredAt, QueriedAt;
    var reader := s.readers[i];
    assert SoundReader(rank, s, reader);
    var key := KeyOf(reader.request);
    var e := s'.rows[key];
    assert IsSourceOf(rank, s.history[e.fingerprint], key, e, reader.request, reader.phase.rows);
    StoredIsAnswered(rank, s.history[reader.phase.at], reader.request, reader.phase.rows);
    ReadersFrame(rank, s, i, reader.fingerprint, s'.readers[i].phase);
    RowsFrame(rank, Move(s, i, reader.fingerprint, s'.readers[i].phase), s'.rows);
  }

  lemma OwnStepKeepsInv(rank: Ranker, s: System, i: nat, step: Step, s': System)
    requires Inv(rank, s) && Next(rank, s, step, s')
    requires step == SkipForget(i) || step == Check(i) || step == SkipStore(i) || step == Fail(i)
    ensures Inv(rank, s')
  {
    hide Query, EligibleRows, Tables.Valid, FaithfulEntry, QueriedAt;
    assert SoundReader(rank, s, s.readers[i]);
    ReadersFrame(rank, s, i, s.readers[i].fingerprint, s'.readers[i].phase);
  }

  lemma NextKeepsInv(rank: Ranker, s: System, step: Step, s': System)
    requires Inv(rank, s) && Next(rank, s, step, s')
    ensures Inv(rank, s')
  {
    hide Inv, Query, EligibleRows, Tables.Valid, AfterSnapshot, AllEvidence, SourceEnsured, VersionStored,
         ChunksReplaced, StateAfter, Visible, Accounted;
    if IsIndexer(step) { assert Recorded(s) by { InvRecords(rank, s); } }
    match step
    case Snapshot(i) => SnapshotKeepsInv(rank, s, i, s');
    case Forget(i) => ForgetKeepsInv(rank, s, i, s');
    case Ask(i) => AskKeepsInv(rank, s, i, s');
    case Store(i, late) => StoreKeepsInv(rank, s, i, late, s');
    case SkipForget(i) => OwnStepKeepsInv(rank, s, i, step, s');
    case Check(i) => OwnStepKeepsInv(rank, s, i, step, s');
    case SkipStore(i) => OwnStepKeepsInv(rank, s, i, step, s');
    case Fail(i) => OwnStepKeepsInv(rank, s, i, step, s');
    case _ =>
      IndexersAreAccounted(rank, s, step, s');
      CommitKeepsInv(rank, s, s'.tables);
  }

  lemma InvRecords(rank: Ranker, s: System)
    requires Inv(rank, s)
    ensures Recorded(s)
  {
  }

  lemma {:induction false} RunKeepsInv(rank: Ranker, states: seq<System>, steps: seq<Step>, k: nat)
    requires IsRun(rank, states, steps) && k < |states|
    ensures Inv(rank, states[k])
  {
    if k > 0 {
      RunKeepsInv(rank, states, steps, k - 1);
      NextKeepsInv(rank, states[k - 1], steps[k - 1], states[k]);
    }
  }

  ghost predicate Reachable(rank: Ranker, s: System) {
    exists states, steps :: IsRun(rank, states, steps) && states[|steps|] == s
  }

  lemma ReachableInv(rank: Ranker, s: System)
    requires Reachable(rank, s)
    ensures Inv(rank, s)
  {
    var states, steps :| IsRun(rank, states, steps) && states[|steps|] == s;
    RunKeepsInv(rank, states, steps, |steps|);
  }

  // ---------------------------------------------------------------- theorems

  // Over every interleaving: a reader that is served from the cache gets exactly the evidence, in
  // the same order and with the same scores, that the uncached query gives on the very tables its
  // snapshot saw.
  lemma {:induction false} CacheHitEqualsQuery(rank: Ranker, s: System, i: nat, s': System)
    requires Reachable(rank, s) && Next(rank, s, Snapshot(i), s') && s'.readers[i].phase.Answered?
    ensures s.tables.Valid() && s'.readers[i].phase.evidence == Uncached(rank, s.tables, s.readers[i].request)
  {
    ReachableInv(rank, s);
    assert SoundReader(rank, s, s.readers[i]);
    CurrentEntryHydrates(rank, s, s.readers[i].request);
  }

  // Whatever way an answer was obtained, it is the answer on one committed view, no older than the
  // one the reader looked its cache entry up at.
  lemma {:induction false} EveryAnswerIsSomeCommittedAnswer(rank: Ranker, s: System, i: nat)
    requires Reachable(rank, s) && i < |s.readers| && s.readers[i].phase.Answered?
    ensures var reader, at := s.readers[i], s.readers[i].phase.at;
            && at in s.history && at <= s.tables.revision
            && (reader.fingerprint.Some? ==> reader.fingerprint.value <= at)
            && exists t: Tables :: t.Valid() && Visible(t) == s.history[at]
                                   && reader.phase.evidence == Uncached(rank, t, reader.request)
  {
    ReachableInv(rank, s);
    var reader := s.readers[i];
    assert SoundReader(rank, s, reader);
    var rows :| QueriedAt(rank, s.history[reader.phase.at], reader.request, rows)
                && reader.phase.evidence == AllEvidence(rows, reader.request.now);
    var t: Tables :| t.Valid() && Visible(t) == s.history[reader.phase.at] && rows == Query(rank, t, reader.request);
    assert reader.phase.evidence == Uncached(rank, t, reader.request);
  }

  lemma ForgetEffect(rank: Ranker, s: System, i: nat, s': System)
    requires Next(rank, s, Forget(i), s')
    ensures i < |s.readers| && s.readers[i].phase.Forgetting?
    ensures s'.rows == WithoutStale(s.rows, KeyOf(s.readers[i].request), s.readers[i].phase.observed)
  {
  }

  lemma ObservedIsBehind(rank: Ranker, s: System, i: nat)
    requires Reachable(rank, s) && i < |s.readers| && s.readers[i].phase.Forgetting?
    ensures s.readers[i].phase.observed < s.tables.revision
  {
    ReachableInv(rank, s);
    assert SoundReader(rank, s, s.readers[i]);
  }

  // deleteStaleRetrievalCache only ever removes the row of its own key, and only one whose
  // fingerprint is behind the revision at that moment.
  lemma ForgetSparesCurrentEntries(rank: Ranker, s: System, i: nat, s': System, key: Key)
    requires Reachable(rank, s) && Next(rank, s, Forget(i), s') && key in s.rows
    requires s.rows[key].fingerprint == s.tables.revision || key != KeyOf(s.readers[i].request)
    ensures key in s'.rows && s'.rows[key] == s.rows[key]
  {
    ForgetEffect(rank, s, i, s');
    ObservedIsBehind(rank, s, i);
  }

  // Revisions only grow, and the view recorded for a past revision is never rewritten.
  lemma RevisionsOnlyGrow(rank: Ranker, s: System, step: Step, s': System)
    requires Reachable(rank, s) && Next(rank, s, step, s')
    ensures s.tables.revision <= s'.tables.revision
    ensures s.tables.revision == s'.tables.revision ==> Visible(s.tables) == Visible(s'.tables)
    ensures Extends(s.history, s'.history)
  {
    ReachableInv(rank, s);
    if IsIndexer(step) {
      IndexersAreAccounted(rank, s, step, s');
      CommitKeepsInv(rank, s, s'.tables);
    } else {
      ReadersLeaveTablesAlone(rank, s, step, s');
    }
  }
}
