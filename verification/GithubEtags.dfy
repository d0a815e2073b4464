/**
 * GitHub endpoints and their ETags
 * (packages/cardano-agent/src/knowledge/githubSource.ts:56-175 and 226-296,
 * packages/cardano-agent/src/knowledge/indexDocument.ts:34-119).
 *
 * Any number of fetchers read endpoint states, ask GitHub with the stored ETags, index what came
 * back, and only then compare-and-set all the states of their fetch; other indexers work beside
 * them, and anything may stop anywhere.  `World` fixes what an ETag names: the content hash of the
 * document it stands for, the chunk hashes of a content, and the one embedding model.
 */
module GithubEtags {
  import opened Wrappers
  import opened Knowledge

  const MAX_DEFER_MS := 24 * 60 * 60 * 1000

  // Parsed response headers; dates in milliseconds.
  datatype Headers = Headers(etag: Option<string>, remaining: Option<nat>, resetAt: Option<int>,
                             retryAfter: Option<int>)

  predicate IsSafeEtag(e: string) { 0 < |e| <= 256 && forall i | 0 <= i < |e| :: ' ' <= e[i] <= '~' }

  function Max(a: int, b: int): int { if a >= b then a else b }
  function Min(a: int, b: int): int { if a <= b then a else b }

  function ClampDate(value: int, now: int): (r: int)
    ensures now <= r <= now + MAX_DEFER_MS && (now <= value <= now + MAX_DEFER_MS ==> r == value)
  {
    Min(now + MAX_DEFER_MS, Max(now, value))
  }

  function Base(state: Option<EndpointState>): EndpointState {
    if state.Some? then state.value else EndpointState(None, None, None, None, None)
  }

  function SuccessState(state: Option<EndpointState>, h: Headers, now: int): EndpointState {
    EndpointState(
      match h.etag
      case None => Base(state).etag
      case Some(e) => if IsSafeEtag(e) then Some(e) else None,
      Some(now), None,
      if h.resetAt.Some? then Some(ClampDate(h.resetAt.value, now)) else None,
      if h.remaining.Some? then h.remaining else Base(state).rateLimitRemaining)
  }

  // The later of the two dates GitHub gives, or a day.
  function DeferUntil(h: Headers, now: int): (r: int)
    ensures now <= r <= now + MAX_DEFER_MS
    ensures h.retryAfter.Some? ==> ClampDate(h.retryAfter.value, now) <= r
    ensures h.resetAt.Some? ==> ClampDate(h.resetAt.value, now) <= r
    ensures h.retryAfter == None && h.resetAt == None ==> r == now + MAX_DEFER_MS
    ensures h.retryAfter.Some? || h.resetAt.Some? ==>
              (h.retryAfter.Some? && r == ClampDate(h.retryAfter.value, now))
                  || (h.resetAt.Some? && r == ClampDate(h.resetAt.value, now))
  {
    var retryAt := if h.retryAfter.Some? then ClampDate(h.retryAfter.value, now) else now;
    var resetAt := if h.resetAt.Some? then ClampDate(h.resetAt.value, now) else now;
    if h.retryAfter.Some? || h.resetAt.Some? then Max(retryAt, resetAt) else now + MAX_DEFER_MS
  }

  function DeferredState(state: Option<EndpointState>, h: Headers, now: int): EndpointState {
    EndpointState(Base(state).etag, Some(now), Some(DeferUntil(h, now)),
                  if h.resetAt.Some? then Some(ClampDate(h.resetAt.value, now)) else None,
                  if h.remaining.Some? then h.remaining else Base(state).rateLimitRemaining)
  }

  // ---------------------------------------------------------------- what an ETag names

  datatype World = World(url: (string, Endpoint) -> string, content: (string, Endpoint, string) -> string,
                         hashes: string -> seq<string>, model: string)

  ghost predicate IsIndexedAs(w: World, t: Tables, source: string, endpoint: Endpoint, hash: string, id: nat) {
    && id in t.versions && t.versions[id].sourceId == source && t.versions[id].canonicalUrl == w.url(source, endpoint)
    && t.versions[id].contentHash == hash && CompleteChunks(t, id, w.model, w.hashes(hash))
  }

  ghost predicate IsIndexed(w: World, t: Tables, source: string, endpoint: Endpoint, hash: string) {
    exists id :: IsIndexedAs(w, t, source, endpoint, hash, id)
  }

  ghost predicate NamesIndexed(w: World, t: Tables, source: string, endpoint: Endpoint, state: Option<EndpointState>) {
    state.Some? && state.value.etag.Some? ==>
        IsIndexed(w, t, source, endpoint, w.content(source, endpoint, state.value.etag.value))
  }

  ghost predicate EtagsNameIndexed(w: World, t: Tables) {
    forall source, endpoint :: NamesIndexed(w, t, source, endpoint, StateOf(t, source, endpoint))
  }

  // The chunks chunkDocument makes of a content, for the model.
  predicate AreChunksOf(w: World, chunks: seq<Chunk>, versionId: nat, hash: string) {
    && ValidChunks(chunks, versionId) && |chunks| == |w.hashes(hash)|
    && forall i | 0 <= i < |chunks| ::
         chunks[i].ordinal == i && chunks[i].contentHash == w.hashes(hash)[i] && chunks[i].embeddingModel == w.model
  }

  // ---------------------------------------------------------------- fetchers

  datatype Doc = Doc(endpoint: Endpoint, hash: string)

  datatype Phase = Fetching | Storing | Checking(id: nat) | Replacing(id: nat) | Over(committed: bool)

  datatype Fetcher = Fetcher(source: string, todo: seq<Endpoint>, seen: map<Endpoint, Option<EndpointState>>,
                             docs: seq<Doc>,
                             updates: seq<StateUpdate>, indexed: nat, phase: Phase)

  datatype System = System(tables: Tables, fetchers: seq<Fetcher>)

  // A throw behind an applied statement is the step of that statement and then `Stop`.
  datatype Step =
    | Read(f: nat, endpoint: Endpoint)
    | Respond200(f: nat, headers: Headers, hash: string, now: int)
    | Respond304(f: nat, headers: Headers, now: int)
    | Limited(f: nat, headers: Headers, now: int)
    | StartIndexing(f: nat)
    | Store(f: nat, version: Version, id: nat)
    | Check(f: nat)
    | Replace(f: nat, chunks: seq<Chunk>)
    | Commit(f: nat)
    | Stop(f: nat)
    | OtherSource(name: string, owner: string, trustTier: TrustTier, registry: Registry)
    | OtherStore(version: Version)
    | OtherReplace(versionId: nat, chunks: seq<Chunk>)

  function Put(s: System, f: nat, x: Fetcher): System
    requires f < |s.fetchers|
  {
    s.(fetchers := s.fetchers[f := x])
  }

  predicate MayRespond(x: Fetcher) { x.phase == Fetching && |x.todo| > 0 && x.todo[0] in x.seen }

  function Responded(x: Fetcher, headers: Headers, now: int, docs: seq<Doc>): Fetcher
    requires MayRespond(x)
  {
    var seen := x.seen[x.todo[0]];
    x.(todo := x.todo[1..], docs := docs,
       updates := x.updates + [StateUpdate(x.source, x.todo[0], seen, Some(SuccessState(seen, headers, now)))])
  }

  // A 200 carries the ETag of its own content.  A 304 answers If-None-Match (section 15.4.5 of
  // RFC 9110): an ETag in it names what the one asked with names.
  predicate IsHonest(w: World, x: Fetcher, headers: Headers, hash: Option<string>)
    requires MayRespond(x)
  {
    match hash
    case Some(h) => headers.etag.Some? ==> w.content(x.source, x.todo[0], headers.etag.value) == h
    case None =>
      && x.seen[x.todo[0]].Some? && x.seen[x.todo[0]].value.etag.Some?
      && (headers.etag.Some? ==> w.content(x.source, x.todo[0], headers.etag.value)
                                 == w.content(x.source, x.todo[0], x.seen[x.todo[0]].value.etag.value))
  }

  ghost predicate Next(w: World, s: System, step: Step, s': System) {
    match step
    case Read(f, endpoint) =>
      f < |s.fetchers| && s.fetchers[f].phase == Fetching && endpoint !in s.fetchers[f].seen
      && s' == Put(s, f, s.fetchers[f].(seen :=
                                        s.fetchers[f].seen[endpoint :=
                                                           StateOf(s.tables, s.fetchers[f].source, endpoint)]))
    case Respond200(f, headers, hash, now) =>
      f < |s.fetchers| && MayRespond(s.fetchers[f]) && IsHonest(w, s.fetchers[f], headers, Some(hash))
      && s' == Put(s, f, Responded(s.fetchers[f], headers, now,
                                   s.fetchers[f].docs + [Doc(s.fetchers[f].todo[0], hash)]))
    case Respond304(f, headers, now) =>
      f < |s.fetchers| && MayRespond(s.fetchers[f]) && IsHonest(w, s.fetchers[f], headers, None)
      && s' == Put(s, f, Responded(s.fetchers[f], headers, now, s.fetchers[f].docs))
    // deferEndpoint: one compare-and-set, won or lost, and the fetch is over.
    case Limited(f, headers, now) =>
      f < |s.fetchers| && MayRespond(s.fetchers[f])
      && var x := s.fetchers[f];
         var seen := x.seen[x.todo[0]];
         var after := StateAfter(s.tables,
                                 [StateUpdate(x.source, x.todo[0], seen, Some(DeferredState(seen, headers, now)))]);
         s' == Put(s, f, x.(phase := Over(false))).(tables := if after.Some? then after.value else s.tables)
    case StartIndexing(f) =>
      f < |s.fetchers| && s.fetchers[f].phase == Fetching && |s.fetchers[f].todo| == 0
      && s' == Put(s, f, s.fetchers[f].(phase := Storing))
    case Store(f, version, id) =>
      f < |s.fetchers| && s.fetchers[f].phase == Storing && s.fetchers[f].indexed < |s.fetchers[f].docs|
      && var x := s.fetchers[f];
         var doc := x.docs[x.indexed];
         && version.sourceId == x.source && version.canonicalUrl == w.url(x.source, doc.endpoint)
         && version.contentHash == doc.hash
         && x.source in s.tables.sources && IsStored(VersionStored(s.tables, version), version, id)
         && s' == Put(s, f, x.(phase := Checking(id))).(tables := VersionStored(s.tables, version))
    case Check(f) =>
      f < |s.fetchers| && s.fetchers[f].phase.Checking? && s.fetchers[f].indexed < |s.fetchers[f].docs|
      && var x := s.fetchers[f];
         s' == Put(s, f, if CompleteChunks(s.tables, x.phase.id, w.model, w.hashes(x.docs[x.indexed].hash))
                         then x.(phase := Storing, indexed := x.indexed + 1) else x.(phase := Replacing(x.phase.id)))
    case Replace(f, chunks) =>
      f < |s.fetchers| && s.fetchers[f].phase.Replacing? && s.fetchers[f].indexed < |s.fetchers[f].docs|
      && var x := s.fetchers[f];
         && AreChunksOf(w, chunks, x.phase.id, x.docs[x.indexed].hash)
         && s' == Put(s, f, x.(phase := Storing, indexed := x.indexed + 1)).(tables :=
                 ChunksReplaced(s.tables, x.phase.id, chunks))
    case Commit(f) =>
      f < |s.fetchers| && s.fetchers[f].phase == Storing && s.fetchers[f].indexed == |s.fetchers[f].docs|
      && var after := StateAfter(s.tables, s.fetchers[f].updates);
         s' == Put(s, f, s.fetchers[f].(phase := Over(after.Some?))).(tables := if after.Some? then after.value
                                                                      else s.tables)
    case Stop(f) => f < |s.fetchers| && s' == Put(s, f, s.fetchers[f].(phase := Over(false)))
    case OtherSource(id, owner, trustTier, registry) =>
      s' == s.(tables := SourceEnsured(s.tables, id, owner, trustTier, registry))
    case OtherStore(version) =>
      version.sourceId in s.tables.sources && s' == s.(tables := VersionStored(s.tables, version))
    case OtherReplace(versionId, chunks) =>
      versionId in s.tables.versions && AreChunksOf(w, chunks, versionId, s.tables.versions[versionId].contentHash)
      && s' == s.(tables := ChunksReplaced(s.tables, versionId, chunks))
  }

  predicate Distinct(endpoints: seq<Endpoint>) {
    forall i, j | 0 <= i < j < |endpoints| :: endpoints[i] != endpoints[j]
  }

  ghost predicate Initial(s: System) {
    && s.tables == Tables(map[], map[], map[], 1, 1, 0)
    && forall i | 0 <= i < |s.fetchers| ::
         var x := s.fetchers[i];
         Distinct(x.todo) && x.seen == map[] && x.docs == [] && x.updates == [] && x.indexed == 0 && x.phase == Fetching
  }

  ghost predicate IsRun(w: World, states: seq<System>, steps: seq<Step>) {
    && |states| == |steps| + 1 && Initial(states[0])
    && forall k | 0 <= k < |steps| :: Next(w, states[k], steps[k], states[k + 1])
  }

  ghost predicate Reachable(w: World, s: System) {
    exists states, steps :: IsRun(w, states, steps) && states[|steps|] == s
  }

  // ---------------------------------------------------------------- the invariant

  // The ETag an update would store is the one it replaces, or names a document of the fetch.
  predicate IsBacked(w: World, x: Fetcher, u: StateUpdate) {
    && u.sourceId == x.source && u.next.Some?
    && (u.next.value.etag.Some? ==>
          || (u.expected.Some? && u.expected.value.etag.Some?
              && w.content(x.source, u.endpoint, u.next.value.etag.value) == w.content(x.source, u.endpoint,
                      u.expected.value.etag.value))
          || Doc(u.endpoint, w.content(x.source, u.endpoint, u.next.value.etag.value)) in x.docs)
  }

  predicate DistinctTargets(x: Fetcher) {
    && UniqueTargets(x.updates) && Distinct(x.todo)
    && forall i, j | 0 <= i < |x.updates| && 0 <= j < |x.todo| :: x.updates[i].endpoint != x.todo[j]
  }

  // The version a fetcher is working on is that of its next document.
  predicate IsOwnVersion(w: World, t: Tables, x: Fetcher, id: nat) {
    && x.indexed < |x.docs| && id in t.versions && t.versions[id].sourceId == x.source
    && t.versions[id].canonicalUrl == w.url(x.source, x.docs[x.indexed].endpoint)
    && t.versions[id].contentHash == x.docs[x.indexed].hash
  }

  ghost predicate SoundFetcher(w: World, t: Tables, x: Fetcher) {
    && DistinctTargets(x) && x.indexed <= |x.docs|
    && (forall u <- x.updates :: IsBacked(w, x, u))
    && (forall endpoint <- x.seen :: NamesIndexed(w, t, x.source, endpoint, x.seen[endpoint]))
    && (forall k | 0 <= k < x.indexed :: IsIndexed(w, t, x.source, x.docs[k].endpoint, x.docs[k].hash))
    && (x.phase.Checking? || x.phase.Replacing? ==> IsOwnVersion(w, t, x, x.phase.id))
  }

  ghost predicate Inv(w: World, s: System) {
    && s.tables.Valid() && EtagsNameIndexed(w, s.tables)
    && forall i | 0 <= i < |s.fetchers| :: SoundFetcher(w, s.tables, s.fetchers[i])
  }

  // What changes of the tables may do: versions stay as they are, complete ones complete.
  ghost predicate Grows(w: World, t: Tables, t': Tables) {
    && (forall id <- t.versions :: id in t'.versions && SameVersion(t'.versions[id], t.versions[id]))
    && (forall id <- t.versions :: CompleteChunks(t, id, w.model, w.hashes(t.versions[id].contentHash)) ==>
                                   CompleteChunks(t', id, w.model, w.hashes(t.versions[id].contentHash)))
  }

  lemma {:induction false} SameChunksGrow(w: World, t: Tables, t': Tables)
    requires t'.chunks == t.chunks
             && forall id <- t.versions :: id in t'.versions && SameVersion(t'.versions[id], t.versions[id])
    ensures Grows(w, t, t')
  {
    forall id | id in t.versions && CompleteChunks(t, id, w.model, w.hashes(t.versions[id].contentHash))
      ensures CompleteChunks(t', id, w.model, w.hashes(t.versions[id].contentHash))
    {
      SameComplete(t, t', id, w.model, w.hashes(t.versions[id].contentHash));
    }
  }

  lemma {:induction false} SameComplete(t: Tables, t': Tables, id: nat, model: string, hashes: seq<string>)
    requires t'.chunks == t.chunks && CompleteChunks(t, id, model, hashes)
    ensures CompleteChunks(t', id, model, hashes)
  {
    forall i | 0 <= i < |hashes| ensures HasChunkAt(t', id, model, i) {
      assert HasChunkAt(t, id, model, i);
      var c :| IsChunkAt(t, id, model, i, c);
      assert IsChunkAt(t', id, model, i, c);
    }
  }

  // Replacing a version's chunks by those of its content completes it ...
  lemma {:induction false} ReplacedIsComplete(w: World, t: Tables, versionId: nat, chunks: seq<Chunk>, hash: string)
    requires t.Valid() && AreChunksOf(w, chunks, versionId, hash)
    ensures CompleteChunks(ChunksReplaced(t, versionId, chunks), versionId, w.model, w.hashes(hash))
  {
    hide Inserted;
    var t' := ChunksReplaced(t, versionId, chunks);
    InsertedContents(WithoutVersion(t.chunks, versionId), chunks, t.nextChunkId);
    forall i | 0 <= i < |w.hashes(hash)| ensures HasChunkAt(t', versionId, w.model, i) {
      assert t'.chunks[t.nextChunkId + i] == chunks[i];
      assert IsChunkAt(t', versionId, w.model, i, t.nextChunkId + i);
    }
  }

  // ... and leaves every other version's alone.
  lemma {:induction false} OthersStayComplete(w: World, t: Tables, versionId: nat, chunks: seq<Chunk>, id: nat,
                                              hashes: seq<string>)
    requires t.Valid() && ValidChunks(chunks, versionId) && id != versionId && CompleteChunks(t, id, w.model, hashes)
    ensures CompleteChunks(ChunksReplaced(t, versionId, chunks), id, w.model, hashes)
  {
    var t' := ChunksReplaced(t, versionId, chunks);
    InsertedContents(WithoutVersion(t.chunks, versionId), chunks, t.nextChunkId);
    forall i | 0 <= i < |hashes| ensures HasChunkAt(t', id, w.model, i) {
      assert HasChunkAt(t, id, w.model, i);
      var c :| IsChunkAt(t, id, w.model, i, c);
      assert IsChunkAt(t', id, w.model, i, c);
    }
  }

  lemma {:induction false} ReplaceGrows(w: World, t: Tables, versionId: nat, chunks: seq<Chunk>)
    requires t.Valid() && versionId in t.versions
             && AreChunksOf(w, chunks, versionId, t.versions[versionId].contentHash)
    ensures Grows(w, t, ChunksReplaced(t, versionId, chunks))
  {
    hide CompleteChunks, ChunksReplaced;
    var t' := ChunksReplaced(t, versionId, chunks);
    assert t'.versions == t.versions by { SameVersionsReplaced(t, versionId, chunks); }
    ReplacedIsComplete(w, t, versionId, chunks, t.versions[versionId].contentHash);
    forall id | id in t.versions && id != versionId
        && CompleteChunks(t, id, w.model, w.hashes(t.versions[id].contentHash))
      ensures CompleteChunks(t', id, w.model, w.hashes(t.versions[id].contentHash))
    {
      OthersStayComplete(w, t, versionId, chunks, id, w.hashes(t.versions[id].contentHash));
    }
  }

  lemma {:induction false} SameVersionsReplaced(t: Tables, versionId: nat, chunks: seq<Chunk>)
    ensures ChunksReplaced(t, versionId, chunks).versions == t.versions
            && ChunksReplaced(t, versionId, chunks).sources == t.sources
  {
  }

  lemma {:induction false} IndexedStays(w: World, t: Tables, t': Tables, source: string, endpoint: Endpoint,
                                        hash: string)
    requires Grows(w, t, t') && IsIndexed(w, t, source, endpoint, hash)
    ensures IsIndexed(w, t', source, endpoint, hash)
  {
    hide CompleteChunks;
    var id :| IsIndexedAs(w, t, source, endpoint, hash, id);
    assert IsIndexedAs(w, t', source, endpoint, hash, id);
  }

  lemma {:induction false} FetcherStays(w: World, t: Tables, t': Tables, x: Fetcher)
    requires Grows(w, t, t') && SoundFetcher(w, t, x)
    ensures SoundFetcher(w, t', x)
  {
    hide IsIndexed, DistinctTargets, IsBacked, CompleteChunks;
    forall endpoint | endpoint in x.seen ensures NamesIndexed(w, t', x.source, endpoint, x.seen[endpoint]) {
      assert NamesIndexed(w, t, x.source, endpoint, x.seen[endpoint]);
      if x.seen[endpoint].Some? && x.seen[endpoint].value.etag.Some? {
        IndexedStays(w, t, t', x.source, endpoint, w.content(x.source, endpoint, x.seen[endpoint].value.etag.value));
      }
    }
    forall k | 0 <= k < x.indexed ensures IsIndexed(w, t', x.source, x.docs[k].endpoint, x.docs[k].hash) {
      IndexedStays(w, t, t', x.source, x.docs[k].endpoint, x.docs[k].hash);
    }
  }

  lemma {:induction false} EtagsStay(w: World, t: Tables, t': Tables)
    requires Grows(w, t, t') && EtagsNameIndexed(w, t)
             && forall source, endpoint :: StateOf(t', source, endpoint) == StateOf(t, source, endpoint)
    ensures EtagsNameIndexed(w, t')
  {
    hide IsIndexed, Grows, StateOf;
    forall source, endpoint ensures NamesIndexed(w, t', source, endpoint, StateOf(t', source, endpoint)) {
      assert NamesIndexed(w, t, source, endpoint, StateOf(t, source, endpoint));
      var state := StateOf(t, source, endpoint);
      if state.Some? && state.value.etag.Some? {
        IndexedStays(w, t, t', source, endpoint, w.content(source, endpoint, state.value.etag.value));
      }
    }
  }

  lemma {:induction false} SameTargets(x: Fetcher, y: Fetcher)
    requires DistinctTargets(x) && y.updates == x.updates && y.todo == x.todo
    ensures DistinctTargets(y)
  {
  }

  lemma {:induction false} PhaseIsSound(w: World, t: Tables, x: Fetcher, phase: Phase)
    requires SoundFetcher(w, t, x) && (phase.Checking? || phase.Replacing? ==> IsOwnVersion(w, t, x, phase.id))
    ensures SoundFetcher(w, t, x.(phase := phase))
  {
    hide IsIndexed, DistinctTargets, CompleteChunks, NamesIndexed;
    var y := x.(phase := phase);
    SameTargets(x, y);
    forall u | u in y.updates ensures IsBacked(w, y, u) { assert IsBacked(w, x, u); }
  }

  // One fetcher moves, the tables only grow and no state changes.
  lemma {:induction false} QuietStep(w: World, s: System, f: nat, s': System)
    requires Inv(w, s) && f < |s.fetchers| && |s'.fetchers| == |s.fetchers|
             && s'.fetchers == s.fetchers[f := s'.fetchers[f]]
    requires s'.tables.Valid() && Grows(w, s.tables, s'.tables)
    requires forall source, endpoint :: StateOf(s'.tables, source, endpoint) == StateOf(s.tables, source, endpoint)
    requires SoundFetcher(w, s'.tables, s'.fetchers[f])
    ensures Inv(w, s')
  {
    hide SoundFetcher, EtagsNameIndexed, Grows, StateOf, Tables.Valid;
    EtagsStay(w, s.tables, s'.tables);
    forall i | 0 <= i < |s'.fetchers| ensures SoundFetcher(w, s'.tables, s'.fetchers[i]) {
      if i != f { FetcherStays(w, s.tables, s'.tables, s.fetchers[i]); }
    }
  }

  lemma {:induction false} Unmoved(w: World, t: Tables)
    ensures Grows(w, t, t)
  {
    hide CompleteChunks;
  }

  lemma {:induction false} ReadKeepsInv(w: World, s: System, f: nat, endpoint: Endpoint, s': System)
    requires Inv(w, s) && Next(w, s, Read(f, endpoint), s')
    ensures Inv(w, s')
  {
    hide IsIndexed, DistinctTargets, IsBacked, CompleteChunks, StateOf, Tables.Valid;
    assert SoundFetcher(w, s.tables, s.fetchers[f]);
    assert NamesIndexed(w, s.tables, s.fetchers[f].source, endpoint, StateOf(s.tables, s.fetchers[f].source, endpoint));
    Unmoved(w, s.tables);
    SameTargets(s.fetchers[f], s'.fetchers[f]);
    forall u | u in s'.fetchers[f].updates ensures IsBacked(w, s'.fetchers[f], u) {
      SameBacking(w, s.fetchers[f], s'.fetchers[f], u);
    }
    QuietStep(w, s, f, s');
  }

  lemma {:induction false} SameBacking(w: World, x: Fetcher, y: Fetcher, u: StateUpdate)
    requires IsBacked(w, x, u) && y.source == x.source && y.docs == x.docs
    ensures IsBacked(w, y, u)
  {
  }

  lemma {:induction false} TargetsStayDistinct(x: Fetcher, u: StateUpdate)
    requires DistinctTargets(x) && |x.todo| > 0 && u.endpoint == x.todo[0]
    ensures DistinctTargets(x.(todo := x.todo[1..], updates := x.updates + [u]))
  {
  }

  lemma {:induction false} MoreDocsBack(w: World, x: Fetcher, y: Fetcher, u: StateUpdate)
    requires IsBacked(w, x, u) && y.source == x.source && forall d <- x.docs :: d in y.docs
    ensures IsBacked(w, y, u)
  {
  }

  // The update a response adds stores the old ETag, or one of the response's own content.
  lemma {:induction false} ResponseIsBacked(w: World, x: Fetcher, headers: Headers, hash: Option<string>, now: int,
                                            y: Fetcher)
    requires MayRespond(x) && IsHonest(w, x, headers, hash)
    requires y == Responded(x, headers, now, if hash.Some? then x.docs + [Doc(x.todo[0], hash.value)] else x.docs)
    ensures IsBacked(w, y, y.updates[|x.updates|])
  {
    if hash.Some? { assert y.docs[|x.docs|] == Doc(x.todo[0], hash.value); }
  }

  lemma {:induction false} RespondKeepsSound(w: World, t: Tables, x: Fetcher, headers: Headers, hash: Option<string>,
                                             now: int, y: Fetcher)
    requires SoundFetcher(w, t, x) && MayRespond(x) && IsHonest(w, x, headers, hash)
    requires y == Responded(x, headers, now, if hash.Some? then x.docs + [Doc(x.todo[0], hash.value)] else x.docs)
    ensures SoundFetcher(w, t, y)
  {
    hide IsIndexed, DistinctTargets, IsBacked, IsHonest, CompleteChunks, SuccessState, NamesIndexed;
    var u := y.updates[|x.updates|];
    TargetsStayDistinct(x, u);
    SameTargets(x.(todo := x.todo[1..], updates := x.updates + [u]), y);
    ResponseIsBacked(w, x, headers, hash, now, y);
    forall v | v in y.updates ensures IsBacked(w, y, v) {
      if v in x.updates { MoreDocsBack(w, x, y, v); } else { assert v == u; }
    }
  }

  lemma {:induction false} RespondKeepsInv(w: World, s: System, f: nat, headers: Headers, hash: Option<string>,
                                           now: int, s': System)
    requires Inv(w, s)
    requires if hash.Some? then Next(w, s, Respond200(f, headers, hash.value, now), s')
             else Next(w, s, Respond304(f, headers, now), s')
    ensures Inv(w, s')
  {
    hide SoundFetcher, EtagsNameIndexed, IsHonest, Responded, Grows, Tables.Valid;
    assert SoundFetcher(w, s.tables, s.fetchers[f]);
    RespondKeepsSound(w, s.tables, s.fetchers[f], headers, hash, now, s'.fetchers[f]);
    Unmoved(w, s.tables);
    QuietStep(w, s, f, s');
  }

  // ---------------------------------------------------------------- compare-and-set

  lemma {:induction false} LimitedKeepsInv(w: World, s: System, f: nat, headers: Headers, now: int, s': System)
    requires Inv(w, s) && Next(w, s, Limited(f, headers, now), s')
    ensures Inv(w, s')
  {
    hide SoundFetcher, IsIndexed, StateAfter, Grows, Tables.Valid;
    var x := s.fetchers[f];
    assert SoundFetcher(w, s.tables, x);
    PhaseIsSound(w, s.tables, x, Over(false));
    var u := StateUpdate(x.source, x.todo[0], x.seen[x.todo[0]], Some(DeferredState(x.seen[x.todo[0]], headers, now)));
    if StateAfter(s.tables, [u]).Some? {
      StateAfterAccounted(s.tables, [u]);
      CompareAndSetIsAllOrNothing(s.tables, [u]);
      var t' := StateAfter(s.tables, [u]).value;
      assert [u][0] == u;
      SameChunksGrow(w, s.tables, t');
      forall source, endpoint ensures NamesIndexed(w, t', source, endpoint, StateOf(t', source, endpoint)) {
        DeferralNames(w, s.tables, u, t', source, endpoint);
      }
      MovedKeepsInv(w, s, f, s');
    } else {
      Unmoved(w, s.tables);
      QuietStep(w, s, f, s');
    }
  }

  // A deferral keeps the ETag it found.
  lemma {:induction false} DeferralNames(w: World, t: Tables, u: StateUpdate, t': Tables, source: string,
                                         endpoint: Endpoint)
    requires EtagsNameIndexed(w, t) && Grows(w, t, t')
    requires u.next.Some? && u.expected == StateOf(t, u.sourceId, u.endpoint)
             && u.next.value.etag == Base(u.expected).etag
    requires StateOf(t', u.sourceId, u.endpoint) == u.next
    requires source != u.sourceId || endpoint != u.endpoint ==>
             StateOf(t', source, endpoint) == StateOf(t, source, endpoint)
    ensures NamesIndexed(w, t', source, endpoint, StateOf(t', source, endpoint))
  {
    hide IsIndexed, Grows, StateOf;
    assert NamesIndexed(w, t, source, endpoint, StateOf(t, source, endpoint));
    var state := StateOf(t', source, endpoint);
    if state.Some? && state.value.etag.Some? {
      IndexedStays(w, t, t', source, endpoint, w.content(source, endpoint, state.value.etag.value));
    }
  }

  lemma {:induction false} MovedKeepsInv(w: World, s: System, f: nat, s': System)
    requires Inv(w, s) && f < |s.fetchers| && |s'.fetchers| == |s.fetchers|
             && s'.fetchers == s.fetchers[f := s'.fetchers[f]]
    requires s'.tables.Valid() && Grows(w, s.tables, s'.tables) && EtagsNameIndexed(w, s'.tables)
    requires SoundFetcher(w, s.tables, s'.fetchers[f])
    ensures Inv(w, s')
  {
    hide SoundFetcher, EtagsNameIndexed, Grows, Tables.Valid;
    forall i | 0 <= i < |s'.fetchers| ensures SoundFetcher(w, s'.tables, s'.fetchers[i]) {
      FetcherStays(w, s.tables, s'.tables, s'.fetchers[i]);
    }
  }

  // An update of a commit stores an ETag whose document is indexed by then.
  lemma {:induction false} CommitNames(w: World, t: Tables, x: Fetcher, u: StateUpdate)
    requires SoundFetcher(w, t, x) && EtagsNameIndexed(w, t) && x.indexed == |x.docs| && u in x.updates
    requires u.expected == StateOf(t, u.sourceId, u.endpoint)
    ensures u.sourceId == x.source && NamesIndexed(w, t, u.sourceId, u.endpoint, u.next)
  {
    hide IsIndexed, DistinctTargets, StateOf, CompleteChunks;
    assert IsBacked(w, x, u);
    assert NamesIndexed(w, t, u.sourceId, u.endpoint, StateOf(t, u.sourceId, u.endpoint));
    if u.next.value.etag.Some? {
      var doc := Doc(u.endpoint, w.content(x.source, u.endpoint, u.next.value.etag.value));
      if doc in x.docs {
        var k :| 0 <= k < |x.docs| && x.docs[k] == doc;
        assert IsIndexed(w, t, x.source, x.docs[k].endpoint, x.docs[k].hash);
      }
    }
  }

  lemma {:induction false} CommitKeepsInv(w: World, s: System, f: nat, s': System)
    requires Inv(w, s) && Next(w, s, Commit(f), s')
    ensures Inv(w, s')
  {
    hide SoundFetcher, IsIndexed, StateAfter, Grows, StateOf, NamesIndexed, Tables.Valid;
    var x := s.fetchers[f];
    assert SoundFetcher(w, s.tables, x);
    PhaseIsSound(w, s.tables, x, Over(StateAfter(s.tables, x.updates).Some?));
    Targets(w, s.tables, x);
    if StateAfter(s.tables, x.updates).Some? {
      var t' := StateAfter(s.tables, x.updates).value;
      StateAfterAccounted(s.tables, x.updates);
      CompareAndSetIsAllOrNothing(s.tables, x.updates);
      SameChunksGrow(w, s.tables, t');
      forall source, endpoint ensures NamesIndexed(w, t', source, endpoint, StateOf(t', source, endpoint)) {
        if i :| 0 <= i < |x.updates| && x.updates[i].sourceId == source && x.updates[i].endpoint == endpoint {
          assert StateOf(t', x.updates[i].sourceId, x.updates[i].endpoint) == x.updates[i].next;
          CommitNames(w, s.tables, x, x.updates[i]);
          NamesStay(w, s.tables, t', source, endpoint, x.updates[i].next);
        } else {
          assert StateOf(t', source, endpoint) == StateOf(s.tables, source, endpoint);
          NamesStay(w, s.tables, t', source, endpoint, StateOf(s.tables, source, endpoint));
        }
      }
      MovedKeepsInv(w, s, f, s');
    } else {
      Unmoved(w, s.tables);
      QuietStep(w, s, f, s');
    }
  }

  lemma {:induction false} Targets(w: World, t: Tables, x: Fetcher)
    requires SoundFetcher(w, t, x)
    ensures UniqueTargets(x.updates)
  {
  }

  lemma {:induction false} NamesStay(w: World, t: Tables, t': Tables, source: string, endpoint: Endpoint,
                                     state: Option<EndpointState>)
    requires Grows(w, t, t') && NamesIndexed(w, t, source, endpoint, state)
    ensures NamesIndexed(w, t', source, endpoint, state)
  {
    hide IsIndexed, Grows;
    if state.Some? && state.value.etag.Some? {
      IndexedStays(w, t, t', source, endpoint, w.content(source, endpoint, state.value.etag.value));
    }
  }

  // ---------------------------------------------------------------- indexing

  lemma {:induction false} StoreKeepsInv(w: World, s: System, f: nat, version: Version, id: nat, s': System)
    requires Inv(w, s) && Next(w, s, Store(f, version, id), s')
    ensures Inv(w, s')
  {
    hide IsIndexed, DistinctTargets, CompleteChunks, NamesIndexed, Grows;
    var x := s.fetchers[f];
    assert SoundFetcher(w, s.tables, x);
    StoreVersionAccounted(s.tables, version);
    StoringGrows(w, s.tables, version);
    FetcherStays(w, s.tables, s'.tables, x);
    PhaseIsSound(w, s'.tables, x, Checking(id));
    QuietStep(w, s, f, s');
  }

  lemma {:induction false} StoringGrows(w: World, t: Tables, version: Version)
    requires t.Valid()
    ensures Grows(w, t, VersionStored(t, version))
    ensures forall source, endpoint ::
            StateOf(VersionStored(t, version), source, endpoint) == StateOf(t, source, endpoint)
  {
    hide CompleteChunks;
    SameChunksGrow(w, t, VersionStored(t, version));
  }

  // One more document is known to be indexed.
  lemma {:induction false} OneMoreIndexed(w: World, t: Tables, x: Fetcher, phase: Phase)
    requires SoundFetcher(w, t, x) && (x.phase.Checking? || x.phase.Replacing?) && phase == Storing
    requires CompleteChunks(t, x.phase.id, w.model, w.hashes(x.docs[x.indexed].hash))
    ensures SoundFetcher(w, t, x.(phase := phase, indexed := x.indexed + 1))
  {
    hide DistinctTargets, CompleteChunks, NamesIndexed;
    var y := x.(phase := phase, indexed := x.indexed + 1);
    SameTargets(x, y);
    assert IsIndexedAs(w, t, x.source, x.docs[x.indexed].endpoint, x.docs[x.indexed].hash, x.phase.id);
    forall u | u in y.updates ensures IsBacked(w, y, u) { assert IsBacked(w, x, u); }
  }

  lemma {:induction false} CheckKeepsInv(w: World, s: System, f: nat, s': System)
    requires Inv(w, s) && Next(w, s, Check(f), s')
    ensures Inv(w, s')
  {
    hide DistinctTargets, CompleteChunks, NamesIndexed, EtagsNameIndexed, IsIndexed, Grows, Tables.Valid;
    var x := s.fetchers[f];
    assert SoundFetcher(w, s.tables, x);
    Unmoved(w, s.tables);
    if CompleteChunks(s.tables, x.phase.id, w.model, w.hashes(x.docs[x.indexed].hash)) {
      OneMoreIndexed(w, s.tables, x, Storing);
    } else {
      PhaseIsSound(w, s.tables, x, Replacing(x.phase.id));
    }
    QuietStep(w, s, f, s');
  }

  lemma {:induction false} ReplaceKeepsInv(w: World, s: System, f: nat, chunks: seq<Chunk>, s': System)
    requires Inv(w, s) && Next(w, s, Replace(f, chunks), s')
    ensures Inv(w, s')
  {
    hide DistinctTargets, CompleteChunks, NamesIndexed, EtagsNameIndexed, IsIndexed, ChunksReplaced, Grows, StateOf;
    var x := s.fetchers[f];
    assert SoundFetcher(w, s.tables, x);
    ReplaceChunksAccounted(s.tables, x.phase.id, chunks);
    ReplaceGrows(w, s.tables, x.phase.id, chunks);
    ReplacedIsComplete(w, s.tables, x.phase.id, chunks, x.docs[x.indexed].hash);
    FetcherStays(w, s.tables, s'.tables, x);
    OneMoreIndexed(w, s'.tables, x, Storing);
    SameStates(s.tables, x.phase.id, chunks);
    QuietStep(w, s, f, s');
  }

  lemma {:induction false} SameStates(t: Tables, versionId: nat, chunks: seq<Chunk>)
    ensures forall source, endpoint ::
            StateOf(ChunksReplaced(t, versionId, chunks), source, endpoint) == StateOf(t, source, endpoint)
  {
    hide Inserted;
  }

  // ---------------------------------------------------------------- others

  lemma {:induction false} OthersKeepInv(w: World, s: System, t': Tables)
    requires Inv(w, s) && t'.Valid() && Grows(w, s.tables, t')
    requires forall source, endpoint :: StateOf(t', source, endpoint) == StateOf(s.tables, source, endpoint)
    ensures Inv(w, s.(tables := t'))
  {
    hide SoundFetcher, EtagsNameIndexed, Grows, StateOf, Tables.Valid;
    EtagsStay(w, s.tables, t');
    forall i | 0 <= i < |s.fetchers| ensures SoundFetcher(w, t', s.fetchers[i]) {
      FetcherStays(w, s.tables, t', s.fetchers[i]);
    }
  }

  lemma {:induction false} RegisteringGrows(w: World, t: Tables, name: string, owner: string, trustTier: TrustTier,
                                            registry: Registry)
    requires t.Valid()
    ensures Grows(w, t, SourceEnsured(t, name, owner, trustTier, registry))
    ensures forall source, endpoint ::
            StateOf(SourceEnsured(t, name, owner, trustTier, registry), source, endpoint) == StateOf(t, source,
                    endpoint)
  {
    hide CompleteChunks;
    SameChunksGrow(w, t, SourceEnsured(t, name, owner, trustTier, registry));
  }

  lemma {:induction false} PhaseKeepsInv(w: World, s: System, f: nat, phase: Phase, s': System)
    requires Inv(w, s) && f < |s.fetchers| && s' == Put(s, f, s.fetchers[f].(phase := phase))
             && (phase == Storing || phase == Over(false))
    ensures Inv(w, s')
  {
    hide DistinctTargets, CompleteChunks, NamesIndexed, EtagsNameIndexed, IsIndexed, Grows, Tables.Valid;
    var x := s.fetchers[f];
    assert SoundFetcher(w, s.tables, x);
    Unmoved(w, s.tables);
    PhaseIsSound(w, s.tables, x, phase);
    QuietStep(w, s, f, s');
  }

  lemma {:induction false} NextKeepsInv(w: World, s: System, step: Step, s': System)
    requires Inv(w, s) && Next(w, s, step, s')
    ensures Inv(w, s')
  {
    hide SoundFetcher, EtagsNameIndexed, Grows, StateOf, CompleteChunks, StateAfter, Responded, AreChunksOf,
         SourceEnsured, VersionStored, ChunksReplaced, IsHonest;
    match step
    case Read(f, endpoint) => ReadKeepsInv(w, s, f, endpoint, s');
    case Respond200(f, headers, hash, now) => RespondKeepsInv(w, s, f, headers, Some(hash), now, s');
    case Respond304(f, headers, now) => RespondKeepsInv(w, s, f, headers, None, now, s');
    case Limited(f, headers, now) => LimitedKeepsInv(w, s, f, headers, now, s');
    case StartIndexing(f) => PhaseKeepsInv(w, s, f, Storing, s');
    case Store(f, version, id) => StoreKeepsInv(w, s, f, version, id, s');
    case Check(f) => CheckKeepsInv(w, s, f, s');
    case Replace(f, chunks) => ReplaceKeepsInv(w, s, f, chunks, s');
    case Commit(f) => CommitKeepsInv(w, s, f, s');
    case Stop(f) => PhaseKeepsInv(w, s, f, Over(false), s');
    case OtherSource(name, owner, trustTier, registry) =>
      EnsureSourceAccounted(s.tables, name, owner, trustTier, registry);
      RegisteringGrows(w, s.tables, name, owner, trustTier, registry);
      OthersKeepInv(w, s, s'.tables);
    case OtherStore(version) =>
      StoreVersionAccounted(s.tables, version);
      StoringGrows(w, s.tables, version);
      OthersKeepInv(w, s, s'.tables);
    case OtherReplace(versionId, chunks) =>
      assert ValidChunks(chunks, versionId) by {
        ChunksAreValid(w, chunks, versionId, s.tables.versions[versionId].contentHash);
      }
      ReplaceChunksAccounted(s.tables, versionId, chunks);
      ReplaceGrows(w, s.tables, versionId, chunks);
      SameStates(s.tables, versionId, chunks);
      OthersKeepInv(w, s, s'.tables);
  }

  lemma {:induction false} ChunksAreValid(w: World, chunks: seq<Chunk>, versionId: nat, hash: string)
    requires AreChunksOf(w, chunks, versionId, hash)
    ensures ValidChunks(chunks, versionId)
  {
  }

  lemma {:induction false} RunKeepsInv(w: World, states: seq<System>, steps: seq<Step>, k: nat)
    requires IsRun(w, states, steps) && k < |states|
    ensures Inv(w, states[k])
  {
    hide Next, Inv;
    if k == 0 {
      StartsSound(w, states[0]);
    } else {
      RunKeepsInv(w, states, steps, k - 1);
      NextKeepsInv(w, states[k - 1], steps[k - 1], states[k]);
    }
  }

  lemma {:induction false} StartsSound(w: World, s: System)
    requires Initial(s)
    ensures Inv(w, s)
  {
    forall i | 0 <= i < |s.fetchers| ensures SoundFetcher(w, s.tables, s.fetchers[i]) { }
  }

  // ---------------------------------------------------------------- the code, statement by statement

  // The content of a fetched document: what is stored for it, and its chunks with their embeddings.
  datatype Crawled = Crawled(endpoint: Endpoint, version: Version, chunks: seq<Chunk>)

  predicate IsCrawled(w: World, source: string, c: Crawled) {
    && c.version.sourceId == source && c.version.canonicalUrl == w.url(source, c.endpoint) && |c.chunks| > 0
    && |c.chunks| == |w.hashes(c.version.contentHash)|
    && forall i | 0 <= i < |c.chunks| ::
         c.chunks[i].ordinal == i && c.chunks[i].contentHash == w.hashes(c.version.contentHash)[i]
             && c.chunks[i].embeddingModel == w.model
  }

  function ForVersion(chunks: seq<Chunk>, id: nat): (r: seq<Chunk>)
    ensures |r| == |chunks| && forall i | 0 <= i < |r| :: r[i] == chunks[i].(versionId := id)
  {
    seq(|chunks|, i requires 0 <= i < |chunks| => chunks[i].(versionId := id))
  }

  ghost predicate SameFetchStates(t: Tables, t': Tables) {
    forall source, endpoint :: StateOf(t', source, endpoint) == StateOf(t, source, endpoint)
  }

  lemma {:induction false} GrowsOn(w: World, a: Tables, b: Tables, c: Tables)
    requires Grows(w, a, b) && Grows(w, b, c)
    ensures Grows(w, a, c)
  {
    hide CompleteChunks;
  }

  // A version that is stored anew has no chunks yet, so it is complete only if it was stored before.
  lemma {:induction false} CompleteWasIndexed(w: World, t: Tables, source: string, c: Crawled, id: nat)
    requires t.Valid() && IsCrawled(w, source, c) && IsStored(VersionStored(t, c.version), c.version, id)
    ensures CompleteChunks(VersionStored(t, c.version), id, w.model, w.hashes(c.version.contentHash))
            <==> IsIndexed(w, t, source, c.endpoint, c.version.contentHash)
  {
    hide CompleteChunks;
    var t', hash := VersionStored(t, c.version), c.version.contentHash;
    if IsIndexed(w, t, source, c.endpoint, hash) {
      var v :| IsIndexedAs(w, t, source, c.endpoint, hash, v);
      assert IsStored(t, c.version, v);
      assert SameVersion(t.versions[v], t.versions[id]);
    }
    if CompleteChunks(t', id, w.model, w.hashes(hash)) {
      FirstChunk(t', id, w.model, w.hashes(hash));
      assert id in t.versions;
      SameComplete(t', t, id, w.model, w.hashes(hash));
      assert IsIndexedAs(w, t, source, c.endpoint, hash, id);
    }
  }

  lemma {:induction false} FirstChunk(t: Tables, id: nat, model: string, hashes: seq<string>)
    requires CompleteChunks(t, id, model, hashes) && |hashes| > 0
    ensures HasChunk(t, id)
  {
    assert HasChunkAt(t, id, model, 0);
    var c :| IsChunkAt(t, id, model, 0, c);
  }

  // Storing a version that has no chunks yet indexes nothing.
  lemma {:induction false} StoringIndexesNothing(w: World, t: Tables, source: string, c: Crawled)
    requires t.Valid() && IsCrawled(w, source, c)
    ensures IsIndexed(w, VersionStored(t, c.version), source, c.endpoint, c.version.contentHash)
            <==> IsIndexed(w, t, source, c.endpoint, c.version.contentHash)
  {
    hide CompleteChunks;
    var t', hash := VersionStored(t, c.version), c.version.contentHash;
    StoringGrows(w, t, c.version);
    if IsIndexed(w, t', source, c.endpoint, hash) {
      var id :| IsIndexedAs(w, t', source, c.endpoint, hash, id);
      CompleteWasIndexed(w, t, source, c, id);
    } else if IsIndexed(w, t, source, c.endpoint, hash) {
      IndexedStays(w, t, t', source, c.endpoint, hash);
    }
  }

  // Where the deadline or a failure strikes an indexing, if it does: while embedding, or at a statement
  // of the replacement of the chunks (counted as `Commits` does), or at one of the checks between the calls.
  datatype Halt = Never | AtStart | BehindStore | BehindCheck | Embedding | Writing(statements: nat)

  function InterruptOf(halt: Halt): Option<nat> { if halt.Writing? then Some(halt.statements) else None }

  predicate IsEarly(halt: Halt) { halt.AtStart? || halt.BehindStore? || halt.BehindCheck? }

  // The chunks are written; and the call returns behind that.
  predicate Writes(halt: Halt, c: Crawled) {
    !IsEarly(halt) && halt != Embedding && Commits(InterruptOf(halt), |c.chunks|)
  }

  predicate Finishes(halt: Halt, c: Crawled) { Writes(halt, c) && Returns(InterruptOf(halt), |c.chunks|) }

  method IndexDocument(repository: KnowledgeRepository, w: World, source: string, c: Crawled, halt: Halt)
    returns (r: Result<()>)
    requires repository.tables.Valid() && IsCrawled(w, source, c)
    modifies repository
    ensures repository.tables.Valid() && Grows(w, old(repository.tables), repository.tables)
    ensures SameFetchStates(old(repository.tables), repository.tables)
    ensures repository.tables.sources == old(repository.tables).sources
    ensures var known, before := source in old(repository.tables).sources,
                IsIndexed(w, old(repository.tables), source, c.endpoint, c.version.contentHash);
            && (IsIndexed(w, repository.tables, source, c.endpoint, c.version.contentHash)
                <==> before || (known && Writes(halt, c)))
            && (r.Ok? <==> known && !IsEarly(halt) && (before || Finishes(halt, c)))
  {
    hide CompleteChunks, StateOf, VersionStored, ChunksReplaced, IsIndexed;
    Unmoved(w, repository.tables);
    StoringKeepsSources(repository.tables, c.version);
    StoringGrows(w, repository.tables, c.version);
    StoringIndexesNothing(w, repository.tables, source, c);
    if halt.AtStart? { return Thrown; }
    var stored := repository.StoreVersion(c.version);
    if stored.Thrown? || halt.BehindStore? { return Thrown; }
    var id := stored.value;
    CompleteWasIndexed(w, old(repository.tables), source, c, id);
    var complete := repository.HasCompleteChunks(id, w.model, w.hashes(c.version.contentHash));
    if halt.BehindCheck? { return Thrown; }
    if !complete {
      if halt == Embedding { return Thrown; }
      var rows := ForVersion(c.chunks, id);
      assert AreChunksOf(w, rows, id, c.version.contentHash);
      ghost var before := repository.tables;
      ReplaceGrows(w, before, id, rows);
      ReplacedIsComplete(w, before, id, rows, c.version.contentHash);
      SameStates(before, id, rows);
      SameVersionsReplaced(before, id, rows);
      var replaced := repository.ReplaceChunks(id, rows, InterruptOf(halt));
      if Commits(InterruptOf(halt), |rows|) {
        GrowsOn(w, old(repository.tables), before, repository.tables);
        IndexedBy(w, repository.tables, source, c.endpoint, c.version.contentHash, id);
      }
      if replaced.Thrown? { return Thrown; }
    }
    return Ok(());
  }

  lemma {:induction false} StoringKeepsSources(t: Tables, version: Version)
    ensures VersionStored(t, version).sources == t.sources
  {
  }

  lemma {:induction false} IndexedBy(w: World, t: Tables, source: string, endpoint: Endpoint, hash: string, id: nat)
    requires IsIndexedAs(w, t, source, endpoint, hash, id)
    ensures IsIndexed(w, t, source, endpoint, hash)
  {
  }

  // The states are those of the updates, and every document is indexed.
  ghost predicate IsCommitted(w: World, t: Tables, source: string, crawled: seq<Crawled>, updates: seq<StateUpdate>,
                              t': Tables) {
    && (forall i | 0 <= i < |crawled| ::
          IsIndexed(w, t', source, crawled[i].endpoint, crawled[i].version.contentHash))
    && exists t1 :: SameFetchStates(t, t1) && StateAfter(t1, updates) == Some(t')
  }

  // The states are committed only behind the last document, and all or none of them; a throw leaves them
  // as they were unless it strikes behind the commit.
  method IndexCrawlResult(repository: KnowledgeRepository, w: World, source: string, crawled: seq<Crawled>,
                          updates: seq<StateUpdate>, halts: seq<Halt>, interrupt: Option<nat>)
    returns (r: Result<()>)
    requires repository.tables.Valid() && |halts| == |crawled|
    requires forall i | 0 <= i < |crawled| :: IsCrawled(w, source, crawled[i])
    modifies repository
    ensures repository.tables.Valid()
    ensures r.Ok? ==> IsCommitted(w, old(repository.tables), source, crawled, updates, repository.tables)
    ensures r.Thrown? && interrupt == Some(|updates| + 1) ==>
              SameFetchStates(old(repository.tables), repository.tables)
              || IsCommitted(w, old(repository.tables), source, crawled, updates, repository.tables)
    ensures r.Thrown? && interrupt != Some(|updates| + 1) ==>
              SameFetchStates(old(repository.tables), repository.tables)
    ensures source in old(repository.tables).sources
            && (forall i | 0 <= i < |crawled| ::
                  !IsEarly(halts[i])
                  && (IsIndexed(w, old(repository.tables), source, crawled[i].endpoint, crawled[i].version.contentHash)
                      || Finishes(halts[i], crawled[i])))
            && UniqueTargets(updates) && |updates| <= 5 && Returns(interrupt, |updates|) ==>
              (r.Ok? <==> forall i | 0 <= i < |updates| ::
                            updates[i].sourceId in old(repository.tables).sources
                            && StateOf(old(repository.tables), updates[i].sourceId, updates[i].endpoint)
                               == updates[i].expected)
  {
    hide IsIndexed, Grows, StateOf, StateAfter, IsCrawled, Finishes, Writes, UniqueTargets;
    var i := 0;
    Unmoved(w, repository.tables);
    while i < |crawled|
      invariant 0 <= i <= |crawled| && repository.tables.Valid()
                && SameFetchStates(old(repository.tables), repository.tables)
      invariant repository.tables.sources == old(repository.tables).sources
                && Grows(w, old(repository.tables), repository.tables)
      invariant forall k | 0 <= k < i ::
                IsIndexed(w, repository.tables, source, crawled[k].endpoint, crawled[k].version.contentHash)
    {
      ghost var before := repository.tables;
      if IsIndexed(w, old(repository.tables), source, crawled[i].endpoint, crawled[i].version.contentHash) {
        IndexedStays(w, old(repository.tables), before, source, crawled[i].endpoint, crawled[i].version.contentHash);
      }
      var indexed := IndexDocument(repository, w, source, crawled[i], halts[i]);
      if indexed.Thrown? { return Thrown; }
      if Finishes(halts[i], crawled[i]) { FinishedIsWritten(halts[i], crawled[i]); }
      GrowsOn(w, old(repository.tables), before, repository.tables);
      forall k | 0 <= k < i ensures IsIndexed(w, repository.tables, source, crawled[k].endpoint,
                                              crawled[k].version.contentHash) {
        IndexedStays(w, before, repository.tables, source, crawled[k].endpoint, crawled[k].version.contentHash);
      }
      i := i + 1;
    }
    if interrupt == Some(0) { return Thrown; }
    ghost var before := repository.tables;
    if UniqueTargets(updates) { CompareAndSetIsAllOrNothing(before, updates); }
    var committed := repository.CompareAndSetGithubEndpointStates(updates, interrupt);
    if repository.tables != before {
      CommitGrows(w, before, updates);
      forall k | 0 <= k < |crawled|
        ensures IsIndexed(w, repository.tables, source, crawled[k].endpoint, crawled[k].version.contentHash) {
        IndexedStays(w, before, repository.tables, source, crawled[k].endpoint, crawled[k].version.contentHash);
      }
    }
    if committed != Ok(true) { return Thrown; }
    return Ok(());
  }

  lemma {:induction false} FinishedIsWritten(halt: Halt, c: Crawled)
    requires Finishes(halt, c)
    ensures Writes(halt, c)
  {
  }

  lemma {:induction false} CommitGrows(w: World, t: Tables, updates: seq<StateUpdate>)
    requires StateAfter(t, updates).Some?
    ensures Grows(w, t, StateAfter(t, updates).value)
    decreases |updates|
  {
    hide CompleteChunks;
    if |updates| == 0 {
      Unmoved(w, t);
    } else {
      var u := updates[0];
      var t1 := SetState(t, u.sourceId, u.endpoint, u.next);
      SameChunksGrow(w, t, t1);
      CommitGrows(w, t1, updates[1..]);
      GrowsOn(w, t, t1, StateAfter(t1, updates[1..]).value);
    }
  }

  // ---------------------------------------------------------------- theorems

  // A stored ETag names a version all of whose chunks are there, whatever ran and stopped when.
  lemma {:induction false} StoredEtagsNameIndexedVersions(w: World, s: System, source: string, endpoint: Endpoint)
    requires Reachable(w, s) && StateOf(s.tables, source, endpoint).Some?
             && StateOf(s.tables, source, endpoint).value.etag.Some?
    ensures IsIndexed(w, s.tables, source, endpoint,
                      w.content(source, endpoint, StateOf(s.tables, source, endpoint).value.etag.value))
  {
    hide IsIndexed, SoundFetcher, Tables.Valid, StateOf;
    var states, steps :| IsRun(w, states, steps) && states[|steps|] == s;
    RunKeepsInv(w, states, steps, |steps|);
    assert NamesIndexed(w, s.tables, source, endpoint, StateOf(s.tables, source, endpoint));
  }

  // So a 304, whenever the state behind it was read, never skips a version that is not indexed.
  lemma {:induction false} NotModifiedSkipsNothing(w: World, s: System, f: nat, headers: Headers, now: int, s': System)
    requires Reachable(w, s) && Next(w, s, Respond304(f, headers, now), s')
    ensures var x := s.fetchers[f];
            IsIndexed(w, s.tables, x.source, x.todo[0],
                      w.content(x.source, x.todo[0], x.seen[x.todo[0]].value.etag.value))
  {
    hide IsIndexed, EtagsNameIndexed, Tables.Valid, Responded;
    var states, steps :| IsRun(w, states, steps) && states[|steps|] == s;
    RunKeepsInv(w, states, steps, |steps|);
    assert SoundFetcher(w, s.tables, s.fetchers[f]);
    assert NamesIndexed(w, s.tables, s.fetchers[f].source, s.fetchers[f].todo[0],
                        s.fetchers[f].seen[s.fetchers[f].todo[0]]);
  }

  // The one state change a deferral asks for.
  function Deferral(x: Fetcher, headers: Headers, now: int): StateUpdate
    requires MayRespond(x)
  {
    StateUpdate(x.source, x.todo[0], x.seen[x.todo[0]], Some(DeferredState(x.seen[x.todo[0]], headers, now)))
  }

  // Every target was in its expected state and is in its next one, and no other endpoint is touched.
  ghost predicate Replaces(t: Tables, updates: seq<StateUpdate>, t': Tables) {
    && (forall u <- updates ::
          StateOf(t, u.sourceId, u.endpoint) == u.expected && StateOf(t', u.sourceId, u.endpoint) == u.next)
    && (forall source, endpoint | (forall u <- updates :: u.sourceId != source || u.endpoint != endpoint) ::
          StateOf(t', source, endpoint) == StateOf(t, source, endpoint))
  }

  lemma {:induction false} WinningReplaces(t: Tables, updates: seq<StateUpdate>)
    requires UniqueTargets(updates) && StateAfter(t, updates).Some?
    ensures Replaces(t, updates, StateAfter(t, updates).value)
  {
    hide StateAfter, StateOf, UniqueTargets;
    CompareAndSetIsAllOrNothing(t, updates);
    var t' := StateAfter(t, updates).value;
    forall u <- updates
      ensures StateOf(t, u.sourceId, u.endpoint) == u.expected && StateOf(t', u.sourceId, u.endpoint) == u.next
    {
      var i :| 0 <= i < |updates| && updates[i] == u;
    }
    forall source, endpoint | (forall u <- updates :: u.sourceId != source || u.endpoint != endpoint)
      ensures StateOf(t', source, endpoint) == StateOf(t, source, endpoint)
    {
      assert forall i | 0 <= i < |updates| :: updates[i] in updates;
    }
  }

  lemma {:induction false} OneTarget(u: StateUpdate)
    ensures UniqueTargets([u])
  {
  }

  // A commit or a deferral that finds every state it expects writes exactly its own next states.  Nothing
  // else changes any state of any endpoint: not a stop or crash, not a lost compare-and-set, not indexing.
  lemma {:induction false} OnlyWinnersChangeStates(w: World, s: System, step: Step, s': System)
    requires Reachable(w, s) && Next(w, s, step, s')
    ensures match step
            case Commit(f) =>
              if s'.fetchers[f].phase == Over(true) then Replaces(s.tables, s.fetchers[f].updates, s'.tables)
              else SameFetchStates(s.tables, s'.tables)
                   && exists u <- s.fetchers[f].updates ::
                        u.sourceId !in s.tables.sources || StateOf(s.tables, u.sourceId, u.endpoint) != u.expected
            case Limited(f, headers, now) =>
              var u := Deferral(s.fetchers[f], headers, now);
              if u.sourceId in s.tables.sources && StateOf(s.tables, u.sourceId, u.endpoint) == u.expected
              then Replaces(s.tables, [u], s'.tables) else SameFetchStates(s.tables, s'.tables)
            case _ => SameFetchStates(s.tables, s'.tables)
  {
    hide IsIndexed, EtagsNameIndexed, Tables.Valid, Responded, StateAfter, SoundFetcher, IsHonest, CompleteChunks,
         AreChunksOf, StateOf, UniqueTargets, DeferredState, Replaces;
    var states, steps :| IsRun(w, states, steps) && states[|steps|] == s;
    RunKeepsInv(w, states, steps, |steps|);
    match step
    case Limited(f, headers, now) =>
      var u := Deferral(s.fetchers[f], headers, now);
      OneTarget(u);
      CompareAndSetIsAllOrNothing(s.tables, [u]);
      assert [u][0] == u;
      if StateAfter(s.tables, [u]).Some? { WinningReplaces(s.tables, [u]); }
    case Commit(f) =>
      assert SoundFetcher(w, s.tables, s.fetchers[f]);
      Targets(w, s.tables, s.fetchers[f]);
      var updates := s.fetchers[f].updates;
      CompareAndSetIsAllOrNothing(s.tables, updates);
      if StateAfter(s.tables, updates).Some? {
        WinningReplaces(s.tables, updates);
      } else {
        var i :| 0 <= i < |updates|
                 && !(updates[i].sourceId in s.tables.sources
                      && StateOf(s.tables, updates[i].sourceId, updates[i].endpoint) == updates[i].expected);
        assert updates[i] in updates;
      }
    case Replace(f, chunks) => SameStates(s.tables, s.fetchers[f].phase.id, chunks);
    case OtherReplace(versionId, chunks) => SameStates(s.tables, versionId, chunks);
    case OtherSource(name, owner, trustTier, registry) => RegisteringGrows(w, s.tables, name, owner, trustTier,
                                                                           registry);
    case OtherStore(version) => StoringGrows(w, s.tables, version);
    case Store(_, version, _) => StoringGrows(w, s.tables, version);
    case _ =>
  }
}
