/**
 * The knowledge tables and the repository that changes them
 * (packages/cardano-agent/src/knowledge/knowledgeRepository.ts).
 *
 * `Tables` is the committed content of the database.  The functions that return `Tables` are
 * the specifications of the repository's transactions; the methods of `KnowledgeRepository`
 * perform them statement by statement and are proved to refine them, including the rollback
 * taken when a statement is interrupted by a deadline, an abort or a database failure.
 */
module Knowledge {
  import opened Wrappers

  datatype TrustTier = Official | Community | Unverified

  datatype Registry = Registry(kind: string, topics: seq<string>, networks: seq<string>, rest: string)

  datatype Endpoint = Organization | Repository | Readme | Releases | Tags

  datatype EndpointState = EndpointState(
    etag: Option<string>,
    checkedAt: Option<int>,
    retryAt: Option<int>,
    rateLimitResetAt: Option<int>,
    rateLimitRemaining: Option<nat>)

  datatype Source = Source(owner: string, trustTier: TrustTier, registry: Registry,
                           fetchState: map<Endpoint, EndpointState>)

  datatype Version = Version(sourceId: string, canonicalUrl: string, title: string, contentHash: string,
                             publishedAt: Option<int>, retrievedAt: int)

  datatype Chunk = Chunk(versionId: nat, ordinal: nat, heading: string, content: string,
                         contentHash: string, embeddingModel: string, embedding: seq<real>)

  datatype Tables = Tables(
    sources: map<string, Source>,
    versions: map<nat, Version>,
    chunks: map<nat, Chunk>,
    nextVersionId: nat,
    nextChunkId: nat,
    revision: nat)
  {
    // Foreign keys, unique keys, and identity columns that never hand out a used id.
    ghost predicate Valid() {
      && (forall v <- versions :: versions[v].sourceId in sources && v < nextVersionId)
      && (forall v, w {:trigger SameVersion(versions[v], versions[w])} | v in versions && w in versions
          && SameVersion(versions[v], versions[w]) :: v == w)
      && (forall c <- chunks :: chunks[c].versionId in versions && c < nextChunkId)
      && (forall c, d {:trigger SamePlace(chunks[c], chunks[d])} | c in chunks && d in chunks
          && SamePlace(chunks[c], chunks[d]) :: c == d)
      && 1 <= nextVersionId && 1 <= nextChunkId
    }
  }

  predicate SameVersion(v: Version, w: Version) {
    v.sourceId == w.sourceId && v.canonicalUrl == w.canonicalUrl && v.contentHash == w.contentHash
  }

  predicate SamePlace(c: Chunk, d: Chunk) { c.versionId == d.versionId && c.ordinal == d.ordinal }

  ghost predicate IsStored(t: Tables, input: Version, id: nat) {
    id in t.versions && SameVersion(t.versions[id], input)
  }

  predicate SameRegistration(s: Source, owner: string, trustTier: TrustTier, registry: Registry) {
    s.owner == owner && s.trustTier == trustTier && s.registry == registry
  }

  // ---------------------------------------------------------------- transactions, as functions

  function SourceEnsured(t: Tables, id: string, owner: string, trustTier: TrustTier, registry: Registry): Tables {
    if id in t.sources && SameRegistration(t.sources[id], owner, trustTier, registry) then t
    else
      var fetchState := if id in t.sources then t.sources[id].fetchState else map[];
      t.(sources := t.sources[id := Source(owner, trustTier, registry, fetchState)], revision := t.revision + 1)
  }

  ghost function VersionStored(t: Tables, input: Version): Tables {
    if exists id :: IsStored(t, input, id) then t
    else t.(versions := t.versions[t.nextVersionId := input], nextVersionId := t.nextVersionId + 1)
  }

  predicate ValidChunks(chunks: seq<Chunk>, versionId: nat) {
    && |chunks| > 0
    && (forall i | 0 <= i < |chunks| :: chunks[i].versionId == versionId)
    && (forall i, j | 0 <= i < j < |chunks| :: chunks[i].ordinal != chunks[j].ordinal)
  }

  function WithoutVersion(chunks: map<nat, Chunk>, versionId: nat): map<nat, Chunk> {
    map c | c in chunks && chunks[c].versionId != versionId :: chunks[c]
  }

  // The rows after inserting `chunks` one by one with ids counted from `from`.
  function Inserted(rows: map<nat, Chunk>, chunks: seq<Chunk>, from: nat): map<nat, Chunk> {
    if |chunks| == 0 then rows
    else
      var last := |chunks| - 1;
      Inserted(rows, chunks[..last], from)[from + last := chunks[last]]
  }

  lemma {:induction false} InsertedContents(rows: map<nat, Chunk>, chunks: seq<Chunk>, from: nat)
    ensures var r := Inserted(rows, chunks, from);
            && (forall c :: c in r <==> c in rows || from <= c < from + |chunks|)
            && (forall c <- r :: r[c] == if from <= c < from + |chunks| then chunks[c - from] else rows[c])
  {
    if |chunks| > 0 { InsertedContents(rows, chunks[..|chunks| - 1], from); }
  }

  lemma InsertedOneMore(rows: map<nat, Chunk>, chunks: seq<Chunk>, from: nat, i: nat)
    requires i < |chunks|
    ensures Inserted(rows, chunks[..i + 1], from) == Inserted(rows, chunks[..i], from)[from + i := chunks[i]]
  {
    assert chunks[..i + 1][..i] == chunks[..i];
  }

  function ChunksReplaced(t: Tables, versionId: nat, chunks: seq<Chunk>): Tables {
    t.(chunks := Inserted(WithoutVersion(t.chunks, versionId), chunks, t.nextChunkId),
       nextChunkId := t.nextChunkId + |chunks|,
       revision := t.revision + 1)
  }

  // A version is completely indexed when its rows for the model are exactly the expected hashes,
  // numbered from zero.
  ghost predicate CompleteChunks(t: Tables, versionId: nat, model: string, hashes: seq<string>) {
    && (forall c <- t.chunks | t.chunks[c].versionId == versionId && t.chunks[c].embeddingModel == model ::
          t.chunks[c].ordinal < |hashes| && t.chunks[c].contentHash == hashes[t.chunks[c].ordinal])
    && (forall i | 0 <= i < |hashes| :: HasChunkAt(t, versionId, model, i))
  }

  ghost predicate IsChunkAt(t: Tables, versionId: nat, model: string, ordinal: nat, c: nat) {
    && c in t.chunks && t.chunks[c].versionId == versionId
    && t.chunks[c].embeddingModel == model && t.chunks[c].ordinal == ordinal
  }

  ghost predicate HasChunkAt(t: Tables, versionId: nat, model: string, ordinal: nat) {
    exists c :: IsChunkAt(t, versionId, model, ordinal, c)
  }

  datatype StateUpdate = StateUpdate(sourceId: string, endpoint: Endpoint,
                                     expected: Option<EndpointState>, next: Option<EndpointState>)

  function StateOf(t: Tables, sourceId: string, endpoint: Endpoint): Option<EndpointState> {
    if sourceId in t.sources && endpoint in t.sources[sourceId].fetchState
    then Some(t.sources[sourceId].fetchState[endpoint]) else None
  }

  function SetState(t: Tables, sourceId: string, endpoint: Endpoint, next: Option<EndpointState>): Tables
    requires sourceId in t.sources
  {
    var source := t.sources[sourceId];
    var fetchState := if next.Some? then source.fetchState[endpoint := next.value] else source.fetchState - {endpoint};
    t.(sources := t.sources[sourceId := source.(fetchState := fetchState)])
  }

  function StateAfter(t: Tables, updates: seq<StateUpdate>): (r: Option<Tables>)
    decreases |updates|
  {
    if |updates| == 0 then Some(t)
    else
      var u := updates[0];
      if u.sourceId in t.sources && StateOf(t, u.sourceId, u.endpoint) == u.expected
      then StateAfter(SetState(t, u.sourceId, u.endpoint, u.next), updates[1..])
      else None
  }

  predicate UniqueTargets(updates: seq<StateUpdate>) {
    forall i, j | 0 <= i < j < |updates| ::
      updates[i].sourceId != updates[j].sourceId || updates[i].endpoint != updates[j].endpoint
  }

  // ---------------------------------------------------------------- what the retrieval query can see

  datatype Registration = Registration(owner: string, trustTier: TrustTier, registry: Registry)

  // Everything RETRIEVAL_SQL and HYDRATE_SQL read: not the fetch states, and not the versions
  // that have no chunk yet.
  datatype View = View(sources: map<string, Registration>, versions: map<nat, Version>, chunks: map<nat, Chunk>)

  ghost predicate HasChunk(t: Tables, versionId: nat) {
    exists c :: c in t.chunks && t.chunks[c].versionId == versionId
  }

  ghost function Visible(t: Tables): View {
    View(map s | s in t.sources :: Registration(t.sources[s].owner, t.sources[s].trustTier, t.sources[s].registry),
         map v | v in t.versions && HasChunk(t, v) :: t.versions[v],
         t.chunks)
  }

  // A repository transaction either raises the revision by one or leaves the view alone.
  ghost predicate Accounted(t: Tables, t': Tables) {
    t'.revision == t.revision + 1 || (t'.revision == t.revision && Visible(t') == Visible(t))
  }

  lemma EnsureSourceAccounted(t: Tables, id: string, owner: string, trustTier: TrustTier, registry: Registry)
    requires t.Valid()
    ensures var t' := SourceEnsured(t, id, owner, trustTier, registry); t'.Valid() && Accounted(t, t')
  {
  }

  lemma StoreVersionAccounted(t: Tables, input: Version)
    requires t.Valid() && input.sourceId in t.sources
    ensures var t' := VersionStored(t, input); t'.Valid() && Accounted(t, t')
    ensures exists id :: IsStored(VersionStored(t, input), input, id)
  {
    if id :| IsStored(t, input, id) {
    } else {
      var t' := VersionStored(t, input);
      assert IsStored(t', input, t.nextVersionId);
      forall v | v in t.versions ensures !SameVersion(t.versions[v], input) { assert !IsStored(t, input, v); }
      assert forall v :: HasChunk(t', v) <==> HasChunk(t, v);
      assert !HasChunk(t, t.nextVersionId);
      assert Visible(t').versions == Visible(t).versions;
    }
  }

  lemma ReplaceChunksAccounted(t: Tables, versionId: nat, chunks: seq<Chunk>)
    requires t.Valid() && versionId in t.versions && ValidChunks(chunks, versionId)
    ensures var t' := ChunksReplaced(t, versionId, chunks); t'.Valid() && Accounted(t, t')
  {
    var t' := ChunksReplaced(t, versionId, chunks);
    InsertedContents(WithoutVersion(t.chunks, versionId), chunks, t.nextChunkId);
    forall c, d | c in t'.chunks && d in t'.chunks && SamePlace(t'.chunks[c], t'.chunks[d])
      ensures c == d
    {
      if c < t.nextChunkId && d < t.nextChunkId {
        assert SamePlace(t.chunks[c], t.chunks[d]);
      } else if c >= t.nextChunkId && d >= t.nextChunkId {
        var i, j := c - t.nextChunkId, d - t.nextChunkId;
        assert chunks[i].ordinal == chunks[j].ordinal;
      }
    }
  }

  lemma SetStateAccounted(t: Tables, u: StateUpdate)
    requires t.Valid() && u.sourceId in t.sources
    ensures var t' := SetState(t, u.sourceId, u.endpoint, u.next);
            t'.Valid() && t'.revision == t.revision && Visible(t') == Visible(t)
  {
    var t' := SetState(t, u.sourceId, u.endpoint, u.next);
    assert forall v :: HasChunk(t', v) <==> HasChunk(t, v);
    assert Visible(t').versions == Visible(t).versions;
  }

  lemma {:induction false} StateAfterAccounted(t: Tables, updates: seq<StateUpdate>)
    requires t.Valid()
    ensures StateAfter(t, updates).Some? ==>
              var t' := StateAfter(t, updates).value;
              t'.Valid() && t'.revision == t.revision && Visible(t') == Visible(t)
    decreases |updates|
  {
    if |updates| > 0 {
      var u := updates[0];
      if u.sourceId in t.sources && StateOf(t, u.sourceId, u.endpoint) == u.expected {
        SetStateAccounted(t, u);
        StateAfterAccounted(SetState(t, u.sourceId, u.endpoint, u.next), updates[1..]);
      }
    }
  }

  // A successful compare-and-set found every target in its expected state, installs every next
  // state, and touches no other endpoint: all of the batch or none of it.
  lemma {:induction false} CompareAndSetIsAllOrNothing(t: Tables, updates: seq<StateUpdate>)
    requires UniqueTargets(updates)
    ensures StateAfter(t, updates).Some? <==>
              forall i | 0 <= i < |updates| ::
                updates[i].sourceId in t.sources
                    && StateOf(t, updates[i].sourceId, updates[i].endpoint) == updates[i].expected
    ensures StateAfter(t, updates).Some? ==>
              var t' := StateAfter(t, updates).value;
              && t'.sources.Keys == t.sources.Keys && t'.versions == t.versions && t'.chunks == t.chunks
              && (forall i | 0 <= i < |updates| ::
                    StateOf(t', updates[i].sourceId, updates[i].endpoint) == updates[i].next)
              && (forall s, e | (forall i | 0 <= i < |updates| ::
                                 updates[i].sourceId != s || updates[i].endpoint != e) ::
                    StateOf(t', s, e) == StateOf(t, s, e))
    decreases |updates|
  {
    if |updates| > 0 {
      var u, rest := updates[0], updates[1..];
      assert updates == [u] + rest;
      if u.sourceId in t.sources && StateOf(t, u.sourceId, u.endpoint) == u.expected {
        var t1 := SetState(t, u.sourceId, u.endpoint, u.next);
        SetStateLocal(t, u);
        assert forall i | 0 <= i < |rest| :: rest[i] == updates[i + 1];
        assert UniqueTargets(rest);
        CompareAndSetIsAllOrNothing(t1, rest);
        forall i | 0 <= i < |rest|
          ensures StateOf(t1, rest[i].sourceId, rest[i].endpoint) == StateOf(t, rest[i].sourceId, rest[i].endpoint)
        {
          assert rest[i] == updates[i + 1];
        }
        if StateAfter(t, updates).Some? {
          var t' := StateAfter(t, updates).value;
          assert StateOf(t', u.sourceId, u.endpoint) == u.next by {
            assert forall i | 0 <= i < |rest| :: rest[i].sourceId != u.sourceId || rest[i].endpoint != u.endpoint;
          }
        }
      }
    }
  }

  lemma SetStateLocal(t: Tables, u: StateUpdate)
    requires u.sourceId in t.sources
    ensures var t' := SetState(t, u.sourceId, u.endpoint, u.next);
            && t'.sources.Keys == t.sources.Keys
            && StateOf(t', u.sourceId, u.endpoint) == u.next
            && forall s, e | s != u.sourceId || e != u.endpoint :: StateOf(t', s, e) == StateOf(t, s, e)
  {
  }

  // ---------------------------------------------------------------- the repository itself

  // `interrupt` counts the statements of a transaction that succeed before a failure or the deadline
  // makes the method throw: with n statements, up to n it is rolled back, and one more lets the commit
  // pass and strikes behind it.
  predicate Commits(interrupt: Option<nat>, n: nat) { interrupt.Some? ==> interrupt.value > n }

  predicate Returns(interrupt: Option<nat>, n: nat) { interrupt.Some? ==> interrupt.value > n + 1 }

  // The pool of rows behind the repository.
  class KnowledgeRepository {
    var tables: Tables

    constructor ()
      ensures tables == Tables(map[], map[], map[], 1, 1, 0) && tables.Valid()
    {
      tables := Tables(map[], map[], map[], 1, 1, 0);
    }

    method EnsureSource(id: string, owner: string, trustTier: TrustTier, registry: Registry)
      requires tables.Valid()
      modifies this
      ensures tables == SourceEnsured(old(tables), id, owner, trustTier, registry) && tables.Valid()
      ensures Accounted(old(tables), tables)
    {
      EnsureSourceAccounted(tables, id, owner, trustTier, registry);
      if id !in tables.sources {
        tables := tables.(sources := tables.sources[id := Source(owner, trustTier, registry, map[])]);
      } else if !SameRegistration(tables.sources[id], owner, trustTier, registry) {
        tables := tables.(sources :=
                          tables.sources[id := tables.sources[id].(owner := owner, trustTier := trustTier,
                                                                   registry := registry)]);
      } else {
        return;
      }
      tables := tables.(revision := tables.revision + 1);
    }

    method StoreVersion(input: Version) returns (r: Result<nat>)
      requires tables.Valid()
      modifies this
      ensures r.Thrown? <==> input.sourceId !in old(tables).sources
      ensures r.Thrown? ==> tables == old(tables)
      ensures r.Ok? ==> tables == VersionStored(old(tables), input) && IsStored(tables, input, r.value)
      ensures tables.Valid() && Accounted(old(tables), tables)
    {
      if input.sourceId !in tables.sources { return Thrown; }
      StoreVersionAccounted(tables, input);
      var stored := set id | id in tables.versions && SameVersion(tables.versions[id], input);
      if stored == {} {
        assert forall id :: IsStored(tables, input, id) ==> id in stored;
        r := Ok(tables.nextVersionId);
        tables := tables.(versions := tables.versions[tables.nextVersionId := input],
                          nextVersionId := tables.nextVersionId + 1);
      } else {
        var id :| id in stored;
        assert IsStored(tables, input, id);
        r := Ok(id);
      }
    }

    method HasCompleteChunks(versionId: nat, model: string, hashes: seq<string>) returns (complete: bool)
      requires tables.Valid() && |hashes| > 0
      ensures complete <==> CompleteChunks(tables, versionId, model, hashes)
    {
      var rows := set c | c in tables.chunks && tables.chunks[c].versionId == versionId
          && tables.chunks[c].embeddingModel == model;
      if exists c | c in rows ::
          tables.chunks[c].ordinal >= |hashes| || tables.chunks[c].contentHash != hashes[tables.chunks[c].ordinal] {
        return false;
      }
      for i := 0 to |hashes|
        invariant forall j | 0 <= j < i :: HasChunkAt(tables, versionId, model, j)
      {
        if !exists c | c in rows :: tables.chunks[c].ordinal == i {
          assert forall c :: IsChunkAt(tables, versionId, model, i, c) ==> c in rows;
          assert !HasChunkAt(tables, versionId, model, i);
          return false;
        }
        var c :| c in rows && tables.chunks[c].ordinal == i;
        assert IsChunkAt(tables, versionId, model, i, c);
      }
      return true;
    }

    method ReplaceChunks(versionId: nat, chunks: seq<Chunk>, interrupt: Option<nat>) returns (r: Result<()>)
      requires tables.Valid()
      modifies this
      ensures var applied := versionId in old(tables).versions && ValidChunks(chunks, versionId)
                             && Commits(interrupt, |chunks|);
              && tables == (if applied then ChunksReplaced(old(tables), versionId, chunks) else old(tables))
              && (r.Ok? <==> applied && Returns(interrupt, |chunks|))
      ensures tables.Valid() && Accounted(old(tables), tables)
    {
      if !ValidChunks(chunks, versionId) { return Thrown; }
      var saved := tables;
      if versionId !in tables.versions { return Thrown; }
      tables := tables.(chunks := WithoutVersion(tables.chunks, versionId));
      for i := 0 to |chunks|
        invariant interrupt.Some? ==> interrupt.value >= i
        invariant tables == saved.(chunks :=
                                   Inserted(WithoutVersion(saved.chunks, versionId), chunks[..i], saved.nextChunkId),
                                   nextChunkId := saved.nextChunkId + i)
      {
        if interrupt == Some(i) {
          tables := saved;
          return Thrown;
        }
        InsertedOneMore(WithoutVersion(saved.chunks, versionId), chunks, saved.nextChunkId, i);
        tables := tables.(chunks := tables.chunks[tables.nextChunkId := chunks[i]],
                          nextChunkId := tables.nextChunkId + 1);
      }
      if interrupt == Some(|chunks|) {
        tables := saved;
        return Thrown;
      }
      assert chunks[..|chunks|] == chunks;
      tables := tables.(revision := tables.revision + 1);
      ReplaceChunksAccounted(saved, versionId, chunks);
      if interrupt == Some(|chunks| + 1) { return Thrown; }
      return Ok(());
    }

    method CompareAndSetGithubEndpointStates(updates: seq<StateUpdate>, interrupt: Option<nat>)
      returns (r: Result<bool>)
      requires tables.Valid()
      modifies this
      ensures tables.Valid() && Accounted(old(tables), tables)
      ensures tables == if UniqueTargets(updates) && |updates| <= 5 && Commits(interrupt, |updates|)
                           && StateAfter(old(tables), updates).Some?
                        then StateAfter(old(tables), updates).value else old(tables)
      ensures r == Ok(true) ==> StateAfter(old(tables), updates) == Some(tables)
      ensures r == Ok(false) ==> StateAfter(old(tables), updates) == None
      ensures UniqueTargets(updates) && |updates| <= 5 && Returns(interrupt, |updates|) ==>
                r == Ok(StateAfter(old(tables), updates).Some?)
      ensures r.Ok? ==> UniqueTargets(updates) && |updates| <= 5
    {
      if |updates| > 5 || !UniqueTargets(updates) { return Thrown; }
      if |updates| == 0 { return Ok(true); }
      var saved := tables;
      StateAfterAccounted(saved, updates);
      for i := 0 to |updates|
        invariant interrupt.Some? ==> interrupt.value >= i
        invariant StateAfter(saved, updates) == StateAfter(tables, updates[i..])
      {
        if interrupt == Some(i) {
          tables := saved;
          return Thrown;
        }
        var u := updates[i];
        assert updates[i..][0] == u && updates[i..][1..] == updates[i + 1..];
        if u.sourceId !in tables.sources || StateOf(tables, u.sourceId, u.endpoint) != u.expected {
          tables := saved;
          if interrupt == Some(i + 1) { return Thrown; }
          return Ok(false);
        }
        tables := SetState(tables, u.sourceId, u.endpoint, u.next);
      }
      if interrupt == Some(|updates|) {
        tables := saved;
        return Thrown;
      }
      if interrupt == Some(|updates| + 1) { return Thrown; }
      return Ok(true);
    }
  }
}
