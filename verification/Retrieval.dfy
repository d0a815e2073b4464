/**
 * RETRIEVAL_SQL, HYDRATE_SQL and `toEvidence` over the knowledge tables
 * (packages/cardano-agent/src/knowledge/retrieveEvidence.ts).
 *
 * How well a chunk's text matches a query, and how far its embedding is from the query's, are
 * parameters (`Ranker`).  Everything around them is written out: which versions are newest, which
 * rows are eligible, the two lists of forty and the fusion of their places, the bonus for trusted
 * sources, the final order and limit of ten, and hydration of cached ids.  Scores are real numbers.
 */
module Retrieval {
  import opened Wrappers
  import opened Knowledge

  const MAX_RESULTS := 10
  const MAX_OWNER := 200
  const MAX_TITLE := 300
  const MAX_URL := 2048
  const MAX_EXCERPT := 1000
  const MAX_LISTED := 40
  const VOLATILE_TOPICS := ["governance", "releases", "release", "on-chain", "onchain", "on_chain", "node", "ledger",
                            "staking", "delegation", "voting"]

  datatype Request = Request(query: string, language: string, model: string,
                             topics: Option<set<string>>, networks: Option<set<string>>,
                             now: int, cacheable: bool)

  datatype Row = Row(chunkId: nat, sourceId: string, owner: string, trustTier: TrustTier, title: string, url: string,
                     excerpt: string, publishedAt: Option<int>, retrievedAt: int, versionHash: string,
                     score: real, volatileSource: bool)

  datatype Evidence = Evidence(id: nat, sourceId: string, owner: string, trustTier: TrustTier, title: string,
                               url: string,
                               excerpt: string, publishedAt: Option<int>, retrievedAt: int, versionHash: string,
                               score: real, stale: bool)

  // What the database computes of one chunk for a query: ts_rank_cd if its text matches, and the
  // distance of its embedding.
  datatype Ranker = Ranker(lexical: (Chunk, string) -> Option<real>, distance: (Chunk, string) -> real)

  function Left(s: string, n: nat): (r: string)
    ensures |s| <= n ==> r == s
    ensures |r| <= n && r <= s
  {
    if |s| <= n then s else s[..n]
  }

  // ---------------------------------------------------------------- eligibility

  ghost predicate Overlaps(have: seq<string>, want: Option<set<string>>) {
    want.None? || exists x :: x in have && x in want.value
  }

  ghost predicate IsCandidate(t: Tables, r: Request, v: nat) {
    && v in t.versions && t.versions[v].sourceId in t.sources
    && (exists c :: c in t.chunks && t.chunks[c].versionId == v && t.chunks[c].embeddingModel == r.model)
    && Overlaps(t.sources[t.versions[v].sourceId].registry.topics, r.topics)
    && Overlaps(t.sources[t.versions[v].sourceId].registry.networks, r.networks)
  }

  predicate NotOlder(v: nat, vr: int, w: nat, wr: int) { vr > wr || (vr == wr && v >= w) }

  // DISTINCT ON (canonical_url) ... ORDER BY retrieved_at DESC, id DESC
  ghost predicate IsNewest(t: Tables, r: Request, v: nat) {
    && IsCandidate(t, r, v)
    && forall w | IsCandidate(t, r, w) && t.versions[w].canonicalUrl == t.versions[v].canonicalUrl ::
         NotOlder(v, t.versions[v].retrievedAt, w, t.versions[w].retrievedAt)
  }

  ghost predicate IsEligible(t: Tables, r: Request, v: nat) {
    IsNewest(t, r, v) && |t.versions[v].canonicalUrl| <= MAX_URL && |t.versions[v].title| <= MAX_TITLE
  }

  predicate IsVolatile(s: Source) {
    s.registry.kind == "github" || exists x | x in s.registry.topics :: x in VOLATILE_TOPICS
  }

  // One joined row; the query truncates the owner, hydration does not.
  function RowFor(t: Tables, c: nat, ownerLimit: Option<nat>, score: real): Row
    requires c in t.chunks && t.chunks[c].versionId in t.versions
    requires t.versions[t.chunks[c].versionId].sourceId in t.sources
  {
    var chunk := t.chunks[c];
    var version := t.versions[chunk.versionId];
    var source := t.sources[version.sourceId];
    Row(c, version.sourceId, if ownerLimit.Some? then Left(source.owner, ownerLimit.value)
        else source.owner, source.trustTier,
        Left(version.title, MAX_TITLE), Left(version.canonicalUrl, MAX_URL),
            Left(chunk.heading + "\n" + chunk.content, MAX_EXCERPT),
        version.publishedAt, version.retrievedAt, version.contentHash, score, IsVolatile(source))
  }

  ghost function EligibleRows(t: Tables, r: Request): (rows: map<nat, Row>)
    requires t.Valid()
    ensures forall c <- rows :: c in t.chunks && rows[c].chunkId == c
  {
    map c | c in t.chunks && t.chunks[c].embeddingModel == r.model && IsEligible(t, r, t.chunks[c].versionId)
      :: RowFor(t, c, Some(MAX_OWNER), 0.0)
  }

  // ---------------------------------------------------------------- ranking

  // Higher values first, lower ids among equals.
  predicate Precedes(value: map<nat, real>, c: nat, d: nat)
    requires c in value && d in value
  {
    value[c] > value[d] || (value[c] == value[d] && c < d)
  }

  ghost function Ahead(value: map<nat, real>, c: nat): set<nat>
    requires c in value
  {
    set d | d in value && Precedes(value, d, c)
  }

  // ORDER BY value DESC, id LIMIT 40: fewer than forty precede.
  ghost function Listed(value: map<nat, real>): set<nat> {
    set c | c in value && |Ahead(value, c)| < MAX_LISTED
  }

  // No more than forty are listed, and nobody ahead of one listed is left out.
  lemma {:induction false} ListedAreTheFirst(value: map<nat, real>)
    ensures |Listed(value)| <= MAX_LISTED
    ensures forall c, d | c in Listed(value) && d in value && Precedes(value, d, c) :: d in Listed(value)
  {
    var listed := Listed(value);
    if listed != {} {
      SomeoneIsLast(value, listed);
      var last :| IsLast(value, listed, last);
      assert last in listed && listed - {last} <= Ahead(value, last);
      Fewer(listed - {last}, Ahead(value, last));
    }
    forall c, d | c in listed && d in value && Precedes(value, d, c) ensures d in listed {
      assert Ahead(value, d) <= Ahead(value, c);
      Fewer(Ahead(value, d), Ahead(value, c));
    }
  }

  lemma {:induction false} Fewer(a: set<nat>, b: set<nat>)
    requires a <= b
    ensures |a| <= |b|
  {
    assert b == a + (b - a);
  }

  predicate IsLast(value: map<nat, real>, ids: set<nat>, c: nat)
    requires ids <= value.Keys
  {
    c in ids && forall d <- ids | d != c :: Precedes(value, d, c)
  }

  lemma {:induction false} SomeoneIsLast(value: map<nat, real>, ids: set<nat>)
    requires ids <= value.Keys && ids != {}
    ensures exists c :: IsLast(value, ids, c)
    decreases ids
  {
    var c :| c in ids;
    if ids == {c} {
      assert IsLast(value, ids, c);
    } else {
      SomeoneIsLast(value, ids - {c});
      var d :| IsLast(value, ids - {c}, d);
      if Precedes(value, c, d) {
        assert IsLast(value, ids, d);
      } else {
        assert forall e <- ids | e != c :: e == d || Precedes(value, e, d);
        assert IsLast(value, ids, c);
      }
    }
  }

  function IdText(id: nat): string { (if id < 10 then "" else IdText(id / 10)) + [('0' as int + id % 10) as char] }

  predicate TextBefore(a: string, b: string) {
    |b| > 0 && (|a| == 0 || a[0] < b[0] || (a[0] == b[0] && TextBefore(a[1..], b[1..])))
  }

  // row_number() over the listed: here equal values go by the text of the id.
  ghost function PlaceOf(value: map<nat, real>, c: nat): nat
    requires c in value
  {
    1 + |set d | d in Listed(value) && (value[d] > value[c]
                                        || (value[d] == value[c] && TextBefore(IdText(d), IdText(c))))|
  }

  ghost function Share(value: map<nat, real>, c: nat): real {
    if c in Listed(value) then 1.0 / (60 + PlaceOf(value, c)) as real else 0.0
  }

  ghost function LexicalValues(rank: Ranker, t: Tables, r: Request): map<nat, real>
    requires t.Valid()
  {
    map c | c in EligibleRows(t, r) && rank.lexical(t.chunks[c], r.query).Some?
      :: rank.lexical(t.chunks[c], r.query).value
  }

  ghost function VectorValues(rank: Ranker, t: Tables, r: Request): map<nat, real>
    requires t.Valid()
  {
    map c | c in EligibleRows(t, r) :: -rank.distance(t.chunks[c], r.query)
  }

  function Bonus(tier: TrustTier): real {
    match tier case Official => 0.01 case Community => 0.005 case Unverified => 0.0
  }

  // The fused scores of the chunks on either list.
  ghost function Scores(rank: Ranker, t: Tables, r: Request): (scores: map<nat, real>)
    requires t.Valid()
    ensures scores.Keys <= EligibleRows(t, r).Keys
  {
    var lexical, vector := LexicalValues(rank, t, r), VectorValues(rank, t, r);
    map c | c in Listed(lexical) + Listed(vector)
      :: Share(lexical, c) + Share(vector, c) + Bonus(EligibleRows(t, r)[c].trustTier)
  }

  predicate IsFirst(value: map<nat, real>, ids: set<nat>, c: nat)
    requires ids <= value.Keys
  {
    c in ids && forall d <- ids | d != c :: Precedes(value, c, d)
  }

  lemma {:induction false} SomeoneIsFirst(value: map<nat, real>, ids: set<nat>)
    requires ids <= value.Keys && ids != {}
    ensures exists c :: IsFirst(value, ids, c)
    decreases ids
  {
    var c :| c in ids;
    if ids == {c} {
      assert IsFirst(value, ids, c);
    } else {
      SomeoneIsFirst(value, ids - {c});
      var d :| IsFirst(value, ids - {c}, d);
      if Precedes(value, c, d) {
        assert forall e <- ids | e != c :: e == d || Precedes(value, d, e);
        assert IsFirst(value, ids, c);
      } else {
        assert IsFirst(value, ids, d);
      }
    }
  }

  // ORDER BY value DESC, id LIMIT n.
  ghost function Best(value: map<nat, real>, ids: set<nat>, n: nat): (r: seq<nat>)
    requires ids <= value.Keys
    ensures |r| <= n && forall i | 0 <= i < |r| :: r[i] in ids
    ensures forall i, j | 0 <= i < j < |r| :: r[i] != r[j]
    decreases n
  {
    if n == 0 || ids == {} then []
    else
      SomeoneIsFirst(value, ids);
      var c :| IsFirst(value, ids, c);
      [c] + Best(value, ids - {c}, n - 1)
  }

  lemma {:induction false} BestAreFirst(value: map<nat, real>, ids: set<nat>, n: nat)
    requires ids <= value.Keys
    ensures var r := Best(value, ids, n);
            && (forall i, j | 0 <= i < j < |r| :: Precedes(value, r[i], r[j]))
            && (forall c, i | c in ids && c !in r && 0 <= i < |r| :: Precedes(value, r[i], c))
            && |r| == if |ids| < n then |ids| else n
    decreases n
  {
    hide Precedes;
    if n > 0 && ids != {} {
      var r := Best(value, ids, n);
      var c, rest := r[0], r[1..];
      assert IsFirst(value, ids, c) && rest == Best(value, ids - {c}, n - 1);
      BestAreFirst(value, ids - {c}, n - 1);
      assert |ids - {c}| == |ids| - 1;
      forall i, j | 0 <= i < j < |r| ensures Precedes(value, r[i], r[j]) {
        if i > 0 { assert r[i] == rest[i - 1] && r[j] == rest[j - 1]; }
      }
      forall d, i | d in ids && d !in r && 0 <= i < |r| ensures Precedes(value, r[i], d) {
        assert d != c && d !in rest;
        if i > 0 { assert r[i] == rest[i - 1]; }
      }
    }
  }

  ghost function Hits(rank: Ranker, t: Tables, r: Request): (hits: seq<nat>)
    requires t.Valid()
    ensures |hits| <= MAX_RESULTS && forall i | 0 <= i < |hits| :: hits[i] in Scores(rank, t, r)
    ensures forall i, j | 0 <= i < j < |hits| :: hits[i] != hits[j]
  {
    Best(Scores(rank, t, r), Scores(rank, t, r).Keys, MAX_RESULTS)
  }

  // The rows of these chunks, scored.
  ghost function RowsOf(hits: seq<nat>, eligible: map<nat, Row>, scores: map<nat, real>): (rows: seq<Row>)
    requires scores.Keys <= eligible.Keys && forall i | 0 <= i < |hits| :: hits[i] in scores
    requires forall c <- eligible :: eligible[c].chunkId == c
    ensures |rows| == |hits|
    ensures forall i | 0 <= i < |rows| ::
              rows[i].chunkId == hits[i] && rows[i] == eligible[hits[i]].(score := scores[hits[i]])
  {
    seq(|hits|, i requires 0 <= i < |hits| => eligible[hits[i]].(score := scores[hits[i]]))
  }

  ghost function Query(rank: Ranker, t: Tables, r: Request): (rows: seq<Row>)
    requires t.Valid()
    ensures |rows| <= MAX_RESULTS
    ensures forall i | 0 <= i < |rows| :: rows[i].chunkId in EligibleRows(t, r)
                                          && rows[i] == EligibleRows(t, r)[rows[i].chunkId].(score := rows[i].score)
    ensures forall i, j | 0 <= i < j < |rows| :: rows[i].chunkId != rows[j].chunkId
  {
    RowsOf(Hits(rank, t, r), EligibleRows(t, r), Scores(rank, t, r))
  }

  // The rows come by descending score, and by id where scores are equal; they are ten or all there are,
  // and no candidate left out comes before one of them.
  lemma {:induction false} QueryIsTheBest(rank: Ranker, t: Tables, r: Request)
    requires t.Valid()
    ensures var rows, scores := Query(rank, t, r), Scores(rank, t, r);
            && |rows| == (if |scores| < MAX_RESULTS then |scores| else MAX_RESULTS)
            && (forall i | 0 <= i < |rows| :: rows[i].chunkId in scores && rows[i].score == scores[rows[i].chunkId])
            && (forall i, j | 0 <= i < j < |rows| :: Precedes(scores, rows[i].chunkId, rows[j].chunkId))
            && (forall c <- scores | (forall i | 0 <= i < |rows| :: rows[i].chunkId != c) ::
                  forall i | 0 <= i < |rows| :: Precedes(scores, rows[i].chunkId, c))
  {
    hide Tables.Valid, EligibleRows, Scores, Best, Precedes;
    var scores := Scores(rank, t, r);
    BestAreFirst(scores, scores.Keys, MAX_RESULTS);
  }

  // ---------------------------------------------------------------- evidence

  function Units(c: char): nat { if c as int > 0xFFFF then 2 else 1 }

  // boundedExcerpt: the longest prefix of whole characters within the limit of UTF-16 units.
  function BoundedExcerpt(s: string, units: nat): string {
    if |s| == 0 || Units(s[0]) > units then "" else [s[0]] + BoundedExcerpt(s[1..], units - Units(s[0]))
  }

  function ToEvidence(row: Row, now: int): Evidence {
    var freshness := if row.volatileSource then 2 * 60 * 60 * 1000 else 48 * 60 * 60 * 1000;
    Evidence(row.chunkId, row.sourceId, Left(row.owner, MAX_OWNER), row.trustTier, Left(row.title, MAX_TITLE),
             Left(row.url, MAX_URL), BoundedExcerpt(row.excerpt, MAX_EXCERPT), row.publishedAt, row.retrievedAt,
             row.versionHash, row.score, row.retrievedAt < now - freshness)
  }

  function AllEvidence(rows: seq<Row>, now: int): (r: seq<Evidence>) {
    seq(|rows|, i requires 0 <= i < |rows| => ToEvidence(rows[i], now))
  }

  // What the request returns when it does not use the cache and runs against `t`.
  ghost function Uncached(rank: Ranker, t: Tables, r: Request): seq<Evidence>
    requires t.Valid()
  {
    AllEvidence(Query(rank, t, r), r.now)
  }

  // ---------------------------------------------------------------- hydration

  predicate Hydratable(t: Tables, model: string, c: nat) {
    && c in t.chunks && t.chunks[c].embeddingModel == model
    && t.chunks[c].versionId in t.versions && t.versions[t.chunks[c].versionId].sourceId in t.sources
    && |t.versions[t.chunks[c].versionId].title| <= MAX_TITLE
    && |t.versions[t.chunks[c].versionId].canonicalUrl| <= MAX_URL
  }

  // One cached id joined back to its rows; the score comes from the cache entry.
  function HydratedEvidence(t: Tables, c: nat, score: real, now: int): Evidence
    requires c in t.chunks && t.chunks[c].versionId in t.versions
    requires t.versions[t.chunks[c].versionId].sourceId in t.sources
  {
    ToEvidence(RowFor(t, c, None, score), now)
  }

  predicate VolatileChunk(t: Tables, c: nat) {
    c in t.chunks && t.chunks[c].versionId in t.versions && t.versions[t.chunks[c].versionId].sourceId in t.sources
    && IsVolatile(t.sources[t.versions[t.chunks[c].versionId].sourceId])
  }

  function FoundIds(t: Tables, model: string, ids: seq<nat>): set<nat> {
    set i | 0 <= i < |ids| && Hydratable(t, model, ids[i]) :: ids[i]
  }

  function Hydrate(t: Tables, r: Request, ids: seq<nat>, scores: seq<real>): Option<seq<Evidence>> {
    var found := FoundIds(t, r.model, ids);
    if |found| != |ids| || (exists i | 0 <= i < |ids| :: ids[i] !in found)
        || (exists c | c in found :: VolatileChunk(t, c))
    then None
    else Some(seq(|ids|, i requires 0 <= i < |ids| && Hydratable(t, r.model, ids[i]) =>
                HydratedEvidence(t, ids[i], if i < |scores| then scores[i] else 0.0, r.now)))
  }

  function IdsOf(rows: seq<Row>): (r: seq<nat>)
    ensures |r| == |rows| && forall i | 0 <= i < |rows| :: r[i] == rows[i].chunkId
  {
    seq(|rows|, i requires 0 <= i < |rows| => rows[i].chunkId)
  }

  function ScoresOf(rows: seq<Row>): (r: seq<real>)
    ensures |r| == |rows| && forall i | 0 <= i < |rows| :: r[i] == rows[i].score
  {
    seq(|rows|, i requires 0 <= i < |rows| => rows[i].score)
  }

  lemma {:induction false} DistinctCount(ids: seq<nat>, s: set<nat>)
    requires forall i, j | 0 <= i < j < |ids| :: ids[i] != ids[j]
    requires s == set i | 0 <= i < |ids| :: ids[i]
    ensures |s| == |ids|
  {
    if |ids| > 0 {
      var last := |ids| - 1;
      var rest := set i | 0 <= i < last :: ids[i];
      assert rest == set i | 0 <= i < |ids[..last]| :: ids[..last][i];
      DistinctCount(ids[..last], rest);
      assert s == rest + {ids[last]};
      assert ids[last] !in rest;
    }
  }

  lemma QueryRow(rank: Ranker, t: Tables, r: Request, i: nat)
    requires t.Valid() && i < |Query(rank, t, r)|
    ensures var row := Query(rank, t, r)[i];
            && Hydratable(t, r.model, row.chunkId)
            && row.volatileSource == VolatileChunk(t, row.chunkId)
            && HydratedEvidence(t, row.chunkId, row.score, r.now) == ToEvidence(row, r.now)
  {
    hide Scores, Hits, RowsOf, Tables.Valid;
    var row := Query(rank, t, r)[i];
    assert row.chunkId in EligibleRows(t, r);
    assert row == RowFor(t, row.chunkId, Some(MAX_OWNER), row.score);
  }

  // Hydrating the ids and scores of a query, on the tables the query ran on, gives the evidence
  // the query itself gives at the reader's time; it refuses only when a row is volatile.
  lemma HydrateInvertsQuery(rank: Ranker, t: Tables, r: Request)
    requires t.Valid()
    ensures var rows := Query(rank, t, r);
            Hydrate(t, r, IdsOf(rows), ScoresOf(rows)) ==
              if exists i :: 0 <= i < |rows| && rows[i].volatileSource then None else Some(Uncached(rank, t, r))
  {
    hide Query, Scores, Hits, EligibleRows, Tables.Valid, HydratedEvidence, ToEvidence, Hydrate, Hydratable,
         VolatileChunk;
    var rows := Query(rank, t, r);
    var ids, scores := IdsOf(rows), ScoresOf(rows);
    var found := FoundIds(t, r.model, ids);
    forall i | 0 <= i < |rows| ensures Hydratable(t, r.model, ids[i]) && ids[i] in found {
      QueryRow(rank, t, r, i);
    }
    assert found == set i | 0 <= i < |ids| :: ids[i];
    DistinctCount(ids, found);
    if i :| 0 <= i < |rows| && rows[i].volatileSource {
      QueryRow(rank, t, r, i);
      VolatileIsRefused(t, r, ids, scores, ids[i]);
    } else {
      forall i | 0 <= i < |rows| ensures HydratesTo(t, r, rows[i]) { QueryRow(rank, t, r, i); }
      HydrateStable(t, r, rows);
    }
  }

  lemma VolatileIsRefused(t: Tables, r: Request, ids: seq<nat>, scores: seq<real>, c: nat)
    requires c in FoundIds(t, r.model, ids) && VolatileChunk(t, c)
    ensures Hydrate(t, r, ids, scores) == None
  {
  }

  ghost predicate HydratesTo(t: Tables, r: Request, row: Row) {
    && Hydratable(t, r.model, row.chunkId) && !VolatileChunk(t, row.chunkId)
    && HydratedEvidence(t, row.chunkId, row.score, r.now) == ToEvidence(row, r.now)
  }

  lemma HydrateStable(t: Tables, r: Request, rows: seq<Row>)
    requires forall i | 0 <= i < |rows| :: HydratesTo(t, r, rows[i])
    requires |FoundIds(t, r.model, IdsOf(rows))| == |rows|
    ensures Hydrate(t, r, IdsOf(rows), ScoresOf(rows)) == Some(AllEvidence(rows, r.now))
  {
    hide ToEvidence, RowFor;
    var found := FoundIds(t, r.model, IdsOf(rows));
    forall i | 0 <= i < |rows| ensures rows[i].chunkId in found { assert HydratesTo(t, r, rows[i]); }
    forall c | c in found ensures !VolatileChunk(t, c) {
      var i :| 0 <= i < |rows| && rows[i].chunkId == c;
      assert HydratesTo(t, r, rows[i]);
    }
    var hydrated := Hydrate(t, r, IdsOf(rows), ScoresOf(rows)).value;
    forall i | 0 <= i < |rows| ensures hydrated[i] == ToEvidence(rows[i], r.now) { assert HydratesTo(t, r, rows[i]); }
    assert hydrated == AllEvidence(rows, r.now);
  }

  // ---------------------------------------------------------------- the query reads the view only

  lemma SameViewSameCandidates(t: Tables, t': Tables, r: Request, v: nat)
    requires t.Valid() && t'.Valid() && Visible(t) == Visible(t') && IsCandidate(t, r, v)
    ensures IsCandidate(t', r, v) && t.versions[v] == t'.versions[v]
  {
    assert HasChunk(t, v);
    SameViewSameVersion(t, t', v);
  }

  lemma SameViewSameNewest(t: Tables, t': Tables, r: Request, v: nat)
    requires t.Valid() && t'.Valid() && Visible(t) == Visible(t') && IsNewest(t, r, v)
    ensures IsNewest(t', r, v) && t.versions[v] == t'.versions[v]
  {
    SameViewSameCandidates(t, t', r, v);
    forall w | IsCandidate(t', r, w) && t'.versions[w].canonicalUrl == t'.versions[v].canonicalUrl
      ensures NotOlder(v, t'.versions[v].retrievedAt, w, t'.versions[w].retrievedAt)
    {
      SameViewSameCandidates(t', t, r, w);
    }
  }

  lemma SameViewSameRow(t: Tables, t': Tables, r: Request, c: nat)
    requires t.Valid() && t'.Valid() && Visible(t) == Visible(t') && c in EligibleRows(t, r)
    ensures c in EligibleRows(t', r) && EligibleRows(t, r)[c] == EligibleRows(t', r)[c]
  {
    assert t.chunks == t'.chunks;
    var v := t.chunks[c].versionId;
    SameViewSameNewest(t, t', r, v);
    SameViewSameSource(t, t', t.versions[v].sourceId);
    assert RowFor(t, c, Some(MAX_OWNER), 0.0) == RowFor(t', c, Some(MAX_OWNER), 0.0);
  }

  lemma SameViewMoreEligible(t: Tables, t': Tables, r: Request)
    requires t.Valid() && t'.Valid() && Visible(t) == Visible(t')
    ensures forall c <- EligibleRows(t, r) ::
            c in EligibleRows(t', r) && EligibleRows(t, r)[c] == EligibleRows(t', r)[c]
  {
    forall c | c in EligibleRows(t, r)
      ensures c in EligibleRows(t', r) && EligibleRows(t, r)[c] == EligibleRows(t', r)[c] {
      SameViewSameRow(t, t', r, c);
    }
  }

  lemma SameViewSameEligible(t: Tables, t': Tables, r: Request)
    requires t.Valid() && t'.Valid() && Visible(t) == Visible(t')
    ensures EligibleRows(t, r) == EligibleRows(t', r)
  {
    SameViewMoreEligible(t, t', r);
    SameViewMoreEligible(t', t, r);
  }

  lemma SameViewSameVersion(t: Tables, t': Tables, v: nat)
    requires t.Valid() && t'.Valid() && Visible(t) == Visible(t')
    ensures HasChunk(t, v) ==> HasChunk(t', v) && v in t.versions && v in t'.versions && t.versions[v] == t'.versions[v]
    ensures HasChunk(t, v) ==>
            t.sources[t.versions[v].sourceId].registry == t'.sources[t'.versions[v].sourceId].registry
    ensures HasChunk(t', v) ==> HasChunk(t, v)
  {
    assert t.chunks == t'.chunks;
    if HasChunk(t, v) {
      assert v in Visible(t).versions && v in Visible(t').versions;
      assert Visible(t).versions[v] == Visible(t').versions[v];
      SameViewSameSource(t, t', t.versions[v].sourceId);
    }
  }

  lemma SameViewSameSource(t: Tables, t': Tables, s: string)
    requires Visible(t) == Visible(t') && s in t.sources
    ensures s in t'.sources && t.sources[s].owner == t'.sources[s].owner
            && t.sources[s].trustTier == t'.sources[s].trustTier
            && t.sources[s].registry == t'.sources[s].registry
  {
    assert s in Visible(t).sources && s in Visible(t').sources;
    assert Visible(t).sources[s] == Visible(t').sources[s];
  }

  lemma QueryReadsTheView(rank: Ranker, t: Tables, t': Tables, r: Request)
    requires t.Valid() && t'.Valid() && Visible(t) == Visible(t')
    ensures Query(rank, t, r) == Query(rank, t', r)
  {
    SameViewSameEligible(t, t', r);
  }
}
