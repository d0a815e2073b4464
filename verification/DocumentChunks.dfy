/**
 * The chunks of a whole document (packages/cardano-agent/src/knowledge/chunkDocument.ts:21-82): what they
 * keep of it, and the function itself, statement by statement.
 */
module DocumentChunks {
  import opened Wrappers
  import opened TextUnits
  import opened SplitText
  import opened ChunkDocument

  lemma {:induction false} SinglesAreGood(heading: Text, fs: seq<Fragment>, wellFormed: bool)
    requires GoodLabel(heading, wellFormed) && forall f <- fs :: GoodFragment(f, wellFormed)
    ensures |Singles(heading, fs)| == |fs| && forall p <- Singles(heading, fs) :: GoodPart(p, wellFormed)
  {
    hide Strip, PartText, WellFormed;
    if |fs| > 0 {
      SinglesAreGood(heading, fs[..|fs| - 1], wellFormed);
      assert GoodFragment(fs[|fs| - 1], wellFormed);
      OnePartText(fs[|fs| - 1]);
    }
  }

  lemma {:induction false} SinglesTags(heading: Text, fs: seq<Fragment>)
    ensures AllTags(Singles(heading, fs)) == TagsOf(heading, false, fs)
  {
    if |fs| > 0 {
      SinglesTags(heading, fs[..|fs| - 1]);
      PushAddsTags(Singles(heading, fs[..|fs| - 1]), Part(heading, false, [fs[|fs| - 1]]));
      OneTag(heading, false, fs[|fs| - 1]);
    }
  }

  lemma {:induction false} MarkedLength(heading: Text, code: bool, units: Text)
    ensures |Marked(heading, code, units)| == |units|
  {
    if |units| > 0 { MarkedLength(heading, code, units[..|units| - 1]); }
  }

  lemma {:induction false} BlocksShow(blocks: seq<Block>)
    requires GoodBlocks(blocks, false) && blocks != []
    ensures BlocksMarks(blocks) != []
  {
    hide Marked, Strip, BoundHeading;
    var b := blocks[|blocks| - 1];
    assert GoodBlock(b, false);
    MarkedLength(BoundHeading(b.heading), b.code, Strip(b.content));
  }

  function TheBlocks(text: Text, marks: Marks): seq<Block> { Blocks(marks, Lines(text), [], DEFAULT_HEADING, [], []) }

  lemma {:induction false} TheBlocksAreSound(text: Text, marks: Marks)
    requires Sensible(marks)
    ensures GoodBlocks(TheBlocks(text, marks), false) && GoodBlocks(TheBlocks(text, marks), WellFormed(text))
    ensures BlocksMarks(TheBlocks(text, marks)) == LineMarks(marks, Lines(text), DEFAULT_HEADING, None)
  {
    hide Blocks, BlocksMarks, LineMarks, WellFormed, GoodBlock, Lines;
    Literals();
    LinesKeepText(text);
    assert Tidy([], WellFormed(text)) && Tidy([], false);
    BlocksAreGood(marks, Lines(text), [], DEFAULT_HEADING, [], [], false);
    BlocksAreGood(marks, Lines(text), [], DEFAULT_HEADING, [], [], WellFormed(text));
    BlocksKeepLines(marks, Lines(text), [], DEFAULT_HEADING, [], []);
    NothingOpen([], DEFAULT_HEADING);
    NoBlocks();
    var all := LineMarks(marks, Lines(text), DEFAULT_HEADING, None);
    assert [] + all == all;
  }

  lemma {:induction false} NoBlocks()
    ensures BlocksMarks([]) == [] && AllTags([]) == [] && TagMarks([]) == []
  {
  }

  // The parts made of blocks, in tags.
  lemma {:induction false} PartsOfBlocks(blocks: seq<Block>, wellFormed: bool)
    requires GoodBlocks(blocks, false) && GoodBlocks(blocks, wellFormed)
    ensures var parts := Settled(AddBlocks(blocks)).done;
            && AllTags(parts) == BlocksTags(blocks)
            && (parts == [] <==> blocks == [])
            && forall p <- parts :: GoodPart(p, wellFormed)
  {
    hide GoodBlock, GoodPart, AddBlocks, BlocksTags, TagMarks, BlocksMarks, TagsOf, PartText, AllTags;
    BlocksAddTags(blocks);
    FlushKeepsTags(AddBlocks(blocks));
    AddedBlocksAreGood(blocks, wellFormed);
    FlushIsGood(AddBlocks(blocks), wellFormed);
    var parts := Settled(AddBlocks(blocks)).done;
    assert AllTags(parts) + [] == AllTags(parts);
    NoBlocks();
    if blocks == [] {
      assert AddBlocks(blocks) == Draft([], None) by { AddNoBlocks(); }
    } else {
      BlocksTagsMark(blocks);
      BlocksShow(blocks);
    }
  }

  lemma {:induction false} AddNoBlocks()
    ensures AddBlocks([]) == Draft([], None)
  {
  }

  // Every chunk keeps its bounds and its surrogate pairs.
  lemma {:induction false} ChunksAreBounded(text: Text, marks: Marks)
    requires Sensible(marks) && !IsBlank(text)
    ensures Assembled(text, marks) != [] && forall p <- Assembled(text, marks) :: GoodPart(p, WellFormed(text))
  {
    hide Blocks, Lines, AddBlocks, Settled, ProseFragments, Singles, GoodPart, GoodBlock, GoodFragment, Strip,
         WellFormed, Sensible;
    TheBlocksAreSound(text, marks);
    PartsOfBlocks(TheBlocks(text, marks), WellFormed(text));
    Literals();
    ProseFragmentsAreGood(text, WellFormed(text));
    SinglesAreGood(DEFAULT_HEADING, ProseFragments(text), WellFormed(text));
  }

  // Dropping the overlaps, the chunks hold every non-blank unit of the document's lines once, in
  // order, under its heading and of its kind; each overlap repeats the end of the fragment before.
  lemma {:induction false} ChunksKeepTheDocument(text: Text, marks: Marks)
    requires Sensible(marks) && !IsBlank(text)
    ensures var all := LineMarks(marks, Lines(text), DEFAULT_HEADING, None);
            TagMarks(AllTags(Assembled(text, marks))) == if all == [] then Marked(DEFAULT_HEADING, false, Strip(text))
                else all
    ensures EchoChain(NOTHING, FragmentsOf(AllTags(Assembled(text, marks))))
  {
    hide Blocks, Lines, AddBlocks, Settled, ProseFragments, Singles, GoodPart, GoodBlock, Strip, WellFormed,
         Sensible, BlocksTags, TagMarks, BlocksMarks, LineMarks, Marked, EchoChain, FragmentsOf, AllTags, TagsOf;
    var blocks := TheBlocks(text, marks);
    TheBlocksAreSound(text, marks);
    PartsOfBlocks(blocks, false);
    BlocksTagsMark(blocks);
    BlocksEcho(blocks);
    NoBlocks();
    if blocks == [] {
      SinglesTags(DEFAULT_HEADING, ProseFragments(text));
      TagsMark(DEFAULT_HEADING, false, ProseFragments(text));
      FragmentsOfTags(DEFAULT_HEADING, false, ProseFragments(text));
      ProseFragmentsAreSound(text, NOTHING);
    } else {
      BlocksShow(blocks);
    }
  }

  // ---------------------------------------------------------------- the code, statement by statement

  function NonBlank(chunks: seq<Chunk>): seq<Chunk> {
    if |chunks| == 0 then []
    else NonBlank(chunks[..|chunks| - 1]) + if Trim(chunks[|chunks| - 1].content) != [] then [chunks[|chunks| - 1]]
        else []
  }

  function Chunked(content: Text, marks: Marks): Result<seq<Chunk>> {
    var normalized := Trim(content);
    if normalized == [] then Thrown
    else if !WithinLimits(Assembled(normalized, marks)) then Thrown
    else Ok(NonBlank(Rendered(Assembled(normalized, marks))))
  }

  // The final filter never drops a chunk.
  lemma {:induction false} NothingIsFiltered(parts: seq<Part>)
    requires forall p <- parts :: GoodPart(p, false)
    ensures NonBlank(Rendered(parts)) == Rendered(parts)
  {
    hide Trim, PartText, Strip;
    if |parts| > 0 {
      var last := parts[|parts| - 1];
      assert GoodPart(last, false);
      NothingIsFiltered(parts[..|parts| - 1]);
      TrimBlank(PartText(last.fragments));
    }
  }

  predicate GoodChunk(chunk: Chunk, wellFormed: bool) {
    && 1 <= |chunk.heading| <= MAX_HEADING_CHARS && 1 <= |chunk.content| <= HARD_CAP_CHARS && !IsBlank(chunk.content)
    && (wellFormed ==> WellFormed(chunk.heading) && WellFormed(chunk.content))
  }

  lemma {:induction false} GoodPartsRender(parts: seq<Part>, wellFormed: bool)
    requires forall p <- parts :: GoodPart(p, wellFormed)
    ensures forall chunk <- Rendered(parts) :: GoodChunk(chunk, wellFormed)
  {
    hide Strip, WellFormed, PartText;
    if |parts| > 0 {
      assert GoodPart(parts[|parts| - 1], wellFormed);
      GoodPartsRender(parts[..|parts| - 1], wellFormed);
    }
  }

  // A document is refused exactly when it is blank or over the limits; its chunks are otherwise the
  // assembled parts, all of them within bounds.
  lemma {:induction false} DocumentsAreChunkedWhole(content: Text, marks: Marks)
    requires Sensible(marks)
    ensures Chunked(content, marks).Thrown? <==> IsBlank(content) || !WithinLimits(Assembled(Trim(content), marks))
    ensures Chunked(content, marks).Ok? ==>
              && Chunked(content, marks).value == Rendered(Assembled(Trim(content), marks)) != []
              && forall chunk <- Chunked(content, marks).value :: GoodChunk(chunk, WellFormed(content))
  {
    hide Assembled, Rendered, NonBlank, Trim, Strip, WellFormed, GoodPart, GoodChunk;
    TrimBlank(content);
    StripTrim(content);
    if Trim(content) != [] {
      if WellFormed(content) { WellFormedTrim(content); }
      var parts := Assembled(Trim(content), marks);
      ChunksAreBounded(Trim(content), marks);
      WeakerGood(parts, WellFormed(Trim(content)));
      NothingIsFiltered(parts);
      GoodPartsRender(parts, WellFormed(Trim(content)));
      GoodPartsRender(parts, false);
      if WellFormed(content) { assert WellFormed(Trim(content)); }
    }
  }

  lemma {:induction false} WeakerGood(parts: seq<Part>, wellFormed: bool)
    requires forall p <- parts :: GoodPart(p, wellFormed)
    ensures forall p <- parts :: GoodPart(p, false)
  {
    hide Strip, PartText, WellFormed;
  }

  lemma {:induction false} RenderedSnoc(parts: seq<Part>, p: Part)
    ensures Rendered(parts + [p]) == Rendered(parts) + [Chunk(p.heading, PartText(p.fragments))]
    ensures Payload(parts + [p]) == Payload(parts) + |p.heading| + 1 + |PartText(p.fragments)|
  {
    assert (parts + [p])[..|parts|] == parts;
  }

  lemma {:induction false} LimitsShrink(a: seq<Part>, b: seq<Part>)
    requires a <= b && WithinLimits(b)
    ensures WithinLimits(a)
    decreases |b|
  {
    if |a| < |b| { LimitsShrink(a, b[..|b| - 1]); } else { assert a == b; }
  }

  lemma {:induction false} PiecesGrow(d: Draft, heading: Text, fs: seq<Fragment>, k: nat)
    requires k <= |fs|
    ensures AddPieces(d, heading, fs[..k]).done <= AddPieces(d, heading, fs).done
    decreases |fs|
  {
    hide PartText;
    if k < |fs| {
      PiecesGrow(d, heading, fs[..|fs| - 1], k);
      assert fs[..|fs| - 1][..k] == fs[..k];
    } else {
      assert fs[..k] == fs;
    }
  }

  lemma {:induction false} CodeGrows(d: Draft, heading: Text, pieces: seq<Text>, k: nat)
    requires k <= |pieces|
    ensures AddCode(d, heading, pieces[..k]).done <= AddCode(d, heading, pieces).done
    decreases |pieces|
  {
    if k < |pieces| {
      CodeGrows(d, heading, pieces[..|pieces| - 1], k);
      assert pieces[..|pieces| - 1][..k] == pieces[..k];
    } else {
      assert pieces[..k] == pieces;
    }
  }

  lemma {:induction false} ProseGrows(d: Draft, heading: Text, content: Text)
    ensures d.done <= WithProse(d, heading, content).done
  {
    hide AddPiece, ProseFragments;
    PiecesGrow(d, heading, ProseFragments(content), 0);
    assert AddPieces(d, heading, ProseFragments(content)[..0]) == d;
  }

  lemma {:induction false} CodeGrowsFrom(d: Draft, heading: Text, pieces: seq<Text>)
    ensures d.done <= AddCode(d, heading, pieces).done
  {
    CodeGrows(d, heading, pieces, 0);
    assert AddCode(d, heading, pieces[..0]) == d;
  }

  lemma {:induction false} BlockGrows(d: Draft, b: Block)
    ensures d.done <= AddBlock(d, b).done
  {
    hide WithProse, AddCode, ProseFragments, CodePieces, BoundHeading, BlockProse, PartText;
    var heading := BoundHeading(b.heading);
    ProseGrows(d, heading, b.headingRemainder);
    ProseGrows(d, heading, BlockProse(b));
    CodeGrowsFrom(Settled(WithProse(d, heading, b.headingRemainder)), heading, CodePieces(b.content));
  }

  lemma {:induction false} BlocksGrow(blocks: seq<Block>, k: nat)
    requires k <= |blocks|
    ensures AddBlocks(blocks[..k]).done <= AddBlocks(blocks).done
    decreases |blocks|
  {
    hide AddBlock;
    if k < |blocks| {
      BlocksGrow(blocks[..|blocks| - 1], k);
      assert blocks[..|blocks| - 1][..k] == blocks[..k];
      BlockGrows(AddBlocks(blocks[..|blocks| - 1]), blocks[|blocks| - 1]);
    } else {
      assert blocks[..k] == blocks;
    }
  }

  lemma {:induction false} TextAt(fs: seq<Fragment>, i: nat)
    requires i < |fs|
    ensures Texts(fs)[i] == fs[i].text
  {
    if i > 0 { TextAt(fs[1..], i - 1); }
  }

  class Chunker {
    var chunks: seq<Chunk>
    var derivedEmbeddingChars: nat
    var prose: Option<Chunk>
    ghost var draft: Draft

    ghost predicate Valid()
      reads this
    {
      && chunks == Rendered(draft.done) && derivedEmbeddingChars == Payload(draft.done) && WithinLimits(draft.done)
      && (draft.prose.Some? ==> draft.prose.value.fragments != [])
      && prose == if draft.prose.Some?
         then Some(Chunk(draft.prose.value.heading, PartText(draft.prose.value.fragments))) else None
    }

    constructor ()
      ensures Valid() && draft == Draft([], None)
    {
      chunks, derivedEmbeddingChars, prose, draft := [], 0, None, Draft([], None);
    }

    method PushChunk(heading: Text, content: Text, ghost part: Part) returns (ok: bool)
      requires Valid() && part.heading == heading && PartText(part.fragments) == content
      modifies this
      ensures ok <==> WithinLimits(old(draft.done) + [part])
      ensures ok ==> Valid() && draft == old(draft).(done := old(draft.done) + [part]) && prose == old(prose)
    {
      hide Rendered, Payload, PartText;
      RenderedSnoc(draft.done, part);
      var payloadChars := |heading| + 1 + |content|;
      if |chunks| >= MAX_CHUNKS_PER_DOCUMENT { return false; }
      if derivedEmbeddingChars + payloadChars > MAX_DERIVED_EMBEDDING_CHARS { return false; }
      chunks := chunks + [Chunk(heading, content)];
      derivedEmbeddingChars := derivedEmbeddingChars + payloadChars;
      draft := draft.(done := draft.done + [part]);
      return true;
    }

    method FlushProse() returns (ok: bool)
      requires Valid()
      modifies this
      ensures ok <==> WithinLimits(Settled(old(draft)).done)
      ensures ok ==> Valid() && draft == Settled(old(draft))
    {
      hide Rendered, Payload, PartText;
      if prose.Some? && prose.value.content != [] {
        ok := PushChunk(prose.value.heading, prose.value.content, draft.prose.value);
        if !ok { return; }
      }
      prose := None;
      draft := draft.(prose := None);
      return true;
    }

    method AppendProse(heading: Text, content: Text) returns (ok: bool)
      requires Valid()
      modifies this
      ensures !ok ==> !WithinLimits(WithProse(old(draft), heading, content).done)
      ensures ok ==> Valid() && draft == WithProse(old(draft), heading, content)
    {
      hide Rendered, Payload, PartText, ProseFragments, Settled;
      if content == [] { return true; }
      ghost var fs := ProseFragments(content);
      var pieces := SplitProse(content);
      assert AddPieces(old(draft), heading, fs[..0]) == old(draft);
      for i := 0 to |pieces|
        invariant Valid() && draft == AddPieces(old(draft), heading, fs[..i])
      {
        TextAt(fs, i);
        assert fs[..i + 1][..i] == fs[..i];
        ok := AddOne(heading, pieces[i], fs[i]);
        if !ok {
          PiecesGrow(old(draft), heading, fs, i + 1);
          if WithinLimits(AddPieces(old(draft), heading, fs).done) {
            LimitsShrink(AddPieces(old(draft), heading, fs[..i + 1]).done, AddPieces(old(draft), heading, fs).done);
          }
          return;
        }
      }
      assert fs[..|pieces|] == fs;
      return true;
    }

    // One turn of the loop of appendProse.
    method AddOne(heading: Text, piece: Text, ghost f: Fragment) returns (ok: bool)
      requires Valid() && f.text == piece
      modifies this
      ensures ok <==> WithinLimits(AddPiece(old(draft), heading, f).done)
      ensures ok ==> Valid() && draft == AddPiece(old(draft), heading, f)
    {
      hide Rendered, Payload, PartText, Settled;
      OnePartText(f);
      if prose.Some? && prose.value.heading == heading && |prose.value.content| + 2 + |piece| <= TARGET_CHARS {
        PartTextSnoc(draft.prose.value.fragments, f);
        prose := Some(Chunk(heading, prose.value.content + [NEWLINE, NEWLINE] + piece));
        draft := AddPiece(draft, heading, f);
      } else {
        ok := FlushProse();
        if !ok { return; }
        prose := Some(Chunk(heading, piece));
        draft := draft.(prose := Some(Part(heading, false, [f])));
      }
      return true;
    }

    method AddBlockChunks(b: Block) returns (ok: bool)
      requires Valid()
      modifies this
      ensures !ok ==> !WithinLimits(AddBlock(old(draft), b).done)
      ensures ok ==> Valid() && draft == AddBlock(old(draft), b)
    {
      hide Rendered, Payload, PartText, Settled, WithProse, CodePieces, BoundHeading;
      var heading := BoundHeading(b.heading);
      if !b.code {
        ok := AppendProse(heading, BlockProse(b));
        return;
      }
      ghost var d1 := WithProse(draft, heading, b.headingRemainder);
      ghost var target := AddCode(Settled(d1), heading, CodePieces(b.content)).done;
      CodeGrowsFrom(Settled(d1), heading, CodePieces(b.content));
      SettledGrows(d1);
      ok := AppendProse(heading, b.headingRemainder);
      if !ok {
        Overflowing(d1.done, target);
        return;
      }
      ok := FlushProse();
      if !ok {
        Overflowing(Settled(d1).done, target);
        return;
      }
      var pieces := SplitCode(b.content);
      assert AddCode(Settled(d1), heading, pieces[..0]) == Settled(d1);
      for i := 0 to |pieces|
        invariant Valid() && draft == AddCode(Settled(d1), heading, pieces[..i])
      {
        assert pieces[..i + 1][..i] == pieces[..i];
        ghost var part := Part(heading, true, [Fragment(pieces[i], 0)]);
        OnePartText(part.fragments[0]);
        ok := PushChunk(heading, pieces[i], part);
        if !ok {
          CodeGrows(Settled(d1), heading, pieces, i + 1);
          Overflowing(AddCode(Settled(d1), heading, pieces[..i + 1]).done, target);
          return;
        }
      }
      assert pieces[..|pieces|] == pieces;
      return true;
    }
  }

  lemma {:induction false} SettledGrows(d: Draft)
    ensures d.done <= Settled(d).done
  {
    hide PartText;
  }

  lemma {:induction false} Overflowing(a: seq<Part>, b: seq<Part>)
    requires a <= b && !WithinLimits(a)
    ensures !WithinLimits(b)
  {
    if WithinLimits(b) { LimitsShrink(a, b); }
  }

  method CutDocument(content: Text, marks: Marks) returns (r: Result<seq<Chunk>>)
    ensures r == Chunked(content, marks)
  {
    hide Lines, Blocks, AddBlock, Rendered, Payload, PartText, Settled, ProseFragments;
    var normalized := Trim(content);
    if normalized == [] { return Thrown; }
    var blocks := ParseBlocks(Lines(normalized), marks);
    ghost var parts := Settled(AddBlocks(blocks)).done;
    SettledGrows(AddBlocks(blocks));
    NoChunks();
    var chunker := new Chunker();
    var ok;
    assert AddBlocks(blocks[..0]) == Draft([], None) by { AddNoBlocks(); }
    for k := 0 to |blocks|
      invariant chunker.Valid() && fresh(chunker) && chunker.draft == AddBlocks(blocks[..k])
    {
      assert blocks[..k + 1][..k] == blocks[..k];
      ok := chunker.AddBlockChunks(blocks[k]);
      if !ok {
        BlocksGrow(blocks, k + 1);
        Overflowing(AddBlocks(blocks[..k + 1]).done, parts);
        NotWithinLimits(parts, normalized, marks);
        return Thrown;
      }
    }
    assert blocks[..|blocks|] == blocks;
    ok := chunker.FlushProse();
    if !ok {
      NotWithinLimits(parts, normalized, marks);
      return Thrown;
    }
    if |chunker.chunks| == 0 {
      ghost var fs := ProseFragments(normalized);
      var pieces := SplitProse(normalized);
      assert Singles(DEFAULT_HEADING, fs[..0]) == [];
      for i := 0 to |pieces|
        invariant chunker.Valid() && fresh(chunker) && chunker.draft.done == Singles(DEFAULT_HEADING, fs[..i])
      {
        TextAt(fs, i);
        assert fs[..i + 1][..i] == fs[..i];
        OnePartText(fs[i]);
        ok := chunker.PushChunk(DEFAULT_HEADING, pieces[i], Part(DEFAULT_HEADING, false, [fs[i]]));
        if !ok {
          SinglesGrow(DEFAULT_HEADING, fs, i + 1);
          Overflowing(Singles(DEFAULT_HEADING, fs[..i + 1]), Singles(DEFAULT_HEADING, fs));
          return Thrown;
        }
      }
      assert fs[..|pieces|] == fs;
    }
    return Ok(NonBlank(chunker.chunks));
  }

  lemma {:induction false} NoChunks()
    ensures Rendered([]) == [] && Payload([]) == 0
  {
  }

  lemma {:induction false} NotWithinLimits(parts: seq<Part>, text: Text, marks: Marks)
    requires parts == Settled(AddBlocks(TheBlocks(text, marks))).done && !WithinLimits(parts)
    ensures !WithinLimits(Assembled(text, marks))
  {
    hide Blocks, Lines, AddBlocks, Settled;
    NoChunks();
  }

  lemma {:induction false} SinglesGrow(heading: Text, fs: seq<Fragment>, k: nat)
    requires k <= |fs|
    ensures Singles(heading, fs[..k]) <= Singles(heading, fs)
    decreases |fs|
  {
    if k < |fs| {
      SinglesGrow(heading, fs[..|fs| - 1], k);
      assert fs[..|fs| - 1][..k] == fs[..k];
    } else {
      assert fs[..k] == fs;
    }
  }
}
