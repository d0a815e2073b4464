/**
 * Cutting a document into chunks (packages/cardano-agent/src/knowledge/chunkDocument.ts:21-137 and 192-200).
 *
 * Lines are classified by three regular expressions, taken here as parameters (`Marks`).  A document
 * is read twice: once as the program does, into blocks and then chunks, and once line by line
 * (`LineMarks`), which says for every non-blank unit under which heading, and whether as code, it
 * must be found.
 *
 * A chunk under construction is a `Part`, the fragments it joins; a `Tag` is one fragment with the
 * heading and kind of its chunk; a `Mark` is one unit with them.  The proofs go through these in turn:
 * the parts of a document have the tags of its blocks, the tags have the marks of the blocks, and the
 * blocks have the marks of the lines.
 */
module ChunkDocument {
  import opened Wrappers
  import opened TextUnits
  import opened SplitText

  const MAX_CHUNKS_PER_DOCUMENT := 2500
  const MAX_DERIVED_EMBEDDING_CHARS := 3000000
  const DEFAULT_HEADING: Text := [68, 111, 99, 117, 109, 101, 110, 116]

  datatype Fence = Fence(marker: Unit, length: nat)

  // markdownHeading, openingFence and closingFence.
  datatype Marks = Marks(heading: Text -> Option<Text>, opening: Text -> Option<Fence>, closing: (Text, Fence) -> bool)

  // A fence line holds at least its markers; a heading's text is cut out at white space and '#'.
  ghost predicate Sensible(marks: Marks) {
    && (forall line: Text :: marks.opening(line).Some? ==> !IsBlank(line))
    && (forall line: Text :: WellFormed(line) && marks.heading(line).Some? ==> WellFormed(marks.heading(line).value))
  }

  function BoundHeading(value: Text): (r: Text)
    ensures 1 <= |r| <= MAX_HEADING_CHARS
  {
    var bounded := TruncateSafe(Trim(value), MAX_HEADING_CHARS);
    if bounded == [] then DEFAULT_HEADING else bounded
  }

  function HeadingOverflow(value: Text): Text {
    var normalized := Trim(value);
    TrimStart(normalized[|TruncateSafe(normalized, MAX_HEADING_CHARS)|..])
  }

  // Nothing of a heading is lost: what its bound cuts off is carried over as text.
  lemma {:induction false} HeadingSplits(value: Text)
    ensures Strip(value) == Strip(TruncateSafe(Trim(value), MAX_HEADING_CHARS)) + Strip(HeadingOverflow(value))
  {
    var normalized := Trim(value);
    var bounded := TruncateSafe(normalized, MAX_HEADING_CHARS);
    StripTrim(value);
    assert normalized[..|bounded|] == bounded;
    StripSplit(normalized, |bounded|);
    StripTrimStart(normalized[|bounded|..]);
  }

  // ---------------------------------------------------------------- lines

  function Lines(text: Text): (lines: seq<Text>)
    ensures |lines| > 0
    decreases |text|
  {
    var k := LastIndexOf(text, NEWLINE);
    if k < 0 then [text] else Lines(text[..k]) + [text[k + 1..]]
  }

  function JoinLines(lines: seq<Text>): Text {
    if |lines| == 0 then []
    else if |lines| == 1 then lines[0]
    else JoinLines(lines[..|lines| - 1]) + [NEWLINE] + lines[|lines| - 1]
  }

  lemma {:induction false} StripAllConcat(a: seq<Text>, b: seq<Text>)
    ensures StripAll(a + b) == StripAll(a) + StripAll(b)
  {
    if |a| == 0 {
      assert a + b == b;
    } else {
      assert (a + b)[1..] == a[1..] + b;
      StripAllConcat(a[1..], b);
    }
  }

  lemma {:induction false} StripAllSnoc(lines: seq<Text>, line: Text)
    ensures StripAll(lines + [line]) == StripAll(lines) + Strip(line)
  {
    StripAllConcat(lines, [line]);
  }

  lemma {:induction false} StripJoinLines(lines: seq<Text>)
    ensures Strip(JoinLines(lines)) == StripAll(lines)
  {
    if |lines| > 1 {
      var before, last := lines[..|lines| - 1], lines[|lines| - 1];
      StripJoinLines(before);
      StripAllSnoc(before, last);
      assert before + [last] == lines;
      StripConcat(JoinLines(before) + [NEWLINE], last);
      StripConcat(JoinLines(before), [NEWLINE]);
    }
  }

  // ---------------------------------------------------------------- blocks

  datatype Block = Block(heading: Text, headingRemainder: Text, code: bool, content: Text)

  function RemainderBlock(heading: Text, remainder: Text): seq<Block> {
    if remainder == [] then [] else [Block(heading, [], false, remainder)]
  }

  function ProseBlock(heading: Text, remainder: Text, prose: seq<Text>): seq<Block> {
    if Trim(JoinLines(prose)) == [] then [] else [Block(heading, remainder, false, Trim(JoinLines(prose)))]
  }

  function RemainderLeft(remainder: Text, prose: seq<Text>): Text {
    if Trim(JoinLines(prose)) == [] then remainder else []
  }

  function HeadingOr(h: Text): Text { if h == [] then DEFAULT_HEADING else h }

  function Flushed(done: seq<Block>, heading: Text, remainder: Text, prose: seq<Text>): seq<Block> {
    done + ProseBlock(heading, remainder, prose)
  }

  function AllFlushed(done: seq<Block>, heading: Text, remainder: Text, prose: seq<Text>): seq<Block> {
    Flushed(done, heading, remainder, prose) + RemainderBlock(heading, RemainderLeft(remainder, prose))
  }

  // The blocks of a document, given those done, the lines still to come, the heading, its remainder
  // and the open paragraph.
  function Blocks(marks: Marks, lines: seq<Text>, done: seq<Block>, heading: Text, remainder: Text,
                  prose: seq<Text>): seq<Block>
    decreases |lines|
  {
    if |lines| == 0 then AllFlushed(done, heading, remainder, prose)
    else
      match marks.heading(lines[0])
      case Some(h) => Blocks(marks, lines[1..], AllFlushed(done, heading, remainder, prose), HeadingOr(h),
                             HeadingOverflow(h), [])
      case None =>
        match marks.opening(lines[0])
        case Some(fence) =>
          CodeBlocks(marks, lines[1..], Flushed(done, heading, remainder, prose), heading,
                     RemainderLeft(remainder, prose), fence, [lines[0]])
        case None =>
          if Trim(lines[0]) != [] then Blocks(marks, lines[1..], done, heading, remainder, prose + [lines[0]])
          else Blocks(marks, lines[1..], Flushed(done, heading, remainder, prose), heading,
                      RemainderLeft(remainder, prose), [])
  }

  // The same inside a fence, given the lines of code so far.
  function CodeBlocks(marks: Marks, lines: seq<Text>, done: seq<Block>, heading: Text, remainder: Text, fence: Fence,
                      code: seq<Text>): seq<Block>
    decreases |lines|
  {
    if |lines| == 0 then done + [Block(heading, remainder, true, Trim(JoinLines(code)))]
    else if marks.closing(lines[0], fence) then
      Blocks(marks, lines[1..], done + [Block(heading, remainder, true, Trim(JoinLines(code + [lines[0]])))], heading,
             [], [])
    else CodeBlocks(marks, lines[1..], done, heading, remainder, fence, code + [lines[0]])
  }

  method ParseBlocks(lines: seq<Text>, marks: Marks) returns (blocks: seq<Block>)
    ensures blocks == Blocks(marks, lines, [], DEFAULT_HEADING, [], [])
  {
    hide Flushed, AllFlushed, RemainderLeft, HeadingOr, HeadingOverflow, JoinLines, Trim;
    blocks := [];
    var heading, headingRemainder: Text, prose: seq<Text> := DEFAULT_HEADING, [], [];
    ghost var all := Blocks(marks, lines, [], heading, [], []);
    var index := 0;
    assert lines[0..] == lines;
    while index < |lines|
      invariant 0 <= index <= |lines|
      invariant all == Blocks(marks, lines[index..], blocks, heading, headingRemainder, prose)
      decreases |lines| - index
    {
      var line := lines[index];
      assert lines[index..][0] == line && lines[index..][1..] == lines[index + 1..];
      var parsedHeading := marks.heading(line);
      if parsedHeading.Some? {
        blocks := AllFlushed(blocks, heading, headingRemainder, prose);
        heading, headingRemainder, prose := HeadingOr(parsedHeading.value), HeadingOverflow(parsedHeading.value), [];
        index := index + 1;
        continue;
      }
      var fence := marks.opening(line);
      if fence.Some? {
        blocks := Flushed(blocks, heading, headingRemainder, prose);
        headingRemainder, prose := RemainderLeft(headingRemainder, prose), [];
        var codeLines := [line];
        var closed := false;
        index := index + 1;
        while index < |lines| && !closed
          invariant 0 <= index <= |lines|
          invariant all == if closed
                    then Blocks(marks, lines[index..],
                                blocks + [Block(heading, headingRemainder, true, Trim(JoinLines(codeLines)))],
                                                 heading, [], [])
                           else CodeBlocks(marks, lines[index..], blocks, heading, headingRemainder, fence.value,
                                           codeLines)
          decreases |lines| - index
        {
          assert lines[index..][0] == lines[index] && lines[index..][1..] == lines[index + 1..];
          codeLines := codeLines + [lines[index]];
          closed := marks.closing(lines[index], fence.value);
          index := index + 1;
        }
        blocks := blocks + [Block(heading, headingRemainder, true, Trim(JoinLines(codeLines)))];
        headingRemainder := [];
        if !closed { return; }
        continue;
      }
      if Trim(line) != [] {
        prose := prose + [line];
      } else {
        blocks := Flushed(blocks, heading, headingRemainder, prose);
        headingRemainder, prose := RemainderLeft(headingRemainder, prose), [];
      }
      index := index + 1;
    }
    assert lines[index..] == [];
    blocks := AllFlushed(blocks, heading, headingRemainder, prose);
  }

  // ---------------------------------------------------------------- chunks

  datatype Chunk = Chunk(heading: Text, content: Text)

  // A chunk as it came about: the fragments it joins.
  datatype Part = Part(heading: Text, code: bool, fragments: seq<Fragment>)

  function PartText(fragments: seq<Fragment>): Text {
    if |fragments| == 0 then []
    else if |fragments| == 1 then fragments[0].text
    else PartText(fragments[..|fragments| - 1]) + [NEWLINE, NEWLINE] + fragments[|fragments| - 1].text
  }

  // The chunks pushed so far, and the prose chunk that may still grow.
  datatype Draft = Draft(done: seq<Part>, prose: Option<Part>)

  function Settled(d: Draft): Draft {
    if d.prose.Some? && PartText(d.prose.value.fragments) != [] then Draft(d.done + [d.prose.value], None)
    else Draft(d.done, None)
  }

  function AddPiece(d: Draft, heading: Text, f: Fragment): Draft {
    if d.prose.Some? && d.prose.value.heading == heading
       && |PartText(d.prose.value.fragments)| + 2 + |f.text| <= TARGET_CHARS
    then d.(prose := Some(d.prose.value.(fragments := d.prose.value.fragments + [f])))
    else Settled(d).(prose := Some(Part(heading, false, [f])))
  }

  function AddPieces(d: Draft, heading: Text, fs: seq<Fragment>): Draft {
    if |fs| == 0 then d else AddPiece(AddPieces(d, heading, fs[..|fs| - 1]), heading, fs[|fs| - 1])
  }

  function WithProse(d: Draft, heading: Text, content: Text): Draft {
    if content == [] then d else AddPieces(d, heading, ProseFragments(content))
  }

  function AddCode(d: Draft, heading: Text, pieces: seq<Text>): Draft {
    if |pieces| == 0 then d
    else
      var before := AddCode(d, heading, pieces[..|pieces| - 1]);
      before.(done := before.done + [Part(heading, true, [Fragment(pieces[|pieces| - 1], 0)])])
  }

  function BlockProse(b: Block): Text {
    if b.headingRemainder == [] then b.content else b.headingRemainder + [NEWLINE, NEWLINE] + b.content
  }

  function AddBlock(d: Draft, b: Block): Draft {
    var heading := BoundHeading(b.heading);
    if b.code then AddCode(Settled(WithProse(d, heading, b.headingRemainder)), heading, CodePieces(b.content))
    else WithProse(d, heading, BlockProse(b))
  }

  function AddBlocks(blocks: seq<Block>): Draft {
    if |blocks| == 0 then Draft([], None) else AddBlock(AddBlocks(blocks[..|blocks| - 1]), blocks[|blocks| - 1])
  }

  function Singles(heading: Text, fs: seq<Fragment>): seq<Part> {
    if |fs| == 0 then [] else Singles(heading, fs[..|fs| - 1]) + [Part(heading, false, [fs[|fs| - 1]])]
  }

  // A document without any block of its own is cut as plain prose under the default heading.
  function Assembled(normalized: Text, marks: Marks): seq<Part> {
    var parts := Settled(AddBlocks(Blocks(marks, Lines(normalized), [], DEFAULT_HEADING, [], []))).done;
    if parts == [] then Singles(DEFAULT_HEADING, ProseFragments(normalized)) else parts
  }

  function Rendered(parts: seq<Part>): (chunks: seq<Chunk>)
    ensures |chunks| == |parts|
  {
    if |parts| == 0 then []
    else Rendered(parts[..|parts| - 1]) + [Chunk(parts[|parts| - 1].heading, PartText(parts[|parts| - 1].fragments))]
  }

  // heading + newline + content of every chunk.
  function Payload(parts: seq<Part>): nat {
    if |parts| == 0 then 0
    else Payload(parts[..|parts| - 1]) + |parts[|parts| - 1].heading| + 1 + |PartText(parts[|parts| - 1].fragments)|
  }

  predicate WithinLimits(parts: seq<Part>) {
    |parts| <= MAX_CHUNKS_PER_DOCUMENT && Payload(parts) <= MAX_DERIVED_EMBEDDING_CHARS
  }

  // ---------------------------------------------------------------- tagged fragments

  datatype Tag = Tag(heading: Text, code: bool, fragment: Fragment)

  function TagsOf(heading: Text, code: bool, fs: seq<Fragment>): seq<Tag> {
    if |fs| == 0 then [] else TagsOf(heading, code, fs[..|fs| - 1]) + [Tag(heading, code, fs[|fs| - 1])]
  }

  // The fragments of a whole document in order, each with the heading and kind of its chunk.
  function AllTags(parts: seq<Part>): seq<Tag> {
    if |parts| == 0 then []
    else
      var last := parts[|parts| - 1];
      AllTags(parts[..|parts| - 1]) + TagsOf(last.heading, last.code, last.fragments)
  }

  function DraftTags(d: Draft): seq<Tag> {
    AllTags(d.done) + if d.prose.Some? then TagsOf(d.prose.value.heading, d.prose.value.code, d.prose.value.fragments)
        else []
  }

  function BlockTags(b: Block): seq<Tag> {
    var heading := BoundHeading(b.heading);
    if b.code then
      TagsOf(heading, false, if b.headingRemainder == [] then [] else ProseFragments(b.headingRemainder))
      + TagsOf(heading, true, CodeFragments(CodePieces(b.content)))
    else TagsOf(heading, false, if BlockProse(b) == [] then [] else ProseFragments(BlockProse(b)))
  }

  function CodeFragments(pieces: seq<Text>): seq<Fragment> {
    if |pieces| == 0 then [] else CodeFragments(pieces[..|pieces| - 1]) + [Fragment(pieces[|pieces| - 1], 0)]
  }

  function BlocksTags(blocks: seq<Block>): seq<Tag> {
    if |blocks| == 0 then [] else BlocksTags(blocks[..|blocks| - 1]) + BlockTags(blocks[|blocks| - 1])
  }

  lemma {:induction false} Assoc<T>(a: seq<T>, b: seq<T>, c: seq<T>)
    ensures (a + b) + c == a + (b + c)
  {
  }

  lemma {:induction false} OneTag(heading: Text, code: bool, f: Fragment)
    ensures TagsOf(heading, code, [f]) == [Tag(heading, code, f)]
  {
    assert [f][..0] == [];
  }

  // The open chunk is prose and not empty.
  predicate ValidDraft(d: Draft) {
    d.prose.Some? ==> !d.prose.value.code && PartText(d.prose.value.fragments) != []
  }

  lemma {:induction false} TagsSnoc(heading: Text, code: bool, fs: seq<Fragment>, f: Fragment)
    ensures TagsOf(heading, code, fs + [f]) == TagsOf(heading, code, fs) + [Tag(heading, code, f)]
  {
    assert (fs + [f])[..|fs|] == fs;
  }

  lemma {:induction false} PartTextSnoc(fs: seq<Fragment>, f: Fragment)
    ensures PartText(fs + [f]) == if fs == [] then f.text else PartText(fs) + [NEWLINE, NEWLINE] + f.text
  {
    assert (fs + [f])[..|fs|] == fs;
  }

  lemma {:induction false} FlushKeepsTags(d: Draft)
    requires ValidDraft(d)
    ensures DraftTags(Settled(d)) == DraftTags(d) && Settled(d).prose == None
  {
    if d.prose.Some? { assert (d.done + [d.prose.value])[..|d.done|] == d.done; }
  }

  lemma {:induction false} GrowingAddsTag(d: Draft, f: Fragment)
    requires ValidDraft(d) && d.prose.Some? && f.text != []
    ensures var grown := d.(prose := Some(d.prose.value.(fragments := d.prose.value.fragments + [f])));
            ValidDraft(grown) && DraftTags(grown) == DraftTags(d) + [Tag(d.prose.value.heading, false, f)]
  {
    hide AllTags, TagsOf, PartText;
    TagsSnoc(d.prose.value.heading, false, d.prose.value.fragments, f);
    PartTextSnoc(d.prose.value.fragments, f);
    Assoc(AllTags(d.done), TagsOf(d.prose.value.heading, false, d.prose.value.fragments),
          [Tag(d.prose.value.heading, false, f)]);
  }

  lemma {:induction false} PieceAddsTag(d: Draft, heading: Text, f: Fragment)
    requires ValidDraft(d) && f.text != []
    ensures ValidDraft(AddPiece(d, heading, f))
    ensures DraftTags(AddPiece(d, heading, f)) == DraftTags(d) + [Tag(heading, false, f)]
  {
    if d.prose.Some? && d.prose.value.heading == heading
        && |PartText(d.prose.value.fragments)| + 2 + |f.text| <= TARGET_CHARS {
      GrowingAddsTag(d, f);
    } else {
      FlushKeepsTags(d);
      OneTag(heading, false, f);
    }
  }

  lemma {:induction false} PiecesAddTags(d: Draft, heading: Text, fs: seq<Fragment>)
    requires ValidDraft(d) && forall f <- fs :: f.text != []
    ensures ValidDraft(AddPieces(d, heading, fs))
    ensures DraftTags(AddPieces(d, heading, fs)) == DraftTags(d) + TagsOf(heading, false, fs)
  {
    hide AddPiece, DraftTags;
    if |fs| > 0 {
      PiecesAddTags(d, heading, fs[..|fs| - 1]);
      PieceAddsTag(AddPieces(d, heading, fs[..|fs| - 1]), heading, fs[|fs| - 1]);
      Assoc(DraftTags(d), TagsOf(heading, false, fs[..|fs| - 1]), [Tag(heading, false, fs[|fs| - 1])]);
    }
  }

  lemma {:induction false} PushAddsTags(done: seq<Part>, part: Part)
    ensures AllTags(done + [part]) == AllTags(done) + TagsOf(part.heading, part.code, part.fragments)
  {
    assert (done + [part])[..|done|] == done;
  }

  lemma {:induction false} CodeAddsTags(d: Draft, heading: Text, pieces: seq<Text>)
    requires d.prose == None
    ensures AddCode(d, heading, pieces).prose == None
    ensures DraftTags(AddCode(d, heading, pieces)) == DraftTags(d) + TagsOf(heading, true, CodeFragments(pieces))
  {
    if |pieces| > 0 {
      var fragments, f := CodeFragments(pieces[..|pieces| - 1]), Fragment(pieces[|pieces| - 1], 0);
      CodeAddsTags(d, heading, pieces[..|pieces| - 1]);
      PushAddsTags(AddCode(d, heading, pieces[..|pieces| - 1]).done, Part(heading, true, [f]));
      TagsSnoc(heading, true, fragments, f);
      OneTag(heading, true, f);
      Assoc(DraftTags(d), TagsOf(heading, true, fragments), [Tag(heading, true, f)]);
    } else {
      assert DraftTags(d) + [] == DraftTags(d);
    }
  }

  lemma {:induction false} AppendAddsTags(d: Draft, heading: Text, content: Text)
    requires ValidDraft(d) && (content == [] || !IsBlank(content))
    ensures ValidDraft(WithProse(d, heading, content))
    ensures DraftTags(WithProse(d, heading, content))
            == DraftTags(d) + TagsOf(heading, false, if content == [] then [] else ProseFragments(content))
  {
    if content == [] {
      assert DraftTags(d) + [] == DraftTags(d);
    } else {
      ProseFragmentsAreGood(content, false);
      PiecesAddTags(d, heading, ProseFragments(content));
    }
  }

  // ---------------------------------------------------------------- blocks keep their text

  // Remainders are empty or text; contents are text.
  predicate GoodBlock(b: Block, wellFormed: bool) {
    && (b.headingRemainder == [] || !IsBlank(b.headingRemainder)) && !IsBlank(b.content)
    && (wellFormed ==> WellFormed(b.heading) && WellFormed(b.headingRemainder) && WellFormed(b.content))
  }

  lemma {:induction false} BlockProseIsText(b: Block)
    requires GoodBlock(b, false)
    ensures Strip(BlockProse(b)) == Strip(b.headingRemainder) + Strip(b.content) && !IsBlank(BlockProse(b))
  {
    if b.headingRemainder != [] {
      StripConcat(b.headingRemainder + [NEWLINE, NEWLINE], b.content);
      StripConcat(b.headingRemainder, [NEWLINE, NEWLINE]);
    }
  }

  lemma {:induction false} BlockAddsTags(d: Draft, b: Block)
    requires ValidDraft(d) && GoodBlock(b, false)
    ensures ValidDraft(AddBlock(d, b)) && DraftTags(AddBlock(d, b)) == DraftTags(d) + BlockTags(b)
  {
    hide BoundHeading, WithProse, Settled, AddCode, DraftTags, TagsOf, CodeFragments, CodePieces, ProseFragments,
         BlockProse, Strip;
    var heading := BoundHeading(b.heading);
    if b.code {
      var d1 := WithProse(d, heading, b.headingRemainder);
      Assoc(DraftTags(d), TagsOf(heading, false, if b.headingRemainder == [] then []
                                 else ProseFragments(b.headingRemainder)),
            TagsOf(heading, true, CodeFragments(CodePieces(b.content))));
      AppendAddsTags(d, heading, b.headingRemainder);
      FlushKeepsTags(d1);
      CodeAddsTags(Settled(d1), heading, CodePieces(b.content));
    } else {
      BlockProseIsText(b);
      AppendAddsTags(d, heading, BlockProse(b));
    }
  }

  lemma {:induction false} BlocksAddTags(blocks: seq<Block>)
    requires forall b <- blocks :: GoodBlock(b, false)
    ensures ValidDraft(AddBlocks(blocks)) && DraftTags(AddBlocks(blocks)) == BlocksTags(blocks)
  {
    hide AddBlock, BlockTags, Strip;
    if |blocks| > 0 {
      BlocksAddTags(blocks[..|blocks| - 1]);
      BlockAddsTags(AddBlocks(blocks[..|blocks| - 1]), blocks[|blocks| - 1]);
    }
  }

  // ---------------------------------------------------------------- where every unit belongs

  datatype Mark = Mark(heading: Text, code: bool, unit: Unit)

  function Marked(heading: Text, code: bool, units: Text): seq<Mark> {
    if |units| == 0 then [] else Marked(heading, code, units[..|units| - 1]) + [Mark(heading, code, units[|units| - 1])]
  }

  // Read line by line: the bounded heading and the kind of every non-blank unit that is not a
  // heading's own label.
  function LineMarks(marks: Marks, lines: seq<Text>, heading: Text, fence: Option<Fence>): seq<Mark> {
    if |lines| == 0 then []
    else
      match fence
      case Some(f) =>
        Marked(BoundHeading(heading), true, Strip(lines[0]))
        + LineMarks(marks, lines[1..], heading, if marks.closing(lines[0], f) then None else fence)
      case None =>
        match marks.heading(lines[0])
        case Some(h) =>
          Marked(BoundHeading(HeadingOr(h)), false, Strip(HeadingOverflow(h))) + LineMarks(marks, lines[1..],
                  HeadingOr(h), None)
        case None =>
          Marked(BoundHeading(heading), marks.opening(lines[0]).Some?, Strip(lines[0]))
          + LineMarks(marks, lines[1..], heading, marks.opening(lines[0]))
  }

  // The same of the fragments of the chunks, without what they repeat.
  function TagMarks(tags: seq<Tag>): seq<Mark> {
    if |tags| == 0 then []
    else
      var last := tags[|tags| - 1];
      TagMarks(tags[..|tags| - 1]) + Marked(last.heading, last.code, Fresh([last.fragment]))
  }

  function BlockMarks(b: Block): seq<Mark> {
    Marked(BoundHeading(b.heading), false, Strip(b.headingRemainder)) + Marked(BoundHeading(b.heading), b.code,
            Strip(b.content))
  }

  function BlocksMarks(blocks: seq<Block>): seq<Mark> {
    if |blocks| == 0 then [] else BlocksMarks(blocks[..|blocks| - 1]) + BlockMarks(blocks[|blocks| - 1])
  }

  lemma {:induction false} MarkedConcat(heading: Text, code: bool, a: Text, b: Text)
    ensures Marked(heading, code, a + b) == Marked(heading, code, a) + Marked(heading, code, b)
  {
    if |b| == 0 {
      assert a + b == a;
    } else {
      assert (a + b)[..|a + b| - 1] == a + b[..|b| - 1];
      MarkedConcat(heading, code, a, b[..|b| - 1]);
    }
  }

  lemma {:induction false} TagMarksConcat(a: seq<Tag>, b: seq<Tag>)
    ensures TagMarks(a + b) == TagMarks(a) + TagMarks(b)
  {
    hide Marked, Fresh;
    if |b| == 0 {
      assert a + b == a;
    } else {
      assert (a + b)[..|a + b| - 1] == a + b[..|b| - 1];
      TagMarksConcat(a, b[..|b| - 1]);
      var last := b[|b| - 1];
      Assoc(TagMarks(a), TagMarks(b[..|b| - 1]), Marked(last.heading, last.code, Fresh([last.fragment])));
    }
  }

  lemma {:induction false} FreshSnoc(fs: seq<Fragment>, f: Fragment)
    ensures Fresh(fs + [f]) == Fresh(fs) + Fresh([f])
  {
    if |fs| == 0 {
      assert fs + [f] == [f];
    } else {
      assert (fs + [f])[1..] == fs[1..] + [f];
      FreshSnoc(fs[1..], f);
    }
  }

  lemma {:induction false} TagsMark(heading: Text, code: bool, fs: seq<Fragment>)
    ensures TagMarks(TagsOf(heading, code, fs)) == Marked(heading, code, Fresh(fs))
  {
    if |fs| > 0 {
      var before, last := fs[..|fs| - 1], fs[|fs| - 1];
      assert before + [last] == fs;
      TagsMark(heading, code, before);
      TagMarksConcat(TagsOf(heading, code, before), [Tag(heading, code, last)]);
      OneTagMarks(Tag(heading, code, last));
      FreshSnoc(before, last);
      MarkedConcat(heading, code, Fresh(before), Fresh([last]));
    }
  }

  lemma {:induction false} OneTagMarks(tag: Tag)
    ensures TagMarks([tag]) == Marked(tag.heading, tag.code, Fresh([tag.fragment]))
  {
    assert [tag][..0] == [];
  }

  lemma {:induction false} FreshCode(pieces: seq<Text>)
    ensures Fresh(CodeFragments(pieces)) == StripAll(pieces)
  {
    if |pieces| > 0 {
      var before, last := pieces[..|pieces| - 1], pieces[|pieces| - 1];
      assert before + [last] == pieces;
      FreshCode(before);
      FreshSnoc(CodeFragments(before), Fragment(last, 0));
      StripAllSnoc(before, last);
    }
  }

  lemma {:induction false} CodePiecesKeepText(content: Text)
    ensures StripAll(CodePieces(content)) == Strip(content)
  {
    CodeKeepsText(content);
  }

  lemma {:induction false} ProseTagsMark(heading: Text, content: Text)
    ensures TagMarks(TagsOf(heading, false, if content == [] then [] else ProseFragments(content))) == Marked(heading,
            false, Strip(content))
  {
    if content != [] {
      TagsMark(heading, false, ProseFragments(content));
      ProseFragmentsAreSound(content, NOTHING);
    }
  }

  lemma {:induction false} BlockTagsMark(b: Block)
    requires GoodBlock(b, false)
    ensures TagMarks(BlockTags(b)) == BlockMarks(b)
  {
    var heading := BoundHeading(b.heading);
    if b.code {
      ProseTagsMark(heading, b.headingRemainder);
      TagsMark(heading, true, CodeFragments(CodePieces(b.content)));
      FreshCode(CodePieces(b.content));
      CodePiecesKeepText(b.content);
      TagMarksConcat(TagsOf(heading, false, if b.headingRemainder == [] then []
                            else ProseFragments(b.headingRemainder)),
                     TagsOf(heading, true, CodeFragments(CodePieces(b.content))));
    } else {
      BlockProseIsText(b);
      ProseTagsMark(heading, BlockProse(b));
      MarkedConcat(heading, false, Strip(b.headingRemainder), Strip(b.content));
    }
  }

  lemma {:induction false} BlocksTagsMark(blocks: seq<Block>)
    requires forall b <- blocks :: GoodBlock(b, false)
    ensures TagMarks(BlocksTags(blocks)) == BlocksMarks(blocks)
  {
    if |blocks| > 0 {
      BlocksTagsMark(blocks[..|blocks| - 1]);
      BlockTagsMark(blocks[|blocks| - 1]);
      TagMarksConcat(BlocksTags(blocks[..|blocks| - 1]), BlockTags(blocks[|blocks| - 1]));
    }
  }

  // ---------------------------------------------------------------- parsing keeps the lines

  // What is done and what is open, as marks.
  function Total(done: seq<Block>, heading: Text, remainder: Text, prose: seq<Text>): seq<Mark> {
    BlocksMarks(done) + Marked(BoundHeading(heading), false, Strip(remainder) + StripAll(prose))
  }

  function CodeTotal(done: seq<Block>, heading: Text, remainder: Text, code: seq<Text>): seq<Mark> {
    BlocksMarks(done) + (Marked(BoundHeading(heading), false, Strip(remainder)) + Marked(BoundHeading(heading), true,
            StripAll(code)))
  }

  lemma {:induction false} BlockSnoc(done: seq<Block>, b: Block)
    ensures BlocksMarks(done + [b]) == BlocksMarks(done) + BlockMarks(b)
  {
    assert (done + [b])[..|done|] == done;
  }

  lemma {:induction false} ProseText(prose: seq<Text>)
    ensures Strip(Trim(JoinLines(prose))) == StripAll(prose)
    ensures Trim(JoinLines(prose)) == [] <==> StripAll(prose) == []
  {
    hide Trim, JoinLines, StripAll;
    StripTrim(JoinLines(prose));
    TrimBlank(JoinLines(prose));
    StripJoinLines(prose);
  }

  lemma {:induction false} FlushedTotal(done: seq<Block>, heading: Text, remainder: Text, prose: seq<Text>)
    ensures Total(Flushed(done, heading, remainder, prose), heading, RemainderLeft(remainder, prose), [])
            == Total(done, heading, remainder, prose)
  {
    hide BlocksMarks, BoundHeading, Trim, JoinLines, Strip, Marked;
    ProseText(prose);
    EmptyMarks(heading);
    var content := Trim(JoinLines(prose));
    if content == [] {
      assert done + [] == done;
      assert Strip(remainder) + [] == Strip(remainder);
    } else {
      BlockSnoc(done, Block(heading, remainder, false, content));
      MarkedConcat(BoundHeading(heading), false, Strip(remainder), StripAll(prose));
      var all := Total(done, heading, remainder, prose);
      assert all + [] == all;
    }
  }

  lemma {:induction false} EmptyMarks(heading: Text)
    ensures Strip([]) == [] && StripAll([]) == [] && Strip([]) + StripAll([]) == []
            && Marked(BoundHeading(heading), false, []) == []
  {
  }

  lemma {:induction false} AllFlushedTotal(done: seq<Block>, heading: Text, remainder: Text, prose: seq<Text>)
    ensures BlocksMarks(AllFlushed(done, heading, remainder, prose)) == Total(done, heading, remainder, prose)
  {
    hide BlocksMarks, BoundHeading, RemainderLeft, Flushed, Strip, StripAll, Marked;
    FlushedTotal(done, heading, remainder, prose);
    EmptyMarks(heading);
    var left, flushed := RemainderLeft(remainder, prose), Flushed(done, heading, remainder, prose);
    assert Strip(left) + StripAll([]) == Strip(left);
    if left == [] {
      assert flushed + [] == flushed;
      assert BlocksMarks(flushed) + [] == BlocksMarks(flushed);
    } else {
      BlockSnoc(flushed, Block(heading, [], false, left));
      var marks := Marked(BoundHeading(heading), false, Strip(left));
      assert [] + marks == marks;
    }
  }

  lemma {:induction false} LineTotal(done: seq<Block>, heading: Text, remainder: Text, prose: seq<Text>, line: Text)
    ensures Total(done, heading, remainder, prose + [line])
            == Total(done, heading, remainder, prose) + Marked(BoundHeading(heading), false, Strip(line))
  {
    hide BlocksMarks, BoundHeading, Strip, StripAll, Marked;
    StripAllSnoc(prose, line);
    Assoc(Strip(remainder), StripAll(prose), Strip(line));
    MarkedConcat(BoundHeading(heading), false, Strip(remainder) + StripAll(prose), Strip(line));
    Assoc(BlocksMarks(done), Marked(BoundHeading(heading), false, Strip(remainder) + StripAll(prose)),
          Marked(BoundHeading(heading), false, Strip(line)));
  }

  lemma {:induction false} HeadingTotal(done: seq<Block>, heading: Text, remainder: Text, prose: seq<Text>,
                                        next: Text, overflow: Text)
    ensures Total(AllFlushed(done, heading, remainder, prose), next, overflow, [])
            == Total(done, heading, remainder, prose) + Marked(BoundHeading(next), false, Strip(overflow))
  {
    hide BlocksMarks, BoundHeading, AllFlushed, Strip, StripAll, Marked;
    AllFlushedTotal(done, heading, remainder, prose);
    EmptyMarks(next);
    assert Strip(overflow) + StripAll([]) == Strip(overflow);
  }

  lemma {:induction false} OpeningTotal(done: seq<Block>, heading: Text, remainder: Text, prose: seq<Text>, line: Text)
    ensures CodeTotal(Flushed(done, heading, remainder, prose), heading, RemainderLeft(remainder, prose), [line])
            == Total(done, heading, remainder, prose) + Marked(BoundHeading(heading), true, Strip(line))
  {
    hide BlocksMarks, BoundHeading, RemainderLeft, Flushed, Strip, StripAll, Marked;
    FlushedTotal(done, heading, remainder, prose);
    EmptyMarks(heading);
    StripAllSnoc([], line);
    assert [] + [line] == [line] && [] + Strip(line) == Strip(line);
    var left := RemainderLeft(remainder, prose);
    assert Strip(left) + StripAll([]) == Strip(left);
    Assoc(BlocksMarks(Flushed(done, heading, remainder, prose)), Marked(BoundHeading(heading), false, Strip(left)),
          Marked(BoundHeading(heading), true, Strip(line)));
  }

  lemma {:induction false} CodeLineTotal(done: seq<Block>, heading: Text, remainder: Text, code: seq<Text>, line: Text)
    ensures CodeTotal(done, heading, remainder, code + [line])
            == CodeTotal(done, heading, remainder, code) + Marked(BoundHeading(heading), true, Strip(line))
  {
    hide BlocksMarks, BoundHeading, Strip, StripAll, Marked;
    StripAllSnoc(code, line);
    MarkedConcat(BoundHeading(heading), true, StripAll(code), Strip(line));
    var a, b := Marked(BoundHeading(heading), false, Strip(remainder)),
        Marked(BoundHeading(heading), true, StripAll(code));
    var c := Marked(BoundHeading(heading), true, Strip(line));
    Assoc(a, b, c);
    Assoc(BlocksMarks(done), a + b, c);
  }

  lemma {:induction false} CodeBlockTotal(done: seq<Block>, heading: Text, remainder: Text, code: seq<Text>)
    ensures BlocksMarks(done + [Block(heading, remainder, true, Trim(JoinLines(code)))]) == CodeTotal(done, heading,
            remainder, code)
  {
    hide BlocksMarks, BoundHeading, Trim, JoinLines, Strip, StripAll, Marked;
    ProseText(code);
    BlockSnoc(done, Block(heading, remainder, true, Trim(JoinLines(code))));
  }

  lemma {:induction false} BlocksKeepLines(marks: Marks, lines: seq<Text>, done: seq<Block>, heading: Text,
                                           remainder: Text, prose: seq<Text>)
    ensures BlocksMarks(Blocks(marks, lines, done, heading, remainder, prose))
            == Total(done, heading, remainder, prose) + LineMarks(marks, lines, heading, None)
    decreases |lines|, 0
  {
    hide BlocksMarks, BoundHeading, Flushed, AllFlushed, RemainderLeft, HeadingOr, HeadingOverflow, Trim, Strip,
         Marked, Total, CodeTotal;
    var total := Total(done, heading, remainder, prose);
    if |lines| == 0 {
      AllFlushedTotal(done, heading, remainder, prose);
      assert total + [] == total;
    } else {
      var line, rest := lines[0], lines[1..];
      match marks.heading(line)
      case Some(h) =>
        BlocksKeepLines(marks, rest, AllFlushed(done, heading, remainder, prose), HeadingOr(h), HeadingOverflow(h), []);
        HeadingTotal(done, heading, remainder, prose, HeadingOr(h), HeadingOverflow(h));
        Assoc(total, Marked(BoundHeading(HeadingOr(h)), false, Strip(HeadingOverflow(h))),
              LineMarks(marks, rest, HeadingOr(h), None));
      case None =>
        match marks.opening(line)
        case Some(fence) =>
          CodeBlocksKeepLines(marks, rest, Flushed(done, heading, remainder, prose), heading,
                              RemainderLeft(remainder, prose), fence, [line]);
          OpeningTotal(done, heading, remainder, prose, line);
          Assoc(total, Marked(BoundHeading(heading), true, Strip(line)), LineMarks(marks, rest, heading, Some(fence)));
        case None =>
          PlainLineKeeps(marks, rest, done, heading, remainder, prose, line);
    }
  }

  lemma {:induction false} PlainLineKeeps(marks: Marks, rest: seq<Text>, done: seq<Block>, heading: Text,
                                          remainder: Text, prose: seq<Text>, line: Text)
    ensures BlocksMarks(if Trim(line) != [] then Blocks(marks, rest, done, heading, remainder, prose + [line])
                        else Blocks(marks, rest, Flushed(done, heading, remainder, prose), heading,
                                    RemainderLeft(remainder, prose), []))
            == Total(done, heading, remainder, prose)
               + (Marked(BoundHeading(heading), false, Strip(line)) + LineMarks(marks, rest, heading, None))
    decreases |rest|, 1
  {
    hide BlocksMarks, BoundHeading, Flushed, RemainderLeft, Trim, Strip, Total, LineMarks;
    var total := Total(done, heading, remainder, prose);
    if Trim(line) != [] {
      BlocksKeepLines(marks, rest, done, heading, remainder, prose + [line]);
      LineTotal(done, heading, remainder, prose, line);
      Assoc(total, Marked(BoundHeading(heading), false, Strip(line)), LineMarks(marks, rest, heading, None));
    } else {
      BlocksKeepLines(marks, rest, Flushed(done, heading, remainder, prose), heading, RemainderLeft(remainder, prose),
                      []);
      FlushedTotal(done, heading, remainder, prose);
      TrimBlank(line);
      var tail := LineMarks(marks, rest, heading, None);
      assert [] + tail == tail;
    }
  }

  lemma {:induction false} CodeBlocksKeepLines(marks: Marks, lines: seq<Text>, done: seq<Block>, heading: Text,
                                               remainder: Text, fence: Fence, code: seq<Text>)
    ensures BlocksMarks(CodeBlocks(marks, lines, done, heading, remainder, fence, code))
            == CodeTotal(done, heading, remainder, code) + LineMarks(marks, lines, heading, Some(fence))
    decreases |lines|, 0
  {
    hide BlocksMarks, BoundHeading, Trim, Strip, Marked, Total, CodeTotal, JoinLines;
    if |lines| == 0 {
      CodeBlockTotal(done, heading, remainder, code);
      assert CodeTotal(done, heading, remainder, code) + [] == CodeTotal(done, heading, remainder, code);
    } else {
      var line, rest := lines[0], lines[1..];
      CodeLineTotal(done, heading, remainder, code, line);
      if marks.closing(line, fence) {
        var more := done + [Block(heading, remainder, true, Trim(JoinLines(code + [line])))];
        BlocksKeepLines(marks, rest, more, heading, [], []);
        CodeBlockTotal(done, heading, remainder, code + [line]);
        NothingOpen(more, heading);
        Assoc(CodeTotal(done, heading, remainder, code), Marked(BoundHeading(heading), true, Strip(line)),
              LineMarks(marks, rest, heading, None));
      } else {
        CodeBlocksKeepLines(marks, rest, done, heading, remainder, fence, code + [line]);
        Assoc(CodeTotal(done, heading, remainder, code), Marked(BoundHeading(heading), true, Strip(line)),
              LineMarks(marks, rest, heading, Some(fence)));
      }
    }
  }

  lemma {:induction false} NothingOpen(done: seq<Block>, heading: Text)
    ensures Total(done, heading, [], []) == BlocksMarks(done)
  {
    hide BlocksMarks, BoundHeading;
    EmptyMarks(heading);
    assert BlocksMarks(done) + [] == BlocksMarks(done);
  }

  // ---------------------------------------------------------------- blocks are sound

  predicate GoodLines(lines: seq<Text>) { forall line <- lines :: WellFormed(line) }

  predicate Tidy(text: Text, wellFormed: bool) {
    (text == [] || !IsBlank(text)) && (wellFormed ==> WellFormed(text))
  }

  lemma {:induction false} OverflowIsTidy(h: Text, wellFormed: bool)
    requires wellFormed ==> WellFormed(h)
    ensures Tidy(HeadingOverflow(h), wellFormed)
  {
    hide Strip, TrimStart, TrimEnd, TruncateSafe, Trim;
    var normalized := Trim(h);
    var k := |TruncateSafe(normalized, MAX_HEADING_CHARS)|;
    TrimStartBlank(normalized[k..]);
    StripTrimStart(normalized[k..]);
    if wellFormed {
      WellFormedTrim(h);
      TruncateSafeIsSafe(normalized, MAX_HEADING_CHARS);
      if k > 0 { assert PairedAt(TruncateSafe(normalized, MAX_HEADING_CHARS), k - 1); }
      WellFormedParts(normalized, k);
      WellFormedTrimStart(normalized[k..]);
    }
  }

  lemma {:induction false} JoinIsWellFormed(lines: seq<Text>)
    requires GoodLines(lines)
    ensures WellFormed(JoinLines(lines))
  {
    if |lines| > 1 {
      JoinIsWellFormed(lines[..|lines| - 1]);
      WellFormedConcat(JoinLines(lines[..|lines| - 1]), [NEWLINE]);
      WellFormedConcat(JoinLines(lines[..|lines| - 1]) + [NEWLINE], lines[|lines| - 1]);
    }
  }

  predicate GoodBlocks(blocks: seq<Block>, wellFormed: bool) { forall b <- blocks :: GoodBlock(b, wellFormed) }

  lemma {:induction false} FlushedIsGood(done: seq<Block>, heading: Text, remainder: Text, prose: seq<Text>,
                                         wellFormed: bool)
    requires GoodBlocks(done, wellFormed) && Tidy(remainder, wellFormed)
    requires wellFormed ==> WellFormed(heading) && GoodLines(prose)
    ensures GoodBlocks(Flushed(done, heading, remainder, prose), wellFormed)
    ensures GoodBlocks(AllFlushed(done, heading, remainder, prose), wellFormed)
    ensures Tidy(RemainderLeft(remainder, prose), wellFormed)
  {
    hide Strip, Trim, JoinLines;
    TrimBlank(JoinLines(prose));
    StripTrim(JoinLines(prose));
    if wellFormed {
      JoinIsWellFormed(prose);
      WellFormedTrim(JoinLines(prose));
    }
    assert Tidy([], wellFormed) by { assert WellFormed([]); }
  }

  lemma {:induction false} CodeBlockIsGood(heading: Text, remainder: Text, code: seq<Text>, wellFormed: bool)
    requires Tidy(remainder, wellFormed) && !IsBlank(JoinLines(code))
    requires wellFormed ==> WellFormed(heading) && GoodLines(code)
    ensures GoodBlock(Block(heading, remainder, true, Trim(JoinLines(code))), wellFormed)
  {
    hide Strip, Trim, JoinLines;
    StripTrim(JoinLines(code));
    if wellFormed {
      JoinIsWellFormed(code);
      WellFormedTrim(JoinLines(code));
    }
  }

  lemma {:induction false} CodeStaysText(code: seq<Text>, line: Text)
    requires !IsBlank(JoinLines(code))
    ensures !IsBlank(JoinLines(code + [line]))
  {
    hide Strip, JoinLines;
    StripJoinLines(code);
    StripJoinLines(code + [line]);
    StripAllSnoc(code, line);
  }

  lemma {:induction false} BlocksAreGood(marks: Marks, lines: seq<Text>, done: seq<Block>, heading: Text,
                                         remainder: Text, prose: seq<Text>,
                                         wellFormed: bool)
    requires Sensible(marks) && GoodBlocks(done, wellFormed) && Tidy(remainder, wellFormed)
    requires wellFormed ==> WellFormed(heading) && GoodLines(prose) && GoodLines(lines)
    ensures GoodBlocks(Blocks(marks, lines, done, heading, remainder, prose), wellFormed)
    decreases |lines|
  {
    hide Strip, Trim, JoinLines, Flushed, AllFlushed, RemainderLeft, HeadingOverflow, WellFormed;
    FlushedIsGood(done, heading, remainder, prose, wellFormed);
    assert Tidy([], wellFormed) && WellFormed(DEFAULT_HEADING) by { Literals(); }
    if |lines| > 0 {
      var line, rest := lines[0], lines[1..];
      match marks.heading(line)
      case Some(h) =>
        OverflowIsTidy(h, wellFormed);
        BlocksAreGood(marks, rest, AllFlushed(done, heading, remainder, prose), HeadingOr(h), HeadingOverflow(h), [],
                      wellFormed);
      case None =>
        match marks.opening(line)
        case Some(fence) =>
          assert JoinLines([line]) == line by { OneLine(line); }
          CodeBlocksAreGood(marks, rest, Flushed(done, heading, remainder, prose), heading,
                            RemainderLeft(remainder, prose), fence, [line], wellFormed);
        case None =>
          if Trim(line) != [] {
            BlocksAreGood(marks, rest, done, heading, remainder, prose + [line], wellFormed);
          } else {
            BlocksAreGood(marks, rest, Flushed(done, heading, remainder, prose), heading,
                          RemainderLeft(remainder, prose), [], wellFormed);
          }
    }
  }

  lemma {:induction false} OneLine(line: Text)
    ensures JoinLines([line]) == line
  {
  }

  lemma {:induction false} Literals()
    ensures WellFormed([]) && WellFormed(DEFAULT_HEADING) && WellFormed([NEWLINE, NEWLINE])
  {
  }

  lemma {:induction false} CodeBlocksAreGood(marks: Marks, lines: seq<Text>, done: seq<Block>, heading: Text,
                                             remainder: Text, fence: Fence,
                                             code: seq<Text>, wellFormed: bool)
    requires Sensible(marks) && GoodBlocks(done, wellFormed) && Tidy(remainder, wellFormed) && !IsBlank(JoinLines(code))
    requires wellFormed ==> WellFormed(heading) && GoodLines(code) && GoodLines(lines)
    ensures GoodBlocks(CodeBlocks(marks, lines, done, heading, remainder, fence, code), wellFormed)
    decreases |lines|
  {
    hide Strip, Trim, JoinLines, WellFormed;
    if |lines| == 0 {
      CodeBlockIsGood(heading, remainder, code, wellFormed);
    } else {
      var line, rest := lines[0], lines[1..];
      CodeStaysText(code, line);
      if marks.closing(line, fence) {
        CodeBlockIsGood(heading, remainder, code + [line], wellFormed);
        Literals();
        BlocksAreGood(marks, rest, done + [Block(heading, remainder, true, Trim(JoinLines(code + [line])))], heading,
                      [], [], wellFormed);
      } else {
        CodeBlocksAreGood(marks, rest, done, heading, remainder, fence, code + [line], wellFormed);
      }
    }
  }

  lemma {:induction false} LinesKeepText(text: Text)
    ensures StripAll(Lines(text)) == Strip(text)
    ensures WellFormed(text) ==> GoodLines(Lines(text))
  {
    LinesKeepUnits(text);
    if WellFormed(text) { LinesAreWellFormed(text); }
  }

  lemma {:induction false} StripAtNewline(text: Text, k: nat)
    requires k < |text| && text[k] == NEWLINE
    ensures Strip(text) == Strip(text[..k]) + Strip(text[k + 1..])
  {
    StripSplit(text, k + 1);
    assert text[..k + 1] == text[..k] + [NEWLINE];
    StripConcat(text[..k], [NEWLINE]);
  }

  lemma {:induction false} OneStripped(text: Text)
    ensures StripAll([text]) == Strip(text)
  {
  }

  lemma {:induction false} LinesKeepUnits(text: Text)
    ensures StripAll(Lines(text)) == Strip(text)
    decreases |text|
  {
    hide LastIndexOf, Strip, StripAll;
    var k := LastIndexOf(text, NEWLINE);
    if k < 0 {
      OneStripped(text);
    } else {
      LinesKeepUnits(text[..k]);
      StripAllSnoc(Lines(text[..k]), text[k + 1..]);
      StripAtNewline(text, k);
    }
  }

  lemma {:induction false} LinesAreWellFormed(text: Text)
    requires WellFormed(text)
    ensures GoodLines(Lines(text))
    decreases |text|
  {
    hide LastIndexOf, WellFormed;
    var k := LastIndexOf(text, NEWLINE);
    if k >= 0 {
      AroundNewline(text, k);
      LinesAreWellFormed(text[..k]);
    }
  }

  lemma {:induction false} AroundNewline(text: Text, k: nat)
    requires WellFormed(text) && k < |text| && text[k] == NEWLINE
    ensures WellFormed(text[..k]) && WellFormed(text[k + 1..])
  {
    assert PairedAt(text, k);
    WellFormedParts(text, k + 1);
    if k > 0 { assert PairedAt(text, k - 1); }
    WellFormedParts(text, k);
  }

  // ---------------------------------------------------------------- chunks are sound

  // A heading and content within their bounds, no pair cut; code is one piece that repeats nothing.
  predicate GoodPart(p: Part, wellFormed: bool) {
    && 1 <= |p.heading| <= MAX_HEADING_CHARS && 1 <= |PartText(p.fragments)| <= HARD_CAP_CHARS
    && !IsBlank(PartText(p.fragments))
    && (wellFormed ==> WellFormed(p.heading) && WellFormed(PartText(p.fragments)))
    && (p.code ==> |p.fragments| == 1 && p.fragments[0].overlap == 0)
  }

  predicate GoodDraft(d: Draft, wellFormed: bool) {
    && (forall p <- d.done :: GoodPart(p, wellFormed))
    && (d.prose.Some? ==> !d.prose.value.code && GoodPart(d.prose.value, wellFormed))
  }

  predicate GoodLabel(heading: Text, wellFormed: bool) {
    1 <= |heading| <= MAX_HEADING_CHARS && (wellFormed ==> WellFormed(heading))
  }

  lemma {:induction false} OnePartText(f: Fragment)
    ensures PartText([f]) == f.text
  {
  }

  lemma {:induction false} GrownIsGood(p: Part, f: Fragment, wellFormed: bool)
    requires GoodPart(p, wellFormed) && !p.code && GoodFragment(f, wellFormed)
             && |PartText(p.fragments)| + 2 + |f.text| <= TARGET_CHARS
    ensures GoodPart(p.(fragments := p.fragments + [f]), wellFormed)
  {
    hide PartText, Strip, WellFormed;
    PartTextSnoc(p.fragments, f);
    var text := PartText(p.fragments);
    if p.fragments != [] {
      StripConcat(text + [NEWLINE, NEWLINE], f.text);
      if wellFormed {
        Literals();
        WellFormedConcat(text, [NEWLINE, NEWLINE]);
        WellFormedConcat(text + [NEWLINE, NEWLINE], f.text);
      }
    }
  }

  lemma {:induction false} PieceIsGood(d: Draft, heading: Text, f: Fragment, wellFormed: bool)
    requires GoodDraft(d, wellFormed) && GoodLabel(heading, wellFormed) && GoodFragment(f, wellFormed)
    ensures GoodDraft(AddPiece(d, heading, f), wellFormed)
  {
    hide PartText, Strip, WellFormed;
    OnePartText(f);
    if d.prose.Some? && |PartText(d.prose.value.fragments)| + 2 + |f.text| <= TARGET_CHARS {
      GrownIsGood(d.prose.value, f, wellFormed);
    }
  }

  lemma {:induction false} PiecesAreGood(d: Draft, heading: Text, fs: seq<Fragment>, wellFormed: bool)
    requires GoodDraft(d, wellFormed) && GoodLabel(heading, wellFormed) && forall f <- fs :: GoodFragment(f, wellFormed)
    ensures GoodDraft(AddPieces(d, heading, fs), wellFormed)
  {
    hide GoodFragment, GoodDraft, AddPiece, WellFormed;
    if |fs| > 0 {
      PiecesAreGood(d, heading, fs[..|fs| - 1], wellFormed);
      PieceIsGood(AddPieces(d, heading, fs[..|fs| - 1]), heading, fs[|fs| - 1], wellFormed);
    }
  }

  lemma {:induction false} CodeIsGoodToo(d: Draft, heading: Text, pieces: seq<Text>, wellFormed: bool)
    requires GoodDraft(d, wellFormed) && GoodLabel(heading, wellFormed)
             && forall piece <- pieces :: GoodPiece(piece, wellFormed)
    ensures GoodDraft(AddCode(d, heading, pieces), wellFormed)
  {
    hide PartText, Strip, WellFormed;
    if |pieces| > 0 {
      CodeIsGoodToo(d, heading, pieces[..|pieces| - 1], wellFormed);
      assert GoodPiece(pieces[|pieces| - 1], wellFormed);
      OnePartText(Fragment(pieces[|pieces| - 1], 0));
    }
  }

  lemma {:induction false} FlushIsGood(d: Draft, wellFormed: bool)
    requires GoodDraft(d, wellFormed)
    ensures GoodDraft(Settled(d), wellFormed)
  {
    hide GoodPart, PartText;
  }

  lemma {:induction false} AppendIsGood(d: Draft, heading: Text, content: Text, wellFormed: bool)
    requires GoodDraft(d, wellFormed) && GoodLabel(heading, wellFormed) && Tidy(content, wellFormed)
    ensures GoodDraft(WithProse(d, heading, content), wellFormed)
  {
    hide GoodDraft, GoodFragment, AddPieces, WellFormed, ProseFragments;
    if content != [] {
      ProseFragmentsAreGood(content, wellFormed);
      PiecesAreGood(d, heading, ProseFragments(content), wellFormed);
    }
  }

  lemma {:induction false} LabelIsGood(value: Text, wellFormed: bool)
    requires wellFormed ==> WellFormed(value)
    ensures GoodLabel(BoundHeading(value), wellFormed)
  {
    hide Trim, TruncateSafe, WellFormed;
    Literals();
    if wellFormed {
      WellFormedTrim(value);
      TruncateSafeIsSafe(Trim(value), MAX_HEADING_CHARS);
    }
  }

  lemma {:induction false} BlockProseIsTidy(b: Block, wellFormed: bool)
    requires GoodBlock(b, wellFormed)
    ensures Tidy(BlockProse(b), wellFormed)
  {
    hide Strip, WellFormed, BlockProse;
    BlockProseIsText(b);
    assert wellFormed ==> WellFormed(BlockProse(b)) by {
      if wellFormed { BlockProseIsWellFormed(b); }
    }
  }

  lemma {:induction false} BlockProseIsWellFormed(b: Block)
    requires WellFormed(b.headingRemainder) && WellFormed(b.content)
    ensures WellFormed(BlockProse(b))
  {
    hide WellFormed;
    Literals();
    WellFormedConcat(b.headingRemainder, [NEWLINE, NEWLINE]);
    WellFormedConcat(b.headingRemainder + [NEWLINE, NEWLINE], b.content);
  }

  lemma {:induction false} CodePiecesAreGood(content: Text, wellFormed: bool)
    requires !IsBlank(content) && (wellFormed ==> WellFormed(content))
    ensures forall piece <- CodePieces(content) :: GoodPiece(piece, wellFormed)
  {
    hide Strip, WellFormed, Code;
    if |content| > HARD_CAP_CHARS {
      CodeIsGood(content, wellFormed);
    } else {
      assert content != [] by { assert Strip([]) == [] by { EmptyMarks([]); } }
    }
  }

  lemma {:induction false} BlockIsGood(d: Draft, b: Block, wellFormed: bool)
    requires GoodDraft(d, wellFormed) && GoodBlock(b, wellFormed)
    ensures GoodDraft(AddBlock(d, b), wellFormed)
  {
    hide GoodDraft, WithProse, AddCode, Settled, BoundHeading, BlockProse, CodePieces, Strip, WellFormed;
    var heading := BoundHeading(b.heading);
    LabelIsGood(b.heading, wellFormed);
    if b.code {
      AppendIsGood(d, heading, b.headingRemainder, wellFormed);
      FlushIsGood(WithProse(d, heading, b.headingRemainder), wellFormed);
      CodePiecesAreGood(b.content, wellFormed);
      CodeIsGoodToo(Settled(WithProse(d, heading, b.headingRemainder)), heading, CodePieces(b.content), wellFormed);
    } else {
      BlockProseIsTidy(b, wellFormed);
      AppendIsGood(d, heading, BlockProse(b), wellFormed);
    }
  }

  lemma {:induction false} AddedBlocksAreGood(blocks: seq<Block>, wellFormed: bool)
    requires GoodBlocks(blocks, wellFormed)
    ensures GoodDraft(AddBlocks(blocks), wellFormed)
  {
    hide GoodDraft, AddBlock, GoodBlock;
    if |blocks| == 0 {
      EmptyDraftIsGood(wellFormed);
    } else {
      AddedBlocksAreGood(blocks[..|blocks| - 1], wellFormed);
      BlockIsGood(AddBlocks(blocks[..|blocks| - 1]), blocks[|blocks| - 1], wellFormed);
    }
  }

  lemma {:induction false} EmptyDraftIsGood(wellFormed: bool)
    ensures GoodDraft(Draft([], None), wellFormed)
  {
  }

  // ---------------------------------------------------------------- overlaps of a whole document

  function FragmentsOf(tags: seq<Tag>): seq<Fragment> {
    if |tags| == 0 then [] else FragmentsOf(tags[..|tags| - 1]) + [tags[|tags| - 1].fragment]
  }

  lemma {:induction false} FragmentsConcat(a: seq<Tag>, b: seq<Tag>)
    ensures FragmentsOf(a + b) == FragmentsOf(a) + FragmentsOf(b)
  {
    if |b| == 0 {
      assert a + b == a;
      assert FragmentsOf(a) + [] == FragmentsOf(a);
    } else {
      assert (a + b)[..|a + b| - 1] == a + b[..|b| - 1];
      FragmentsConcat(a, b[..|b| - 1]);
    }
  }

  lemma {:induction false} FragmentsOfTags(heading: Text, code: bool, fs: seq<Fragment>)
    ensures FragmentsOf(TagsOf(heading, code, fs)) == fs
  {
    if |fs| > 0 {
      FragmentsOfTags(heading, code, fs[..|fs| - 1]);
      FragmentsConcat(TagsOf(heading, code, fs[..|fs| - 1]), [Tag(heading, code, fs[|fs| - 1])]);
      OneFragment(Tag(heading, code, fs[|fs| - 1]));
    }
  }

  lemma {:induction false} OneFragment(tag: Tag)
    ensures FragmentsOf([tag]) == [tag.fragment]
  {
    assert [tag][..0] == [];
  }

  function Last(before: Fragment, fs: seq<Fragment>): Fragment { if fs == [] then before else fs[|fs| - 1] }

  lemma {:induction false} EchoConcat(before: Fragment, a: seq<Fragment>, b: seq<Fragment>)
    requires EchoChain(before, a) && EchoChain(Last(before, a), b)
    ensures EchoChain(before, a + b)
    decreases |a|
  {
    hide Echoes;
    if |a| == 0 {
      assert a + b == b;
    } else {
      EchoConcat(a[0], a[1..], b);
      assert (a + b)[1..] == a[1..] + b;
    }
  }

  lemma {:induction false} CodeEchoes(before: Fragment, pieces: seq<Text>)
    ensures EchoChain(before, CodeFragments(pieces))
    decreases |pieces|
  {
    if |pieces| > 0 {
      var fs, f := CodeFragments(pieces[..|pieces| - 1]), Fragment(pieces[|pieces| - 1], 0);
      CodeEchoes(before, pieces[..|pieces| - 1]);
      FreshPieceEchoes(Last(before, fs), f);
      EchoConcat(before, fs, [f]);
    }
  }

  lemma {:induction false} FreshPieceEchoes(before: Fragment, f: Fragment)
    requires f.overlap == 0
    ensures EchoChain(before, [f])
  {
  }

  lemma {:induction false} ProseTagsEcho(before: Fragment, heading: Text, content: Text)
    ensures EchoChain(before,
                      FragmentsOf(TagsOf(heading, false, if content == [] then [] else ProseFragments(content))))
  {
    hide ProseFragments, TagsOf, FragmentsOf, Echoes;
    if content != [] { ProseFragmentsAreSound(content, before); }
    FragmentsOfTags(heading, false, if content == [] then [] else ProseFragments(content));
  }

  lemma {:induction false} BlockEchoes(before: Fragment, b: Block)
    ensures EchoChain(before, FragmentsOf(BlockTags(b)))
  {
    hide EchoChain, FragmentsOf, TagsOf, ProseFragments, CodePieces, CodeFragments, BlockProse, BoundHeading;
    var heading := BoundHeading(b.heading);
    if b.code {
      var prose := TagsOf(heading, false, if b.headingRemainder == [] then [] else ProseFragments(b.headingRemainder));
      var code := TagsOf(heading, true, CodeFragments(CodePieces(b.content)));
      ProseTagsEcho(before, heading, b.headingRemainder);
      FragmentsOfTags(heading, true, CodeFragments(CodePieces(b.content)));
      CodeEchoes(Last(before, FragmentsOf(prose)), CodePieces(b.content));
      FragmentsConcat(prose, code);
      EchoConcat(before, FragmentsOf(prose), FragmentsOf(code));
    } else {
      ProseTagsEcho(before, heading, BlockProse(b));
    }
  }

  lemma {:induction false} BlocksEcho(blocks: seq<Block>)
    ensures EchoChain(NOTHING, FragmentsOf(BlocksTags(blocks)))
    decreases |blocks|
  {
    hide FragmentsOf, BlockTags, Echoes;
    if |blocks| == 0 {
      NoFragments();
    } else {
      var before := BlocksTags(blocks[..|blocks| - 1]);
      BlocksEcho(blocks[..|blocks| - 1]);
      BlockEchoes(Last(NOTHING, FragmentsOf(before)), blocks[|blocks| - 1]);
      FragmentsConcat(before, BlockTags(blocks[|blocks| - 1]));
      EchoConcat(NOTHING, FragmentsOf(before), FragmentsOf(BlockTags(blocks[|blocks| - 1])));
    }
  }

  lemma {:induction false} NoFragments()
    ensures FragmentsOf([]) == []
  {
  }
}
