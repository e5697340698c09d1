/**
 The STT server's parser of an `/inference` request.

 The parser takes the first `--boundary` it sees and then, part by part, the first
 blank line and the first `CRLF--boundary`. What it accepts is characterised here
 as a layout of the body. A string is the bytes of its UTF-8 encoding.
 */
module Multipart {
  import opened Common
  import opened Bytes
  import opened FieldNames

  const DASHES: Bytes := [45, 45]
  const CRLF: Bytes := [13, 10]
  const BLANK: Bytes := [13, 10, 13, 10]

  function Delimiter(boundary: Bytes): Bytes {
    DASHES + boundary
  }

  /** What ends a part's data. */
  function Closing(boundary: Bytes): Bytes {
    CRLF + Delimiter(boundary)
  }

  datatype Part = Part(name: Bytes, data: Bytes)

  datatype Form = Form(wav: Bytes, language: Option<Bytes>)

  datatype ParseError = NoBoundary | BadDelimiterLine | NoBlankLine | Unterminated | NoFile

  // ------------------------------------------------------------------
  // The layout of a body
  // ------------------------------------------------------------------

  /** Headers and data of one part, as they stand between two delimiters. */
  datatype Block = Block(headers: Bytes, data: Bytes)

  function RenderBlock(b: Block, boundary: Bytes): Bytes {
    CRLF + b.headers + BLANK + b.data + Closing(boundary)
  }

  function Render(blocks: seq<Block>, boundary: Bytes): Bytes {
    if blocks == [] then [] else RenderBlock(blocks[0], boundary) + Render(blocks[1..], boundary)
  }

  /** The part a block makes, if it has a name. */
  function PartOf(b: Block): seq<Part> {
    var name := FieldName(b.headers);
    if name.Some? then [Part(name.value, b.data)] else []
  }

  function Named(blocks: seq<Block>): seq<Part> {
    if blocks == [] then [] else Named(blocks[..|blocks| - 1]) + PartOf(blocks[|blocks| - 1])
  }

  lemma NamedAppend(blocks: seq<Block>, b: Block)
    ensures Named(blocks + [b]) == Named(blocks) + PartOf(b)
  {
    assert (blocks + [b])[..|blocks|] == blocks;
  }

  lemma PartOfBlock(b: Block, p: Part)
    ensures p in PartOf(b) <==> FieldName(b.headers) == Some(p.name) && b.data == p.data
  {
  }

  ghost predicate Given(blocks: seq<Block>, p: Part) {
    exists i :: 0 <= i < |blocks| && p in PartOf(blocks[i])
  }

  lemma GivenOneMore(blocks: seq<Block>, b: Block, p: Part)
    ensures Given(blocks + [b], p) <==> Given(blocks, p) || p in PartOf(b)
  {
    var longer, parts := blocks + [b], PartOf(b);
    assert forall i :: 0 <= i < |blocks| ==> longer[i] == blocks[i];
    assert longer[|blocks|] == b;
  }

  lemma InEither<T>(a: seq<T>, b: seq<T>, x: T)
    ensures x in a + b <==> x in a || x in b
  {
  }

  /** A part for every block that has a name, with its data (`PartOfBlock`), and for no other. */
  lemma {:induction false} NamedAre(blocks: seq<Block>, p: Part)
    ensures p in Named(blocks) <==> Given(blocks, p)
  {
    if blocks == [] {
    } else {
      var front, last := blocks[..|blocks| - 1], blocks[|blocks| - 1];
      NamedAre(front, p);
      NamedAppend(front, last);
      InEither(Named(front), PartOf(last), p);
      GivenOneMore(front, last, p);
      assert blocks == front + [last];
    }
  }

  /** Headers run up to the first blank line, data up to the first delimiter line. */
  ghost predicate CleanBlock(b: Block, boundary: Bytes) {
    EndsAt(b.headers, BLANK) && EndsAt(b.data, Closing(boundary))
  }

  ghost predicate Clean(blocks: seq<Block>, boundary: Bytes) {
    forall b :: b in blocks ==> CleanBlock(b, boundary)
  }

  // ------------------------------------------------------------------
  // The parser
  // ------------------------------------------------------------------

  /** What stands right after a delimiter: the end, one block and the rest, or neither. */
  datatype Cut = Done | Bad(error: ParseError) | Piece(block: Block, more: Bytes)

  function CutBlock(rest: Bytes, boundary: Bytes): (c: Cut)
    ensures c.Piece? ==> |c.more| < |rest|
  {
    if StartsWith(rest, DASHES) then Done
    else if !StartsWith(rest, CRLF) then Bad(BadDelimiterLine)
    else
      var line := rest[2..];
      var headers := Find(line, BLANK);
      if headers.None? then Bad(NoBlankLine)
      else
        var after := line[headers.value + 4..];
        var data := Find(after, Closing(boundary));
        if data.None? then Bad(Unterminated)
        else Piece(Block(line[..headers.value], after[..data.value]), after[data.value + |Closing(boundary)|..])
  }

  /** The blocks after a delimiter. */
  function ParseBlocks(rest: Bytes, boundary: Bytes): Result<seq<Block>, ParseError>
    decreases |rest|
  {
    match CutBlock(rest, boundary)
    case Done => Ok([])
    case Bad(e) => Err(e)
    case Piece(b, more) => Prepend([b], ParseBlocks(more, boundary))
  }

  /** One more block found: nothing changes in what the whole body parses to. */
  lemma OneMore(done: seq<Block>, rest: Bytes, boundary: Bytes, b: Block, more: Bytes)
    requires CutBlock(rest, boundary) == Piece(b, more)
    ensures Prepend(done, ParseBlocks(rest, boundary)) == Prepend(done + [b], ParseBlocks(more, boundary))
  {
    PrependTwice(done, [b], ParseBlocks(more, boundary));
  }

  lemma NoMore(done: seq<Block>, rest: Bytes, boundary: Bytes)
    requires !CutBlock(rest, boundary).Piece?
    ensures Prepend(done, ParseBlocks(rest, boundary))
         == if CutBlock(rest, boundary).Done? then Ok(done) else Err(CutBlock(rest, boundary).error)
  {
    assert done + [] == done;
  }

  function Prepend(blocks: seq<Block>, r: Result<seq<Block>, ParseError>): Result<seq<Block>, ParseError> {
    if r.Ok? then Ok(blocks + r.value) else r
  }

  lemma PrependTwice(a: seq<Block>, b: seq<Block>, r: Result<seq<Block>, ParseError>)
    ensures Prepend(a, Prepend(b, r)) == Prepend(a + b, r)
    ensures Prepend([], r) == r
  {
    if r.Ok? {
      assert a + (b + r.value) == a + b + r.value;
      assert [] + r.value == r.value;
    }
  }

  /** What follows the first delimiter. */
  function AfterFirst(body: Bytes, boundary: Bytes): Option<Bytes> {
    var start := Find(body, Delimiter(boundary));
    if start.None? then None else Some(body[start.value + |Delimiter(boundary)|..])
  }

  function AllBlocks(body: Bytes, boundary: Bytes): Result<seq<Block>, ParseError> {
    var rest := AfterFirst(body, boundary);
    if rest.None? then Err(NoBoundary) else ParseBlocks(rest.value, boundary)
  }

  function AllNamed(r: Result<seq<Block>, ParseError>): Result<seq<Part>, ParseError> {
    if r.Ok? then Ok(Named(r.value)) else Err(r.error)
  }

  function ParseBody(body: Bytes, boundary: Bytes): Result<seq<Part>, ParseError> {
    AllNamed(AllBlocks(body, boundary))
  }

  /** The loop of `parse`: the input that remains shrinks with every part. */
  method PartsAfter(start: Bytes, boundary: Bytes) returns (r: Result<seq<Part>, ParseError>)
    ensures r == AllNamed(ParseBlocks(start, boundary))
  {
    var parts, rest := [], start;
    ghost var blocks := [];
    ghost var all := ParseBlocks(start, boundary);
    PrependTwice([], [], all);
    while true
      invariant all == Prepend(blocks, ParseBlocks(rest, boundary))
      invariant parts == Named(blocks)
      decreases |rest|
    {
      match CutBlock(rest, boundary) {
        case Done =>
          NoMore(blocks, rest, boundary);
          return Ok(parts);
        case Bad(e) =>
          NoMore(blocks, rest, boundary);
          return Err(e);
        case Piece(block, more) =>
          OneMore(blocks, rest, boundary, block, more);
          NamedAppend(blocks, block);
          parts := parts + PartOf(block);
          blocks := blocks + [block];
          rest := more;
      }
    }
  }

  /** `parse`. */
  method Parse(body: Bytes, boundary: Bytes) returns (r: Result<seq<Part>, ParseError>)
    ensures r == ParseBody(body, boundary)
  {
    var rest := AfterFirst(body, boundary);
    if rest.None? {
      return Err(NoBoundary);
    }
    r := PartsAfter(rest.value, boundary);
  }

  lemma ABlock(rest: Bytes, boundary: Bytes, h: nat, d: nat)
    requires !StartsWith(rest, DASHES) && StartsWith(rest, CRLF)
    requires Find(rest[2..], BLANK) == Some(h)
    requires Find(rest[2..][h + 4..], Closing(boundary)) == Some(d)
    ensures var after := rest[2..][h + 4..];
            CutBlock(rest, boundary) == Piece(Block(rest[2..][..h], after[..d]), after[d + |Closing(boundary)|..])
  {
  }

  // ------------------------------------------------------------------
  // What the parser accepts
  // ------------------------------------------------------------------

  lemma FirstPieces(headers: Bytes, data: Bytes, closing: Bytes, more: Bytes)
    requires |closing| > 0 && EndsAt(headers, BLANK) && EndsAt(data, closing)
    ensures var line := headers + BLANK + (data + closing + more);
            && Find(line, BLANK) == Some(|headers|) && line[..|headers|] == headers
            && line[|headers| + 4..] == data + closing + more
            && Find(data + closing + more, closing) == Some(|data|)
            && (data + closing + more)[..|data|] == data
            && (data + closing + more)[|data| + |closing|..] == more
  {
    FindsEnd(headers, BLANK, data + closing + more);
    FindsEnd(data, closing, more);
  }

  /** One block in front of anything: the parser takes exactly that block. */
  lemma CutsBlock(b: Block, boundary: Bytes, more: Bytes)
    requires CleanBlock(b, boundary)
    ensures CutBlock(RenderBlock(b, boundary) + more, boundary) == Piece(b, more)
  {
    var rest := RenderBlock(b, boundary) + more;
    FirstPieces(b.headers, b.data, Closing(boundary), more);
    Glue(CRLF, b.headers, BLANK, b.data, Closing(boundary), more);
    var line := b.headers + BLANK + (b.data + Closing(boundary) + more);
    assert rest == CRLF + line;
    assert rest[2..] == line && rest[..2] == CRLF;
    assert rest[0] == 13;
    ABlock(rest, boundary, |b.headers|, |b.data|);
  }

  lemma Glue(x: Bytes, h: Bytes, y: Bytes, d: Bytes, c: Bytes, more: Bytes)
    ensures x + h + y + d + c + more == x + (h + y + (d + c + more))
  {
  }

  /** Data that contains the delimiter line ends at the first one. */
  lemma DataEndsEarly(data: Bytes, closing: Bytes, more: Bytes) returns (d: nat, rest: Bytes)
    requires |closing| > 0 && !EndsAt(data, closing)
    ensures d < |data| && EndsAt(data[..d], closing)
    ensures OccursAt(data + closing, closing, d) && forall i :: 0 <= i < d ==> !OccursAt(data + closing, closing, i)
    ensures data + closing + more == data[..d] + closing + rest
  {
    var after := data + closing + more;
    var i :| 0 <= i < |data| && OccursAt(data + closing, closing, i);
    OccursInPrefix(data + closing, more, closing, i);
    FindIsFirst(after, closing);
    d := Find(after, closing).value;
    rest := after[d + |closing|..];
    FoundIsEnd(after, closing, d);
    assert after[..d] == data[..d];
    forall i | 0 <= i <= d ensures OccursAt(data + closing, closing, i) <==> OccursAt(after, closing, i) {
      OccursInPrefix(data + closing, more, closing, i);
    }
  }

  /** A block whose data contains the delimiter line is cut short, at the first one. */
  lemma CutsShort(b: Block, boundary: Bytes, more: Bytes) returns (d: nat, rest: Bytes)
    requires EndsAt(b.headers, BLANK) && !EndsAt(b.data, Closing(boundary))
    ensures d < |b.data| && OccursAt(b.data + Closing(boundary), Closing(boundary), d)
    ensures forall i :: 0 <= i < d ==> !OccursAt(b.data + Closing(boundary), Closing(boundary), i)
    ensures CutBlock(RenderBlock(b, boundary) + more, boundary) == Piece(Block(b.headers, b.data[..d]), rest)
  {
    var closing := Closing(boundary);
    d, rest := DataEndsEarly(b.data, closing, more);
    var short := Block(b.headers, b.data[..d]);
    Glue(CRLF, b.headers, BLANK, b.data, closing, more);
    Glue(CRLF, b.headers, BLANK, short.data, closing, rest);
    CutsBlock(short, boundary, rest);
  }

  /** Clean blocks in front are taken one by one. */
  lemma {:induction false} ParsesFront(front: seq<Block>, boundary: Bytes, tail: Bytes)
    requires Clean(front, boundary)
    ensures ParseBlocks(Render(front, boundary) + tail, boundary) == Prepend(front, ParseBlocks(tail, boundary))
    decreases |front|
  {
    if front == [] {
      assert Render(front, boundary) + tail == tail;
      PrependTwice([], [], ParseBlocks(tail, boundary));
    } else {
      ParsesFront(front[1..], boundary, tail);
      assert front[0] in front;
      CutsBlock(front[0], boundary, Render(front[1..], boundary) + tail);
      assert [front[0]] + front[1..] == front;
      RenderCons(front[0], front[1..], boundary, tail);
      PrependTwice([front[0]], front[1..], ParseBlocks(tail, boundary));
    }
  }

  /** A body laid out in clean blocks is parsed into those blocks. */
  lemma ParsesLayout(blocks: seq<Block>, boundary: Bytes, epilogue: Bytes)
    requires Clean(blocks, boundary)
    ensures ParseBlocks(Render(blocks, boundary) + (DASHES + epilogue), boundary) == Ok(blocks)
  {
    var tail := DASHES + epilogue;
    ParsesFront(blocks, boundary, tail);
    assert tail[..2] == DASHES;
    assert blocks + [] == blocks;
  }

  /** Conversely, a block taken is clean and stands in front of what remains. */
  lemma CutIsRendered(rest: Bytes, boundary: Bytes)
    requires CutBlock(rest, boundary).Piece?
    ensures var Piece(b, more) := CutBlock(rest, boundary);
            CleanBlock(b, boundary) && rest == RenderBlock(b, boundary) + more
  {
    var line := rest[2..];
    var h := Find(line, BLANK).value;
    FoundIsEnd(line, BLANK, h);
    var after, closing := line[h + 4..], Closing(boundary);
    var d := Find(after, closing).value;
    FoundIsEnd(after, closing, d);
    assert rest == rest[..2] + line;
    ABlock(rest, boundary, h, d);
    Glue(CRLF, line[..h], BLANK, after[..d], closing, after[d + |closing|..]);
  }

  lemma FoundIsEnd(line: Bytes, needle: Bytes, at: nat)
    requires |needle| > 0 && Find(line, needle) == Some(at)
    ensures EndsAt(line[..at], needle) && line == line[..at] + needle + line[at + |needle|..]
  {
    FindIsFirst(line, needle);
    assert line[at..at + |needle|] == needle;
    assert line == line[..at] + needle + line[at + |needle|..];
    FindsEnd(line[..at], needle, line[at + |needle|..]);
  }

  /** Where the parser succeeds, the rest is laid out in the blocks it found. */
  lemma {:induction false} ParsedIsLaidOut(rest: Bytes, boundary: Bytes) returns (epilogue: Bytes)
    requires ParseBlocks(rest, boundary).Ok?
    ensures var blocks := ParseBlocks(rest, boundary).value;
            Clean(blocks, boundary) && rest == Render(blocks, boundary) + (DASHES + epilogue)
    decreases |rest|
  {
    if CutBlock(rest, boundary).Done? {
      epilogue := rest[2..];
    } else {
      var Piece(b, more) := CutBlock(rest, boundary);
      CutIsRendered(rest, boundary);
      epilogue := ParsedIsLaidOut(more, boundary);
      RenderCons(b, ParseBlocks(more, boundary).value, boundary, DASHES + epilogue);
    }
  }

  lemma RenderCons(b: Block, blocks: seq<Block>, boundary: Bytes, tail: Bytes)
    ensures Render([b] + blocks, boundary) + tail == RenderBlock(b, boundary) + (Render(blocks, boundary) + tail)
  {
    assert ([b] + blocks)[1..] == blocks;
  }

  /** `parse` succeeds exactly on bodies made of a preamble, the first delimiter, blocks whose
      headers and data contain no earlier end, and `--`; and it returns their named parts in order. */
  lemma ParseIffLaidOut(body: Bytes, boundary: Bytes, parts: seq<Part>)
    ensures ParseBody(body, boundary) == Ok(parts)
       <==> exists preamble, blocks, epilogue ::
              && EndsAt(preamble, Delimiter(boundary)) && Clean(blocks, boundary) && parts == Named(blocks)
              && body == Layout(preamble, blocks, boundary, epilogue)
  {
    if ParseBody(body, boundary) == Ok(parts) {
      var preamble, blocks, epilogue := BodyIsLaidOut(body, boundary);
    }
    if preamble, blocks, epilogue :|
        && EndsAt(preamble, Delimiter(boundary)) && Clean(blocks, boundary) && parts == Named(blocks)
        && body == Layout(preamble, blocks, boundary, epilogue)
    {
      ParsesBody(preamble, blocks, boundary, epilogue);
    }
  }

  lemma BodyIsLaidOut(body: Bytes, boundary: Bytes) returns (preamble: Bytes, blocks: seq<Block>, epilogue: Bytes)
    requires AllBlocks(body, boundary).Ok?
    ensures EndsAt(preamble, Delimiter(boundary)) && Clean(blocks, boundary)
    ensures blocks == AllBlocks(body, boundary).value && body == Layout(preamble, blocks, boundary, epilogue)
  {
    var i := Find(body, Delimiter(boundary)).value;
    ghost var delim, rest := Delimiter(boundary), body[i + |Delimiter(boundary)|..];
    FoundIsEnd(body, delim, i);
    assert body == body[..i] + delim + rest;
    preamble, blocks := body[..i], AllBlocks(body, boundary).value;
    epilogue := ParsedIsLaidOut(rest, boundary);
  }

  function Layout(preamble: Bytes, blocks: seq<Block>, boundary: Bytes, epilogue: Bytes): Bytes {
    preamble + Delimiter(boundary) + (Render(blocks, boundary) + (DASHES + epilogue))
  }

  lemma ParsesBody(preamble: Bytes, blocks: seq<Block>, boundary: Bytes, epilogue: Bytes)
    requires EndsAt(preamble, Delimiter(boundary)) && Clean(blocks, boundary)
    ensures AllBlocks(Layout(preamble, blocks, boundary, epilogue), boundary) == Ok(blocks)
  {
    var delim := Delimiter(boundary);
    var rest := Render(blocks, boundary) + (DASHES + epilogue);
    FindsEnd(preamble, delim, rest);
    assert (preamble + delim + rest)[|preamble| + |delim|..] == rest;
    ParsesLayout(blocks, boundary, epilogue);
  }
}
