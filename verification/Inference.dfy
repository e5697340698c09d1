/** The daemon's request, and that the server reads back what the daemon put in. */
module Inference {
  import opened Common
  import opened Bytes
  import opened FieldNames
  import opened Multipart

  datatype Request = Request(language: Bytes, prompt: Option<Bytes>)

  function ResponseFormat(): Bytes { Ascii("response_format") }
  function Language(): Bytes { Ascii("language") }
  function Temperature(): Bytes { Ascii("temperature") }
  function Prompt(): Bytes { Ascii("prompt") }
  function File(): Bytes { Ascii("file") }

  function FileName(): Bytes { Ascii("; filename=\"clip.wav\"") }
  function WavType(): Bytes { Ascii("Content-Type: audio/wav") }

  function TextBlock(name: Bytes, value: Bytes): Block {
    Block(NameLine(name), value)
  }

  function FileBlock(wav: Bytes): Block {
    Block(NameLine(File()) + FileName() + (CRLF + WavType()), wav)
  }

  function TextBlocks(request: Request): seq<Block> {
    [TextBlock(ResponseFormat(), Ascii("verbose_json")), TextBlock(Language(), request.language),
     TextBlock(Temperature(), Ascii("0.0"))]
    + if request.prompt.Some? then [TextBlock(Prompt(), request.prompt.value)] else []
  }

  // ------------------------------------------------------------------
  // The encoder
  // ------------------------------------------------------------------

  lemma {:induction false} RenderAppend(blocks: seq<Block>, b: Block, boundary: Bytes)
    ensures Render(blocks + [b], boundary) == Render(blocks, boundary) + RenderBlock(b, boundary)
    decreases |blocks|
  {
    if blocks != [] {
      RenderAppend(blocks[1..], b, boundary);
      assert (blocks + [b])[1..] == blocks[1..] + [b];
    } else {
      assert Render([b][1..], boundary) == [];
    }
  }

  /** The body so far, up to but not including the next delimiter. */
  ghost predicate Holds(body: Bytes, blocks: seq<Block>, boundary: Bytes) {
    body + Delimiter(boundary) == Delimiter(boundary) + Render(blocks, boundary)
  }

  /** Delimiter line, headers, blank line, data, line end. */
  method Append(body: Bytes, ghost blocks: seq<Block>, b: Block, boundary: Bytes) returns (longer: Bytes)
    requires Holds(body, blocks, boundary)
    ensures Holds(longer, blocks + [b], boundary)
  {
    longer := body + Delimiter(boundary) + CRLF;
    longer := longer + b.headers + BLANK;
    longer := longer + b.data + CRLF;
    RenderAppend(blocks, b, boundary);
    Assemble(body, Delimiter(boundary), CRLF, b.headers, BLANK, b.data, CRLF);
    assert longer + Delimiter(boundary) == body + Delimiter(boundary) + RenderBlock(b, boundary);
    assert Delimiter(boundary) + Render(blocks, boundary) + RenderBlock(b, boundary)
        == Delimiter(boundary) + (Render(blocks, boundary) + RenderBlock(b, boundary));
  }

  lemma Assemble(body: Bytes, delim: Bytes, x: Bytes, h: Bytes, y: Bytes, d: Bytes, z: Bytes)
    ensures body + delim + x + h + y + d + z + delim == body + delim + (x + h + y + d + (z + delim))
  {
  }

  /** `build_multipart`: text fields, then the file, then the closing delimiter. */
  method BuildMultipart(boundary: Bytes, request: Request, wav: Bytes) returns (body: Bytes)
    ensures body == Encoded(boundary, request, wav) == Wire(boundary, request, wav)
  {
    PrintedBytes(boundary, request, wav);
    var format := TextBlock(ResponseFormat(), Ascii("verbose_json"));
    var language := TextBlock(Language(), request.language);
    var temperature := TextBlock(Temperature(), Ascii("0.0"));
    var file := FileBlock(wav);
    body := [];
    assert Delimiter(boundary) + [] == [] + Delimiter(boundary);
    ghost var blocks := [];
    body := Append(body, blocks, format, boundary);
    blocks := blocks + [format];
    body := Append(body, blocks, language, boundary);
    blocks := blocks + [language];
    body := Append(body, blocks, temperature, boundary);
    blocks := blocks + [temperature];
    if request.prompt.Some? {
      var prompt := TextBlock(Prompt(), request.prompt.value);
      body := Append(body, blocks, prompt, boundary);
      blocks := blocks + [prompt];
    }
    body := Append(body, blocks, file, boundary);
    Finish(body, blocks + [file], boundary);
    assert TextBlocks(request) + [file] == blocks + [file];
    body := body + Delimiter(boundary) + DASHES + CRLF;
  }

  lemma Finish(body: Bytes, blocks: seq<Block>, boundary: Bytes)
    requires Holds(body, blocks, boundary)
    ensures body + Delimiter(boundary) + DASHES + CRLF == Layout([], blocks, boundary, CRLF)
  {
    var d, r := Delimiter(boundary), Render(blocks, boundary);
    assert [] + d == d;
    assert d + r + DASHES + CRLF == d + (r + (DASHES + CRLF));
  }

  /** The layout the server is meant to see: nothing before the first delimiter, a line end after the last. */
  function Encoded(boundary: Bytes, request: Request, wav: Bytes): Bytes {
    Layout([], TextBlocks(request) + [FileBlock(wav)], boundary, CRLF)
  }

  /** One text field of the request, byte for byte. */
  function FieldBytes(boundary: Bytes, name: string, value: Bytes): Bytes {
    Ascii("--") + boundary + Ascii("\r\n")
    + Ascii("Content-Disposition: form-data; name=\"" + name + "\"") + Ascii("\r\n\r\n")
    + value + Ascii("\r\n")
  }

  function FileBytes(boundary: Bytes, wav: Bytes): Bytes {
    Ascii("--") + boundary + Ascii("\r\n")
    + Ascii("Content-Disposition: form-data; name=\"file\"; filename=\"clip.wav\"") + Ascii("\r\n")
    + Ascii("Content-Type: audio/wav") + Ascii("\r\n\r\n")
    + wav + Ascii("\r\n")
  }

  lemma MarksAre()
    ensures DASHES == Ascii("--") && CRLF == Ascii("\r\n") && BLANK == Ascii("\r\n\r\n")
    ensures DASHES + CRLF == Ascii("--\r\n") && CRLF + DASHES == Ascii("\r\n--")
  {
  }

  const FRONT := "Content-Disposition: form-data; name=\""

  lemma NameLineFront()
    ensures Disposition() + FormData() + [SEMICOLON] + NameKey() == Ascii(FRONT)
  {
    AsciiJoins("Content-Disposition:", " form-data");
    AsciiJoins("Content-Disposition:" + " form-data", ";");
    AsciiJoins("Content-Disposition:" + " form-data" + ";", " name=\"");
    assert "Content-Disposition:" + " form-data" + ";" + " name=\"" == FRONT;
    assert Ascii(";") == [SEMICOLON];
  }

  lemma NameLineIs(name: string)
    ensures NameLine(Ascii(name)) == Ascii(FRONT + name + "\"")
  {
    NameLineFront();
    AsciiJoins(FRONT, name);
    AsciiJoins(FRONT + name, "\"");
    assert Ascii("\"") == [QUOTE];
  }

  /** A block with the delimiter line in front of it. */
  function Chunk(b: Block, boundary: Bytes): Bytes {
    Delimiter(boundary) + CRLF + b.headers + BLANK + b.data + CRLF
  }

  lemma InFront(body: Bytes, delim: Bytes, x: Bytes, h: Bytes, y: Bytes, d: Bytes, z: Bytes)
    ensures body + (delim + x + h + y + d + z) + delim == body + delim + x + h + y + d + z + delim
  {
  }

  lemma HoldsOneMore(body: Bytes, blocks: seq<Block>, b: Block, boundary: Bytes)
    requires Holds(body, blocks, boundary)
    ensures Holds(body + Chunk(b, boundary), blocks + [b], boundary)
  {
    var d := Delimiter(boundary);
    RenderAppend(blocks, b, boundary);
    InFront(body, d, CRLF, b.headers, BLANK, b.data, CRLF);
    Assemble(body, d, CRLF, b.headers, BLANK, b.data, CRLF);
    Associate(d, Render(blocks, boundary), RenderBlock(b, boundary));
  }

  lemma TextChunkIs(boundary: Bytes, name: string, value: Bytes)
    ensures Chunk(TextBlock(Ascii(name), value), boundary) == FieldBytes(boundary, name, value)
  {
    MarksAre();
    NameLineIs(name);
  }

  lemma FileChunkIs(boundary: Bytes, wav: Bytes)
    ensures Chunk(FileBlock(wav), boundary) == FileBytes(boundary, wav)
  {
    MarksAre();
    NameLineIs("file");
    AsciiJoins(FRONT + "file" + "\"", "; filename=\"clip.wav\"");
    assert FRONT + "file" + "\"" + "; filename=\"clip.wav\"" == "Content-Disposition: form-data; name=\"file\"; filename=\"clip.wav\"";
  }

  /** The closing delimiter line. */
  function LastBytes(boundary: Bytes): Bytes {
    Ascii("--") + boundary + Ascii("--\r\n")
  }

  /** The request on the wire, byte for byte. */
  function Wire(boundary: Bytes, request: Request, wav: Bytes): Bytes {
    FieldBytes(boundary, "response_format", Ascii("verbose_json"))
    + FieldBytes(boundary, "language", request.language)
    + FieldBytes(boundary, "temperature", Ascii("0.0"))
    + (if request.prompt.Some? then FieldBytes(boundary, "prompt", request.prompt.value) else [])
    + FileBytes(boundary, wav)
    + LastBytes(boundary)
  }

  lemma PrintedBytes(boundary: Bytes, request: Request, wav: Bytes)
    ensures Encoded(boundary, request, wav) == Wire(boundary, request, wav)
  {
    var blocks, body := HeldFields(boundary, request);
    HoldsOneMore(body, blocks, FileBlock(wav), boundary);
    FileChunkIs(boundary, wav);
    EndsBody(body + FileBytes(boundary, wav), blocks + [FileBlock(wav)], boundary);
  }

  lemma EndsBody(body: Bytes, blocks: seq<Block>, boundary: Bytes)
    requires Holds(body, blocks, boundary)
    ensures body + LastBytes(boundary) == Layout([], blocks, boundary, CRLF)
  {
    Finish(body, blocks, boundary);
    MarksAre();
    LastLine(body, boundary, DASHES, CRLF);
  }

  lemma LastLine(body: Bytes, boundary: Bytes, dashes: Bytes, crlf: Bytes)
    ensures body + (dashes + boundary) + dashes + crlf == body + (dashes + boundary + (dashes + crlf))
  {
  }

  lemma HoldThree(boundary: Bytes, language: Bytes) returns (blocks: seq<Block>, body: Bytes)
    ensures Holds(body, blocks, boundary)
    ensures blocks == [TextBlock(Ascii("response_format"), Ascii("verbose_json")), TextBlock(Ascii("language"), language),
                       TextBlock(Ascii("temperature"), Ascii("0.0"))]
    ensures body == FieldBytes(boundary, "response_format", Ascii("verbose_json"))
                    + FieldBytes(boundary, "language", language)
                    + FieldBytes(boundary, "temperature", Ascii("0.0"))
  {
    var first := FieldBytes(boundary, "response_format", Ascii("verbose_json"));
    assert Delimiter(boundary) + [] == [] + Delimiter(boundary);
    blocks, body := HoldField(boundary, "response_format", Ascii("verbose_json"), [], []);
    assert body == first;
    blocks, body := HoldField(boundary, "language", language, blocks, body);
    blocks, body := HoldField(boundary, "temperature", Ascii("0.0"), blocks, body);
  }

  /** The text fields as they are printed hold the text blocks. */
  lemma HeldFields(boundary: Bytes, request: Request) returns (blocks: seq<Block>, body: Bytes)
    ensures blocks == TextBlocks(request) && Holds(body, blocks, boundary)
    ensures body == FieldBytes(boundary, "response_format", Ascii("verbose_json"))
                    + FieldBytes(boundary, "language", request.language)
                    + FieldBytes(boundary, "temperature", Ascii("0.0"))
                    + (if request.prompt.Some? then FieldBytes(boundary, "prompt", request.prompt.value) else [])
  {
    blocks, body := HoldThree(boundary, request.language);
    if request.prompt.Some? {
      blocks, body := HoldField(boundary, "prompt", request.prompt.value, blocks, body);
    } else {
      assert body + [] == body;
    }
  }

  lemma HoldField(boundary: Bytes, name: string, value: Bytes, blocks: seq<Block>, body: Bytes)
    returns (more: seq<Block>, longer: Bytes)
    requires Holds(body, blocks, boundary)
    ensures more == blocks + [TextBlock(Ascii(name), value)] && longer == body + FieldBytes(boundary, name, value)
    ensures Holds(longer, more, boundary)
  {
    more, longer := blocks + [TextBlock(Ascii(name), value)], body + FieldBytes(boundary, name, value);
    HoldsOneMore(body, blocks, TextBlock(Ascii(name), value), boundary);
    TextChunkIs(boundary, name, value);
  }

  // ------------------------------------------------------------------
  // The form
  // ------------------------------------------------------------------

  function FirstData(parts: seq<Part>, name: Bytes): Option<Bytes> {
    if parts == [] then None
    else
      var earlier := FirstData(parts[..|parts| - 1], name);
      if earlier.Some? then earlier
      else if parts[|parts| - 1].name == name then Some(parts[|parts| - 1].data)
      else None
  }

  function FormOf(r: Result<seq<Part>, ParseError>): Result<Form, ParseError> {
    if r.Err? then Err(r.error)
    else
      var wav := FirstData(r.value, File());
      if wav.None? then Err(NoFile) else Ok(Form(wav.value, FirstData(r.value, Language())))
  }

  /** The data of the first part of that name, if there is one. */
  ghost predicate IsFirst(parts: seq<Part>, name: Bytes, data: Option<Bytes>) {
    match data
    case None => forall i :: 0 <= i < |parts| ==> parts[i].name != name
    case Some(d) => exists i :: 0 <= i < |parts| && parts[i] == Part(name, d) && forall j :: 0 <= j < i ==> parts[j].name != name
  }

  lemma FirstOneMore(front: seq<Part>, last: Part, name: Bytes, data: Option<Bytes>)
    requires IsFirst(front, name, data)
    ensures IsFirst(front + [last], name, if data.None? && last.name == name then Some(last.data) else data)
  {
    var parts := front + [last];
    assert forall j :: 0 <= j < |front| ==> parts[j] == front[j];
    if data.Some? {
      var i :| 0 <= i < |front| && front[i] == Part(name, data.value) && forall j :: 0 <= j < i ==> front[j].name != name;
      assert parts[i] == Part(name, data.value);
    } else {
      assert parts[|front|] == Part(last.name, last.data);
    }
  }

  lemma {:induction false} FirstDataIsFirst(parts: seq<Part>, name: Bytes)
    ensures IsFirst(parts, name, FirstData(parts, name))
  {
    if parts == [] {
    } else {
      var front, last := parts[..|parts| - 1], parts[|parts| - 1];
      FirstDataIsFirst(front, name);
      FirstOneMore(front, last, name, FirstData(front, name));
      assert parts == front + [last];
    }
  }

  /** The form is the first part named `file` and the first named `language`; without a `file` there is none. */
  lemma FormMeans(parts: seq<Part>)
    ensures match FormOf(Ok(parts))
            case Ok(form) => IsFirst(parts, Ascii("file"), Some(form.wav)) && IsFirst(parts, Ascii("language"), form.language)
            case Err(e) => e == NoFile && IsFirst(parts, Ascii("file"), None)
  {
    FirstDataIsFirst(parts, Ascii("file"));
    FirstDataIsFirst(parts, Ascii("language"));
  }

  lemma FirstDataStep(parts: seq<Part>, i: nat, name: Bytes)
    requires i < |parts|
    ensures FirstData(parts[..i + 1], name)
         == if FirstData(parts[..i], name).None? && parts[i].name == name then Some(parts[i].data) else FirstData(parts[..i], name)
  {
    assert parts[..i + 1][..i] == parts[..i];
  }

  /** `inference_form`: the first part of a name wins, other fields are ignored. */
  method InferenceForm(body: Bytes, boundary: Bytes) returns (r: Result<Form, ParseError>)
    ensures r == FormOf(ParseBody(body, boundary))
  {
    var parsed := Parse(body, boundary);
    if parsed.Err? {
      return Err(parsed.error);
    }
    var parts := parsed.value;
    var wav: Option<Bytes>, language: Option<Bytes> := None, None;
    var file, lang := File(), Language();
    for i := 0 to |parts|
      invariant wav == FirstData(parts[..i], file)
      invariant language == FirstData(parts[..i], lang)
    {
      FirstDataStep(parts, i, file);
      FirstDataStep(parts, i, lang);
      if parts[i].name == file && wav.None? {
        wav := Some(parts[i].data);
      }
      if parts[i].name == lang && language.None? {
        language := Some(parts[i].data);
      }
    }
    assert parts[..|parts|] == parts;
    if wav.None? {
      return Err(NoFile);
    }
    return Ok(Form(wav.value, language));
  }

  // ------------------------------------------------------------------
  // The round trip
  // ------------------------------------------------------------------

  /** A boundary that can stand in a header line. */
  ghost predicate OneLine(boundary: Bytes) {
    CR !in boundary
  }

  /** With such a boundary, data ends where it should exactly if it does not contain the delimiter line. */
  lemma DataEnds(data: Bytes, boundary: Bytes)
    requires OneLine(boundary)
    ensures EndsAt(data, Closing(boundary)) <==> !Contains(data, Closing(boundary))
  {
    var c := Closing(boundary);
    assert c[0] == CR;
    forall k | 0 < k < |c| ensures c[k] != CR { }
    BorderFree(data, c);
  }

  /** Headers end at the blank line if every carriage return in them begins another line. */
  lemma HeadersEnd(headers: Bytes)
    requires forall p :: 0 <= p < |headers| && headers[p] == CR ==> p + 2 < |headers| && headers[p + 2] != CR
    ensures EndsAt(headers, BLANK)
  {
    var all := headers + BLANK;
    forall i | 0 <= i < |headers| ensures !OccursAt(all, BLANK, i) {
      assert all[i..i + 4][0] == all[i] && all[i..i + 4][2] == all[i + 2];
    }
  }

  /** A field name made of letters and underscores. */
  predicate Word(s: string) {
    s != "" && forall i :: 0 <= i < |s| ==> 'a' <= s[i] <= 'z' || s[i] == '_'
  }

  lemma WordIsPlain(s: string)
    requires Word(s)
    ensures Plain(Ascii(s)) && CR !in Ascii(s)
  {
  }

  lemma NamesArePlain()
    ensures Plain(Language()) && Plain(File()) && Plain(ResponseFormat()) && Plain(Temperature()) && Plain(Prompt())
    ensures CR !in Language() && CR !in File() && CR !in ResponseFormat() && CR !in Temperature() && CR !in Prompt()
  {
    WordIsPlain("language");
    WordIsPlain("file");
    WordIsPlain("response_format");
    WordIsPlain("temperature");
    WordIsPlain("prompt");
  }

  lemma NameLineHasNoCr(name: Bytes)
    requires CR !in name
    ensures CR !in NameLine(name)
  {
    DispositionIs();
    WordsAre();
    assert CR !in LETTERS;
  }

  lemma FileWordsAre()
    ensures |FileName()| > 0 && FileName()[0] == SEMICOLON && LF !in FileName() && CR !in FileName()
    ensures |WavType()| > 0 && CR !in WavType()
  {
  }

  lemma TextBlockReads(name: Bytes, value: Bytes)
    requires Plain(name) && CR !in name
    ensures EndsAt(TextBlock(name, value).headers, BLANK)
    ensures PartOf(TextBlock(name, value)) == [Part(name, value)]
  {
    NameLineHasNoCr(name);
    HeadersEnd(NameLine(name));
    NameIsReadBack(name, [], []);
    assert NameLine(name) + [] + [] == NameLine(name);
  }

  lemma FileBlockReads(wav: Bytes)
    ensures EndsAt(FileBlock(wav).headers, BLANK)
    ensures PartOf(FileBlock(wav)) == [Part(File(), wav)]
  {
    NamesArePlain();
    FileWordsAre();
    NameLineHasNoCr(File());
    var line := NameLine(File()) + FileName();
    assert CR !in line;
    FileHeadersEnd(line, WavType());
    NameIsReadBack(File(), FileName(), CRLF + WavType());
  }

  lemma FileHeadersEnd(line: Bytes, more: Bytes)
    requires CR !in line && more != [] && CR !in more
    ensures EndsAt(line + (CRLF + more), BLANK)
  {
    var h := line + (CRLF + more);
    forall p | 0 <= p < |h| && h[p] == CR ensures p + 2 < |h| && h[p + 2] != CR {
      assert p == |line|;
      assert h[p + 2] == more[0];
    }
    HeadersEnd(h);
  }

  lemma {:induction false} NamedConcat(a: seq<Block>, b: seq<Block>)
    ensures Named(a + b) == Named(a) + Named(b)
    decreases |b|
  {
    if b == [] {
      assert a + b == a;
      assert Named(a) + [] == Named(a);
    } else {
      var front, last := b[..|b| - 1], b[|b| - 1];
      assert b == front + [last];
      NamedConcat(a, front);
      NamedConcatStep(a, front, last);
    }
  }

  lemma NamedConcatStep(a: seq<Block>, b: seq<Block>, last: Block)
    requires Named(a + b) == Named(a) + Named(b)
    ensures Named(a + (b + [last])) == Named(a) + Named(b + [last])
  {
    NamedAppend(a + b, last);
    NamedAppend(b, last);
    Associate(a, b, [last]);
    Associate(Named(a), Named(b), PartOf(last));
  }

  lemma NamedOne(b: Block)
    ensures Named([b]) == PartOf(b)
  {
    NamedAppend([], b);
    assert [] + [b] == [b];
  }

  lemma {:induction false} FirstDataConcat(a: seq<Part>, b: seq<Part>, name: Bytes)
    ensures FirstData(a + b, name) == if FirstData(a, name).Some? then FirstData(a, name) else FirstData(b, name)
    decreases |b|
  {
    if b == [] {
      assert a + b == a;
    } else {
      FirstDataConcat(a, b[..|b| - 1], name);
      assert (a + b)[..|a + b| - 1] == a + b[..|b| - 1];
    }
  }

  lemma FirstDataOne(p: Part, name: Bytes)
    ensures FirstData([p], name) == if p.name == name then Some(p.data) else None
  {
    assert [p][..0] == [];
  }

  // The fields in front of the language, those between language and file.

  function Before(): seq<Block> {
    [TextBlock(ResponseFormat(), Ascii("verbose_json"))]
  }

  function Between(request: Request): seq<Block> {
    [TextBlock(Temperature(), Ascii("0.0"))]
    + if request.prompt.Some? then [TextBlock(Prompt(), request.prompt.value)] else []
  }

  lemma NamesDiffer()
    ensures ResponseFormat() != Language() && ResponseFormat() != File()
    ensures Temperature() != File() && Prompt() != File() && Language() != File()
  {
  }

  lemma NoCrEnds(data: Bytes, boundary: Bytes)
    requires CR !in data
    ensures EndsAt(data, Closing(boundary))
  {
    var c := Closing(boundary);
    forall i | 0 <= i < |data| ensures !OccursAt(data + c, c, i) {
      assert (data + c)[i..i + |c|][0] == data[i];
    }
  }

  lemma ConstantsEnd(boundary: Bytes)
    ensures EndsAt(Ascii("verbose_json"), Closing(boundary)) && EndsAt(Ascii("0.0"), Closing(boundary))
  {
    WordIsPlain("verbose_json");
    NoCrEnds(Ascii("verbose_json"), boundary);
    NoCrEnds(Ascii("0.0"), boundary);
  }

  lemma BeforeReads(boundary: Bytes)
    requires OneLine(boundary)
    ensures Clean(Before(), boundary)
    ensures Named(Before()) == [Part(ResponseFormat(), Ascii("verbose_json"))]
    ensures FirstData(Named(Before()), Language()).None? && FirstData(Named(Before()), File()).None?
  {
    NamesArePlain();
    NamesDiffer();
    ConstantsEnd(boundary);
    var b := Before()[0];
    TextBlockReads(ResponseFormat(), Ascii("verbose_json"));
    NamedOne(b);
    assert Before() == [b];
    FirstDataOne(Named([b])[0], Language());
    FirstDataOne(Named([b])[0], File());
  }

  lemma BetweenReads(request: Request, boundary: Bytes)
    requires OneLine(boundary)
    requires request.prompt.Some? ==> !Contains(request.prompt.value, Closing(boundary))
    ensures Clean(Between(request), boundary)
    ensures FirstData(Named(Between(request)), File()).None?
  {
    NamesArePlain();
    NamesDiffer();
    ConstantsEnd(boundary);
    var t := TextBlock(Temperature(), Ascii("0.0"));
    TextBlockReads(Temperature(), Ascii("0.0"));
    NamedOne(t);
    FirstDataOne(Part(Temperature(), Ascii("0.0")), File());
    if request.prompt.Some? {
      var p := TextBlock(Prompt(), request.prompt.value);
      TextBlockReads(Prompt(), request.prompt.value);
      DataEnds(request.prompt.value, boundary);
      NamedOne(p);
      FirstDataOne(Part(Prompt(), request.prompt.value), File());
      NamedConcat([t], [p]);
      FirstDataConcat(Named([t]), Named([p]), File());
      assert Between(request) == [t] + [p];
    } else {
      assert Between(request) == [t];
    }
  }

  lemma {:induction false} RenderConcat(a: seq<Block>, b: seq<Block>, boundary: Bytes)
    ensures Render(a + b, boundary) == Render(a, boundary) + Render(b, boundary)
    decreases |a|
  {
    if a == [] {
      assert a + b == b;
      assert [] + Render(b, boundary) == Render(b, boundary);
    } else {
      RenderConcat(a[1..], b, boundary);
      assert (a + b)[1..] == a[1..] + b && (a + b)[0] == a[0];
      Associate(RenderBlock(a[0], boundary), Render(a[1..], boundary), Render(b, boundary));
    }
  }

  lemma Associate<T>(a: seq<T>, b: seq<T>, c: seq<T>)
    ensures a + b + c == a + (b + c)
  {
  }

  /** Clean blocks are taken one by one, up to block `b`. */
  lemma TakesFront(front: seq<Block>, b: Block, after: seq<Block>, boundary: Bytes, tail: Bytes)
    requires Clean(front, boundary)
    ensures ParseBlocks(Render(front + ([b] + after), boundary) + tail, boundary)
         == Prepend(front, ParseBlocks(RenderBlock(b, boundary) + (Render(after, boundary) + tail), boundary))
  {
    RenderConcat(front, [b] + after, boundary);
    RenderCons(b, after, boundary, tail);
    Associate(Render(front, boundary), Render([b] + after, boundary), tail);
    ParsesFront(front, boundary, RenderBlock(b, boundary) + (Render(after, boundary) + tail));
  }

  /** The server finds the first delimiter at the very start. */
  lemma StartsAtOnce(boundary: Bytes, blocks: seq<Block>, epilogue: Bytes)
    ensures AllBlocks(Layout([], blocks, boundary, epilogue), boundary)
         == ParseBlocks(Render(blocks, boundary) + (DASHES + epilogue), boundary)
  {
    var rest, delim := Render(blocks, boundary) + (DASHES + epilogue), Delimiter(boundary);
    FindsEnd([], delim, rest);
    assert [] + delim == delim;
    assert (delim + rest)[|delim|..] == rest;
  }

  /** The blocks of a request, around the language block. */
  lemma Around(request: Request, wav: Bytes)
    ensures TextBlocks(request) + [FileBlock(wav)]
         == Before() + ([TextBlock(Language(), request.language)] + (Between(request) + [FileBlock(wav)]))
  {
  }

  /** The fields in front of the language are taken, and the language block comes next. */
  lemma UpToLanguage(boundary: Bytes, request: Request, wav: Bytes)
    requires OneLine(boundary)
    ensures AllBlocks(Encoded(boundary, request, wav), boundary)
         == Prepend(Before(), ParseBlocks(RenderBlock(TextBlock(Language(), request.language), boundary)
                                          + (Render(Between(request) + [FileBlock(wav)], boundary) + (DASHES + CRLF)), boundary))
  {
    BeforeReads(boundary);
    Around(request, wav);
    StartsAtOnce(boundary, TextBlocks(request) + [FileBlock(wav)], CRLF);
    TakesFront(Before(), TextBlock(Language(), request.language), Between(request) + [FileBlock(wav)], boundary, DASHES + CRLF);
  }

  /** Whatever the language block's data was cut to, that is what the server takes. */
  lemma LanguageTaken(boundary: Bytes, data: Bytes, tail: seq<Block>)
    requires OneLine(boundary)
    ensures FirstData(Named(Before() + ([TextBlock(Language(), data)] + tail)), Language()) == Some(data)
    ensures FirstData(Named(Before() + ([TextBlock(Language(), data)] + tail)), File()) == FirstData(Named(tail), File())
  {
    BeforeReads(boundary);
    NamesArePlain();
    NamesDiffer();
    var b := TextBlock(Language(), data);
    TextBlockReads(Language(), data);
    NamedOne(b);
    NamedConcat([b], tail);
    NamedConcat(Before(), [b] + tail);
    FirstDataOne(Part(Language(), data), Language());
    FirstDataOne(Part(Language(), data), File());
    FirstDataConcat(Named([b]), Named(tail), Language());
    FirstDataConcat(Named([b]), Named(tail), File());
    FirstDataConcat(Named(Before()), Named([b] + tail), Language());
    FirstDataConcat(Named(Before()), Named([b] + tail), File());
  }

  lemma FileTaken(boundary: Bytes, request: Request, data: Bytes, tail: seq<Block>)
    requires OneLine(boundary)
    requires request.prompt.Some? ==> !Contains(request.prompt.value, Closing(boundary))
    ensures FirstData(Named(Between(request) + ([FileBlock(data)] + tail)), File()) == Some(data)
  {
    BetweenReads(request, boundary);
    var b := FileBlock(data);
    FileBlockReads(data);
    NamedOne(b);
    NamedConcat([b], tail);
    NamedConcat(Between(request), [b] + tail);
    FirstDataOne(Part(File(), data), File());
    FirstDataConcat(Named([b]), Named(tail), File());
    FirstDataConcat(Named(Between(request)), Named([b] + tail), File());
  }

  /** A language that contains the delimiter line does not come back. */
  lemma LanguageLost(boundary: Bytes, request: Request, wav: Bytes)
    requires OneLine(boundary) && Contains(request.language, Closing(boundary))
    ensures var r := FormOf(ParseBody(Encoded(boundary, request, wav), boundary));
            r.Ok? ==> r.value.language != Some(request.language)
  {
    UpToLanguage(boundary, request, wav);
    var more := Render(Between(request) + [FileBlock(wav)], boundary) + (DASHES + CRLF);
    NamesArePlain();
    TextBlockReads(Language(), request.language);
    DataEnds(request.language, boundary);
    var b := TextBlock(Language(), request.language);
    var d, rest := CutsShort(b, boundary, more);
    var tail := ParseBlocks(rest, boundary);
    if tail.Ok? {
      LanguageTaken(boundary, request.language[..d], tail.value);
    }
  }

  /** One without it does, whatever becomes of the parts after it. */
  lemma LanguageKept(boundary: Bytes, request: Request, wav: Bytes)
    requires OneLine(boundary) && !Contains(request.language, Closing(boundary))
    ensures var r := FormOf(ParseBody(Encoded(boundary, request, wav), boundary));
            r.Ok? ==> r.value.language == Some(request.language)
  {
    UpToLanguage(boundary, request, wav);
    PastLanguage(boundary, request, wav);
    var tail := ParseBlocks(Render(Between(request) + [FileBlock(wav)], boundary) + (DASHES + CRLF), boundary);
    if tail.Ok? {
      LanguageTaken(boundary, request.language, tail.value);
    }
  }

  /** Even a prompt that contains the delimiter line leaves the language alone: whenever the body parses,
      the language comes back if and only if it does not contain that line itself. */
  lemma LanguageSurvivesIff(boundary: Bytes, request: Request, wav: Bytes)
    requires OneLine(boundary)
    ensures var r := FormOf(ParseBody(Encoded(boundary, request, wav), boundary));
            r.Ok? ==> (r.value.language == Some(request.language) <==> !Contains(request.language, Closing(boundary)))
  {
    if Contains(request.language, Closing(boundary)) {
      LanguageLost(boundary, request, wav);
    } else {
      LanguageKept(boundary, request, wav);
    }
  }

  /** What remains after a clean language block: clean fields, then the file. */
  lemma UpToFile(boundary: Bytes, request: Request, wav: Bytes)
    requires OneLine(boundary) && !Contains(request.language, Closing(boundary))
    requires request.prompt.Some? ==> !Contains(request.prompt.value, Closing(boundary))
    ensures AllBlocks(Encoded(boundary, request, wav), boundary)
         == Prepend(Before() + [TextBlock(Language(), request.language)],
                    Prepend(Between(request), ParseBlocks(RenderBlock(FileBlock(wav), boundary) + (DASHES + CRLF), boundary)))
  {
    UpToLanguage(boundary, request, wav);
    PastLanguage(boundary, request, wav);
    PastFields(boundary, request, wav);
    PrependTwice(Before(), [TextBlock(Language(), request.language)],
                 Prepend(Between(request), ParseBlocks(RenderBlock(FileBlock(wav), boundary) + (DASHES + CRLF), boundary)));
  }

  lemma PastLanguage(boundary: Bytes, request: Request, wav: Bytes)
    requires OneLine(boundary) && !Contains(request.language, Closing(boundary))
    ensures var more := Render(Between(request) + [FileBlock(wav)], boundary) + (DASHES + CRLF);
            var b := TextBlock(Language(), request.language);
            ParseBlocks(RenderBlock(b, boundary) + more, boundary) == Prepend([b], ParseBlocks(more, boundary))
  {
    NamesArePlain();
    TextBlockReads(Language(), request.language);
    DataEnds(request.language, boundary);
    CutsBlock(TextBlock(Language(), request.language), boundary,
              Render(Between(request) + [FileBlock(wav)], boundary) + (DASHES + CRLF));
  }

  lemma PastFields(boundary: Bytes, request: Request, wav: Bytes)
    requires OneLine(boundary)
    requires request.prompt.Some? ==> !Contains(request.prompt.value, Closing(boundary))
    ensures ParseBlocks(Render(Between(request) + [FileBlock(wav)], boundary) + (DASHES + CRLF), boundary)
         == Prepend(Between(request), ParseBlocks(RenderBlock(FileBlock(wav), boundary) + (DASHES + CRLF), boundary))
  {
    BetweenReads(request, boundary);
    TakesFront(Between(request), FileBlock(wav), [], boundary, DASHES + CRLF);
    assert [FileBlock(wav)] + [] == [FileBlock(wav)];
    assert Render([], boundary) + (DASHES + CRLF) == DASHES + CRLF;
  }

  /** Given a one-line boundary and a prompt without the delimiter line, the server reads back exactly
      the daemon's clip and language if and only if neither contains the delimiter line; bytes that
      merely resemble it, or abut the real one, do no harm. */
  lemma RoundTrip(boundary: Bytes, request: Request, wav: Bytes)
    requires OneLine(boundary)
    requires request.prompt.Some? ==> !Contains(request.prompt.value, Closing(boundary))
    ensures FormOf(ParseBody(Encoded(boundary, request, wav), boundary)) == Ok(Form(wav, Some(request.language)))
       <==> !Contains(request.language, Closing(boundary)) && !Contains(wav, Closing(boundary))
  {
    if Contains(request.language, Closing(boundary)) {
      LanguageLost(boundary, request, wav);
    } else if Contains(wav, Closing(boundary)) {
      WavLost(boundary, request, wav);
    } else {
      BothKept(boundary, request, wav);
    }
  }

  lemma WavLost(boundary: Bytes, request: Request, wav: Bytes)
    requires OneLine(boundary)
    requires request.prompt.Some? ==> !Contains(request.prompt.value, Closing(boundary))
    requires !Contains(request.language, Closing(boundary)) && Contains(wav, Closing(boundary))
    ensures FormOf(ParseBody(Encoded(boundary, request, wav), boundary)) != Ok(Form(wav, Some(request.language)))
  {
    UpToFile(boundary, request, wav);
    FileBlockReads(wav);
    DataEnds(wav, boundary);
    var d, rest := CutsShort(FileBlock(wav), boundary, DASHES + CRLF);
    var tail := ParseBlocks(rest, boundary);
    WavTaken(boundary, request, wav[..d], tail);
    ShorterWav(AllBlocks(Encoded(boundary, request, wav), boundary), wav, d, request.language);
  }

  lemma ShorterWav(r: Result<seq<Block>, ParseError>, wav: Bytes, d: nat, language: Bytes)
    requires d < |wav| && (r.Ok? ==> FirstData(Named(r.value), File()) == Some(wav[..d]))
    ensures FormOf(AllNamed(r)) != Ok(Form(wav, Some(language)))
  {
  }

  lemma BothKept(boundary: Bytes, request: Request, wav: Bytes)
    requires OneLine(boundary)
    requires request.prompt.Some? ==> !Contains(request.prompt.value, Closing(boundary))
    requires !Contains(request.language, Closing(boundary)) && !Contains(wav, Closing(boundary))
    ensures FormOf(ParseBody(Encoded(boundary, request, wav), boundary)) == Ok(Form(wav, Some(request.language)))
  {
    UpToFile(boundary, request, wav);
    FileBlockReads(wav);
    DataEnds(wav, boundary);
    CutsBlock(FileBlock(wav), boundary, DASHES + CRLF);
    assert (DASHES + CRLF)[..2] == DASHES;
    WavTaken(boundary, request, wav, Ok([]));
  }

  lemma WavTaken(boundary: Bytes, request: Request, data: Bytes, tail: Result<seq<Block>, ParseError>)
    requires OneLine(boundary)
    requires request.prompt.Some? ==> !Contains(request.prompt.value, Closing(boundary))
    ensures var r := Prepend(Before() + [TextBlock(Language(), request.language)],
                             Prepend(Between(request), Prepend([FileBlock(data)], tail)));
            if tail.Err? then r == tail
            else
              && r.Ok? && FirstData(Named(r.value), File()) == Some(data)
              && FirstData(Named(r.value), Language()) == Some(request.language)
  {
    if tail.Ok? {
      var b := TextBlock(Language(), request.language);
      var after := Between(request) + ([FileBlock(data)] + tail.value);
      assert Before() + [b] + after == Before() + ([b] + after);
      LanguageTaken(boundary, request.language, after);
      FileTaken(boundary, request, data, tail.value);
    }
  }

  // ------------------------------------------------------------------
  // A clip and nothing else
  // ------------------------------------------------------------------

  lemma OneField(boundary: Bytes, data: Bytes)
    ensures FieldBytes(boundary, "file", data) + LastBytes(boundary) == Layout([], [TextBlock(File(), data)], boundary, CRLF)
    ensures AllBlocks(FieldBytes(boundary, "file", data) + LastBytes(boundary), boundary)
         == ParseBlocks(RenderBlock(TextBlock(File(), data), boundary) + (DASHES + CRLF), boundary)
  {
    assert Delimiter(boundary) + [] == [] + Delimiter(boundary);
    var blocks, body := HoldField(boundary, "file", data, [], []);
    assert body == FieldBytes(boundary, "file", data) && blocks == [TextBlock(File(), data)];
    EndsBody(body, blocks, boundary);
    StartsAtOnce(boundary, blocks, CRLF);
    RenderCons(blocks[0], [], boundary, DASHES + CRLF);
    assert [blocks[0]] + [] == blocks;
    assert Render([], boundary) + (DASHES + CRLF) == DASHES + CRLF;
  }

  lemma FirstIsFile(data: Bytes, tail: seq<Block>)
    ensures FirstData(Named([TextBlock(File(), data)] + tail), File()) == Some(data)
    ensures FirstData(Named([TextBlock(File(), data)]), Language()) == None
  {
    NamesArePlain();
    NamesDiffer();
    var b := TextBlock(File(), data);
    TextBlockReads(File(), data);
    NamedOne(b);
    NamedConcat([b], tail);
    FirstDataOne(Part(File(), data), File());
    FirstDataOne(Part(File(), data), Language());
    FirstDataConcat(Named([b]), Named(tail), File());
  }

  lemma FileKept(boundary: Bytes, wav: Bytes, body: Bytes)
    requires EndsAt(wav, Closing(boundary))
    requires AllBlocks(body, boundary) == ParseBlocks(RenderBlock(TextBlock(File(), wav), boundary) + (DASHES + CRLF), boundary)
    ensures FormOf(ParseBody(body, boundary)) == Ok(Form(wav, None))
  {
    var b := TextBlock(File(), wav);
    NamesArePlain();
    TextBlockReads(File(), wav);
    CutsBlock(b, boundary, DASHES + CRLF);
    assert (DASHES + CRLF)[..2] == DASHES;
    FirstIsFile(wav, []);
    assert [b] + [] == [b];
  }

  lemma FileLost(boundary: Bytes, wav: Bytes, body: Bytes)
    requires !EndsAt(wav, Closing(boundary))
    requires AllBlocks(body, boundary) == ParseBlocks(RenderBlock(TextBlock(File(), wav), boundary) + (DASHES + CRLF), boundary)
    ensures FormOf(ParseBody(body, boundary)) != Ok(Form(wav, None))
  {
    NamesArePlain();
    TextBlockReads(File(), wav);
    var d, rest := CutsShort(TextBlock(File(), wav), boundary, DASHES + CRLF);
    var tail := ParseBlocks(rest, boundary);
    if tail.Ok? {
      FirstIsFile(wav[..d], tail.value);
    }
  }

  /** A body of one part named `file` reads as that clip, and no language, if and only if no delimiter line begins in it. */
  lemma FileBodyIsRead(boundary: Bytes, wav: Bytes)
    ensures FormOf(ParseBody(FieldBytes(boundary, "file", wav) + LastBytes(boundary), boundary)) == Ok(Form(wav, None))
       <==> EndsAt(wav, Ascii("\r\n--") + boundary)
  {
    var body := FieldBytes(boundary, "file", wav) + LastBytes(boundary);
    OneField(boundary, wav);
    MarksAre();
    Associate(CRLF, DASHES, boundary);
    if EndsAt(wav, Closing(boundary)) {
      FileKept(boundary, wav, body);
    } else {
      FileLost(boundary, wav, body);
    }
  }
}
