/** The `name` of a part, read out of its headers. */
module FieldNames {
  import opened Common
  import opened Bytes

  const LF: byte := 10
  const CR: byte := 13
  const SEMICOLON: byte := 59
  const EQUALS: byte := 61
  const QUOTE: byte := 34

  predicate IsSpace(b: byte) {
    b == 32 || 9 <= b <= 13
  }

  function Lower(b: byte): byte {
    if 65 <= b <= 90 then b + 32 else b
  }

  function IndexOf(s: Bytes, b: byte): (r: Option<nat>)
    ensures r.Some? ==> r.value < |s| && s[r.value] == b && b !in s[..r.value]
    ensures r.None? ==> b !in s
  {
    if s == [] then None
    else if s[0] == b then Some(0)
    else
      var rest := IndexOf(s[1..], b);
      assert rest.Some? ==> s[..rest.value + 1] == [s[0]] + s[1..][..rest.value];
      if rest.Some? then Some(rest.value + 1) else None
  }

  /** The pieces between the occurrences of `b`. */
  function Split(s: Bytes, b: byte): (r: seq<Bytes>)
    decreases |s|
  {
    var at := IndexOf(s, b);
    if at.None? then [s] else [s[..at.value]] + Split(s[at.value + 1..], b)
  }

  function TrimStart(s: Bytes): Bytes {
    if s != [] && IsSpace(s[0]) then TrimStart(s[1..]) else s
  }

  function TrimEnd(s: Bytes): Bytes {
    if s != [] && IsSpace(s[|s| - 1]) then TrimEnd(s[..|s| - 1]) else s
  }

  function Trim(s: Bytes): Bytes {
    TrimEnd(TrimStart(s))
  }

  function DropQuotesStart(s: Bytes): Bytes {
    if s != [] && s[0] == QUOTE then DropQuotesStart(s[1..]) else s
  }

  function DropQuotesEnd(s: Bytes): Bytes {
    if s != [] && s[|s| - 1] == QUOTE then DropQuotesEnd(s[..|s| - 1]) else s
  }

  function Unquote(s: Bytes): Bytes {
    DropQuotesEnd(DropQuotesStart(s))
  }

  /** A line of the headers: up to a line feed, without the carriage return before it. */
  function FirstLine(s: Bytes): Bytes {
    var at := IndexOf(s, LF);
    if at.None? then s
    else if at.value > 0 && s[at.value - 1] == CR then s[..at.value - 1]
    else s[..at.value]
  }

  function RestLines(s: Bytes): (r: Bytes)
    ensures s != [] ==> |r| < |s|
  {
    var at := IndexOf(s, LF);
    if at.None? then [] else s[at.value + 1..]
  }

  predicate IsDisposition(line: Bytes) {
    var key := Ascii("content-disposition:");
    |key| <= |line| && forall i :: 0 <= i < |key| ==> Lower(line[i]) == key[i]
  }

  function DispositionLine(headers: Bytes): Option<Bytes>
    decreases |headers|
  {
    if headers == [] then None
    else if IsDisposition(FirstLine(headers)) then Some(FirstLine(headers))
    else DispositionLine(RestLines(headers))
  }

  /** The value of a `name=value` parameter. */
  function NameParameter(p: Bytes): Option<Bytes> {
    var t := Trim(p);
    var at := IndexOf(t, EQUALS);
    if at.None? then None
    else if Trim(t[..at.value]) == Ascii("name") then Some(Unquote(Trim(t[at.value + 1..])))
    else None
  }

  function FirstName(parameters: seq<Bytes>): Option<Bytes> {
    if parameters == [] then None
    else if NameParameter(parameters[0]).Some? then NameParameter(parameters[0])
    else FirstName(parameters[1..])
  }

  function FieldName(headers: Bytes): Option<Bytes> {
    var line := DispositionLine(headers);
    if line.None? then None else FirstName(Split(line.value, SEMICOLON))
  }

  // ------------------------------------------------------------------
  // Names are read back
  // ------------------------------------------------------------------

  lemma IndexOfHead(a: Bytes, b: byte, rest: Bytes)
    requires b !in a
    ensures IndexOf(a + [b] + rest, b) == Some(|a|)
  {
    var s := a + [b] + rest;
    assert s[|a|] == b;
    var at := IndexOf(s, b).value;
    assert forall i :: 0 <= i < |a| ==> s[i] == a[i];
    assert forall j :: 0 <= j < at ==> s[..at][j] == s[j];
  }

  lemma SplitHead(a: Bytes, b: byte, rest: Bytes)
    requires b !in a
    ensures Split(a, b) == [a]
    ensures Split(a + [b] + rest, b) == [a] + Split(rest, b)
  {
    IndexOfHead(a, b, rest);
    assert (a + [b] + rest)[..|a|] == a && (a + [b] + rest)[|a| + 1..] == rest;
  }

  function Disposition(): Bytes { Ascii("Content-Disposition:") }
  function FormData(): Bytes { Ascii(" form-data") }
  function NameKey(): Bytes { Ascii(" name=\"") }

  const LETTERS: Bytes :=
    [67, 111, 110, 116, 101, 110, 116, 45, 68, 105, 115, 112, 111, 115, 105, 116, 105, 111, 110, 58]

  lemma DispositionIs()
    ensures Disposition() == LETTERS
  {
  }

  lemma LettersArePlain()
    ensures LF !in LETTERS && SEMICOLON !in LETTERS && EQUALS !in LETTERS
  {
  }

  lemma KeywordIs()
    ensures Ascii("content-disposition:") == [99, 111, 110, 116, 101, 110, 116, 45, 100, 105, 115, 112, 111, 115, 105, 116, 105, 111, 110, 58]
  {
  }

  lemma DispositionMatches(rest: Bytes)
    ensures IsDisposition(Disposition() + rest)
  {
    DispositionIs();
    KeywordIs();
    var d := Disposition();
    forall i | 0 <= i < 20 ensures (d + rest)[i] == d[i] { }
  }

  lemma WordsAre()
    ensures FormData() == [32, 102, 111, 114, 109, 45, 100, 97, 116, 97]
    ensures NameKey() == [32, 110, 97, 109, 101, 61, 34]
    ensures Ascii("name") == [110, 97, 109, 101]
  {
  }

  /** What a field's name may be here: on one line, with nothing that splits or ends it. */
  ghost predicate Plain(name: Bytes) {
    name != [] && LF !in name && SEMICOLON !in name && QUOTE !in name
  }

  /** `Content-Disposition: form-data; name="…"` */
  function NameLine(name: Bytes): Bytes {
    Disposition() + FormData() + [SEMICOLON] + NameKey() + name + [QUOTE]
  }

  lemma TypeIsNoName()
    ensures LF !in Disposition() + FormData() && SEMICOLON !in Disposition() + FormData()
    ensures NameParameter(Disposition() + FormData()) == None
  {
    DispositionIs();
    LettersArePlain();
    WordsAre();
    var t := Disposition() + FormData();
    assert EQUALS !in t;
    TrimIsPart(t, EQUALS);
  }

  lemma {:induction false} TrimStartIsPart(s: Bytes, b: byte)
    ensures b !in s ==> b !in TrimStart(s)
    decreases |s|
  {
    if s == [] || !IsSpace(s[0]) {
    } else {
      TrimStartIsPart(s[1..], b);
    }
  }

  lemma {:induction false} TrimEndIsPart(s: Bytes, b: byte)
    ensures b !in s ==> b !in TrimEnd(s)
    decreases |s|
  {
    if s == [] || !IsSpace(s[|s| - 1]) {
    } else {
      TrimEndIsPart(s[..|s| - 1], b);
    }
  }

  lemma TrimIsPart(s: Bytes, b: byte)
    ensures b !in s ==> b !in Trim(s)
  {
    TrimStartIsPart(s, b);
    TrimEndIsPart(TrimStart(s), b);
  }

  lemma UnquotesName(name: Bytes)
    requires Plain(name)
    ensures Unquote([QUOTE] + name + [QUOTE]) == name
  {
    var quoted := [QUOTE] + name + [QUOTE];
    assert quoted[1..] == name + [QUOTE];
    assert DropQuotesStart(quoted[1..]) == quoted[1..];
    assert (name + [QUOTE])[..|name|] == name;
    assert DropQuotesEnd(name) == name;
  }

  lemma NameParameterIs(name: Bytes)
    requires Plain(name)
    ensures NameParameter(NameKey() + name + [QUOTE]) == Some(name)
  {
    WordsAre();
    UnquotesName(name);
    var word: Bytes := [110, 97, 109, 101];
    var quoted := [QUOTE] + name + [QUOTE];
    var p, t := NameKey() + name + [QUOTE], word + [EQUALS] + quoted;
    assert p == [32] + t;
    assert p[1..] == t;
    assert TrimStart(t) == t && TrimEnd(t) == t;
    IndexOfHead(word, EQUALS, quoted);
    assert t[..4] == word && t[5..] == quoted;
    assert Trim(word) == word && Trim(quoted) == quoted;
  }

  /** The first parameter that is a name gives the field its name. */
  lemma SecondParameterNames(kind: Bytes, key: Bytes, parameters: Bytes, name: Bytes)
    requires SEMICOLON !in kind && SEMICOLON !in key
    requires NameParameter(kind).None? && NameParameter(key) == Some(name)
    requires parameters == [] || parameters[0] == SEMICOLON
    ensures FirstName(Split(kind + [SEMICOLON] + (key + parameters), SEMICOLON)) == Some(name)
  {
    SplitHead(kind, SEMICOLON, key + parameters);
    var rest := SplitKey(key, parameters);
    FirstOfTwo(kind, key, rest);
  }

  lemma SplitKey(key: Bytes, parameters: Bytes) returns (rest: seq<Bytes>)
    requires SEMICOLON !in key && (parameters == [] || parameters[0] == SEMICOLON)
    ensures Split(key + parameters, SEMICOLON) == [key] + rest
  {
    if parameters == [] {
      assert key + parameters == key;
      SplitHead(key, SEMICOLON, []);
      rest := [];
    } else {
      assert key + parameters == key + [SEMICOLON] + parameters[1..];
      SplitHead(key, SEMICOLON, parameters[1..]);
      rest := Split(parameters[1..], SEMICOLON);
    }
  }

  lemma FirstOfTwo(kind: Bytes, key: Bytes, rest: seq<Bytes>)
    requires NameParameter(kind).None? && NameParameter(key).Some?
    ensures FirstName([kind] + ([key] + rest)) == NameParameter(key)
  {
    assert ([kind] + ([key] + rest))[1..] == [key] + rest;
  }

  lemma LineNames(line: Bytes, lines: Bytes, name: Bytes)
    requires line != [] && LF !in line && IsDisposition(line) && FirstName(Split(line, SEMICOLON)) == Some(name)
    requires lines == [] || (|lines| > 2 && lines[0] == CR && lines[1] == LF)
    ensures FieldName(line + lines) == Some(name)
  {
    FirstLineIs(line, lines);
  }

  lemma PiecesName(kind: Bytes, key: Bytes, parameters: Bytes, lines: Bytes, name: Bytes)
    requires SEMICOLON !in kind && SEMICOLON !in key && LF !in kind && LF !in key
    requires NameParameter(kind).None? && NameParameter(key) == Some(name)
    requires parameters == [] || (parameters[0] == SEMICOLON && LF !in parameters)
    requires lines == [] || (|lines| > 2 && lines[0] == CR && lines[1] == LF)
    requires IsDisposition(kind + [SEMICOLON] + (key + parameters))
    ensures FieldName(kind + [SEMICOLON] + (key + parameters) + lines) == Some(name)
  {
    SecondParameterNames(kind, key, parameters, name);
    LineNames(kind + [SEMICOLON] + (key + parameters), lines, name);
  }

  /** A name line, followed by nothing, or by further parameters and lines. */
  lemma NameIsReadBack(name: Bytes, parameters: Bytes, lines: Bytes)
    requires Plain(name)
    requires parameters == [] || (parameters[0] == SEMICOLON && LF !in parameters)
    requires lines == [] || (|lines| > 2 && lines[0] == CR && lines[1] == LF)
    ensures FieldName(NameLine(name) + parameters + lines) == Some(name)
  {
    TypeIsNoName();
    NameParameterIs(name);
    KeyIsPlain(name);
    Rejoin(Disposition(), FormData(), NameKey(), name, parameters);
    DispositionMatches(FormData() + [SEMICOLON] + (NameKey() + name + [QUOTE] + parameters));
    PiecesName(Disposition() + FormData(), NameKey() + name + [QUOTE], parameters, lines, name);
  }

  lemma Rejoin(d: Bytes, f: Bytes, k: Bytes, name: Bytes, parameters: Bytes)
    ensures d + f + [SEMICOLON] + k + name + [QUOTE] + parameters == (d + f) + [SEMICOLON] + ((k + name + [QUOTE]) + parameters)
    ensures (d + f) + [SEMICOLON] + ((k + name + [QUOTE]) + parameters) == d + (f + [SEMICOLON] + (k + name + [QUOTE] + parameters))
  {
  }

  lemma KeyIsPlain(name: Bytes)
    requires Plain(name)
    ensures LF !in NameKey() + name + [QUOTE] && SEMICOLON !in NameKey() + name + [QUOTE]
  {
    WordsAre();
  }

  lemma FirstLineIs(line: Bytes, lines: Bytes)
    requires line != [] && LF !in line
    requires lines == [] || (|lines| > 2 && lines[0] == CR && lines[1] == LF)
    ensures FirstLine(line + lines) == line
  {
    if lines == [] {
      assert line + lines == line;
    } else {
      assert line + lines == (line + [CR]) + [LF] + lines[2..];
      IndexOfHead(line + [CR], LF, lines[2..]);
    }
  }

  // ------------------------------------------------------------------
  // What else reads as a name
  // ------------------------------------------------------------------

  /** The header's name is recognised in any mix of cases. */
  lemma AnyCase(line: Bytes)
    ensures IsDisposition(line)
       <==> |line| >= 20 && forall i :: 0 <= i < 20 ==>
              var k := Ascii("content-disposition:")[i];
              line[i] == k || (97 <= k <= 122 && line[i] as int == k as int - 32)
  {
    KeywordIs();
    var key := Ascii("content-disposition:");
    forall i | 0 <= i < 20 && i < |line|
      ensures Lower(line[i]) == key[i] <==> line[i] == key[i] || (97 <= key[i] <= 122 && line[i] as int == key[i] as int - 32)
    {
      LowerIs(line[i], key[i]);
    }
  }

  lemma LowerIs(b: byte, k: byte)
    requires !(65 <= k <= 90)
    ensures Lower(b) == k <==> b == k || (97 <= k <= 122 && b as int == k as int - 32)
  {
  }

  /** Lines end in a line feed, with or without a carriage return; the first that is the right header counts. */
  lemma HeaderLines(line: Bytes, rest: Bytes)
    requires LF !in line && (line != [] ==> line[|line| - 1] != CR)
    ensures DispositionLine(line + [CR, LF] + rest) == if IsDisposition(line) then Some(line) else DispositionLine(rest)
    ensures DispositionLine(line + [LF] + rest) == if IsDisposition(line) then Some(line) else DispositionLine(rest)
  {
    IndexOfHead(line, LF, rest);
    IndexOfHead(line + [CR], LF, rest);
    assert line + [CR, LF] + rest == line + [CR] + [LF] + rest;
    OneLineRead(line, line + [LF] + rest, |line|, rest);
    OneLineRead(line, line + [CR] + [LF] + rest, |line| + 1, rest);
  }

  lemma OneLineRead(line: Bytes, s: Bytes, at: nat, rest: Bytes)
    requires IndexOf(s, LF) == Some(at) && s[at + 1..] == rest
    requires (if at > 0 && s[at - 1] == CR then s[..at - 1] else s[..at]) == line
    ensures DispositionLine(s) == if IsDisposition(line) then Some(line) else DispositionLine(rest)
  {
  }

  /** Key and value, apart from blanks, as a parameter `name=value` has them. */
  predicate NamesAs(t: Bytes, k: Bytes, w: Bytes, value: Bytes) {
    t == k + [EQUALS] + w && EQUALS !in k && Trim(k) == Ascii("name") && value == Unquote(Trim(w))
  }

  lemma SplitAtEquals(p: Bytes, k: Bytes, w: Bytes)
    requires Trim(p) == k + [EQUALS] + w && EQUALS !in k
    ensures NameParameter(p) == if Trim(k) == Ascii("name") then Some(Unquote(Trim(w))) else None
  {
    IndexOfHead(k, EQUALS, w);
    assert Trim(p)[..|k|] == k && Trim(p)[|k| + 1..] == w;
  }

  lemma NameHasEquals(p: Bytes, value: Bytes) returns (k: Bytes, w: Bytes)
    requires NameParameter(p) == Some(value)
    ensures NamesAs(Trim(p), k, w, value)
  {
    var t := Trim(p);
    var at := IndexOf(t, EQUALS).value;
    k, w := t[..at], t[at + 1..];
    assert t == k + [EQUALS] + w;
  }

  /** A parameter names the part if and only if its key, blanks aside, is `name`; the value is then unquoted. */
  lemma NameParameterMeans(p: Bytes, value: Bytes)
    ensures NameParameter(p) == Some(value) <==> exists k, w :: NamesAs(Trim(p), k, w, value)
  {
    if NameParameter(p) == Some(value) {
      var k, w := NameHasEquals(p, value);
    } else {
      forall k, w ensures !NamesAs(Trim(p), k, w, value) {
        if NamesAs(Trim(p), k, w, value) { SplitAtEquals(p, k, w); }
      }
    }
  }

  /** Spaces, tabs and the like. */
  predicate Blank(pad: Bytes) {
    forall i :: 0 <= i < |pad| ==> pad[i] == 32 || 9 <= pad[i] <= 13
  }

  lemma {:induction false} TrimStartPad(pad: Bytes, s: Bytes)
    requires Blank(pad) && (s != [] ==> !IsSpace(s[0]))
    ensures TrimStart(pad + s) == s
    decreases |pad|
  {
    if pad == [] {
      assert pad + s == s;
    } else {
      assert (pad + s)[1..] == pad[1..] + s;
      TrimStartPad(pad[1..], s);
    }
  }

  lemma {:induction false} TrimEndPad(s: Bytes, pad: Bytes)
    requires Blank(pad) && (s != [] ==> !IsSpace(s[|s| - 1]))
    ensures TrimEnd(s + pad) == s
    decreases |pad|
  {
    if pad == [] {
      assert s + pad == s;
    } else {
      var last := |pad| - 1;
      assert (s + pad)[..|s + pad| - 1] == s + pad[..last];
      TrimEndPad(s, pad[..last]);
    }
  }

  lemma TrimPads(front: Bytes, s: Bytes, back: Bytes)
    requires Blank(front) && Blank(back) && s != [] && !IsSpace(s[0]) && !IsSpace(s[|s| - 1])
    ensures Trim(front + s + back) == s
  {
    assert front + s + back == front + (s + back);
    TrimStartPad(front, s + back);
    TrimEndPad(s, back);
  }

  lemma UnquotesOnce(value: Bytes)
    requires value != [] ==> value[0] != QUOTE && value[|value| - 1] != QUOTE
    ensures Unquote([QUOTE] + value + [QUOTE]) == value
  {
    var quoted := [QUOTE] + value + [QUOTE];
    assert quoted[1..] == value + [QUOTE];
    if value == [] {
      assert quoted[1..] == [QUOTE] && quoted[1..][1..] == [];
      assert DropQuotesStart(quoted[1..]) == DropQuotesStart([]) == [];
    } else {
      assert DropQuotesStart(quoted) == DropQuotesStart(quoted[1..]) == value + [QUOTE];
      assert (value + [QUOTE])[..|value|] == value;
      assert DropQuotesEnd(value) == value;
    }
  }

  /** `name="value"` is read with any blanks around its pieces; the quotes go. */
  lemma ParameterIs(a: Bytes, b: Bytes, c: Bytes, d: Bytes, value: Bytes)
    requires Blank(a) && Blank(b) && Blank(c) && Blank(d)
    requires value != [] ==> value[0] != QUOTE && value[|value| - 1] != QUOTE
    ensures NameParameter(a + (Ascii("name") + b + [EQUALS] + (c + ([QUOTE] + value + [QUOTE]))) + d) == Some(value)
  {
    WordsAre();
    var word, quoted := Ascii("name"), [QUOTE] + value + [QUOTE];
    var t := word + b + [EQUALS] + (c + quoted);
    TrimPads(a, t, d);
    IndexOfHead(word + b, EQUALS, c + quoted);
    assert t[..|word + b|] == word + b && t[|word + b| + 1..] == c + quoted;
    TrimPads([], word, b);
    TrimPads(c, quoted, []);
    assert [] + word + b == word + b && c + quoted + [] == c + quoted;
    UnquotesOnce(value);
  }
}
