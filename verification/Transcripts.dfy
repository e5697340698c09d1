/**
 The transcript log: lines appended to a file that is moved aside, over the generation
 before it, once it has grown past a cap.

 How a record is written on a line is left abstract; `Codec.Valid` says what reading needs
 of it, and that numbers may come back changed. Writing, rotation and sizes need nothing of
 it. Renames, opening and writing may fail.
 */
module Transcripts {
  import opened Common
  import opened Bytes
  import opened FieldNames

  datatype Record = Record(
    timestamp: real,
    text: string,
    accepted: bool,
    dropReason: Option<string>,
    avgLogprob: real,
    noSpeechProb: real,
    language: Option<string>)

  /** The same record, but for the numbers, whose printing or parsing may round them. */
  predicate SameButNumbers(a: Record, b: Record) {
    a.text == b.text && a.accepted == b.accepted && a.dropReason == b.dropReason && a.language == b.language
  }

  /** The line of a record, without its newline, and what a line reads as: blank and malformed lines as nothing. */
  datatype Codec = Codec(encode: Record -> Bytes, parse: Bytes -> Option<Record>)
  {
    /** A record fits on one line, and its line reads as a record. */
    ghost predicate ReadsBack(r: Record) {
      LF !in encode(r) && parse(encode(r)).Some? && SameButNumbers(r, parse(encode(r)).value)
    }

    ghost predicate Valid() {
      (forall r: Record :: ReadsBack(r)) && parse([]) == None
    }

    /** What a record is read back as. */
    ghost function Seen(r: Record): Record
      requires Valid()
    {
      assert ReadsBack(r);
      parse(encode(r)).value
    }

    ghost function SeenAll(records: seq<Record>): (seen: seq<Record>)
      requires Valid()
      ensures |seen| == |records|
    {
      if records == [] then [] else [Seen(records[0])] + SeenAll(records[1..])
    }
  }

  function Line(codec: Codec, r: Record): Bytes {
    codec.encode(r) + [LF]
  }

  /** The file holding these records. */
  function Encoded(codec: Codec, records: seq<Record>): Bytes {
    if records == [] then [] else Encoded(codec, records[..|records| - 1]) + Line(codec, records[|records| - 1])
  }

  function ParseAll(codec: Codec, lines: seq<Bytes>): seq<Record> {
    if lines == [] then []
    else
      var rest := ParseAll(codec, lines[1..]);
      match codec.parse(lines[0])
      case None => rest
      case Some(r) => [r] + rest
  }

  /** The readable records of a file, in order. */
  function Records(codec: Codec, content: Bytes): seq<Record> {
    ParseAll(codec, Split(content, LF))
  }

  /** A file is read line by line; a line that is blank or malformed is skipped. */
  lemma LineByLine(codec: Codec, line: Bytes, rest: Bytes)
    requires LF !in line
    ensures var read := match codec.parse(line) case None => [] case Some(r) => [r];
            Records(codec, line + [LF] + rest) == read + Records(codec, rest) && Records(codec, line) == read
  {
    SplitHead(line, LF, rest);
    var lines, only := [line] + Split(rest, LF), [line];
    assert lines[1..] == Split(rest, LF) && only[1..] == [];
    assert ParseAll(codec, only) == (match codec.parse(line) case None => [] case Some(r) => [r]) + ParseAll(codec, []);
    assert [] + Records(codec, rest) == Records(codec, rest);
  }

  lemma FirstRecord(codec: Codec, r: Record, rest: Bytes)
    requires codec.Valid()
    ensures Records(codec, Line(codec, r) + rest) == [codec.Seen(r)] + Records(codec, rest)
  {
    assert codec.ReadsBack(r);
    SplitHead(codec.encode(r), LF, rest);
    var lines := [codec.encode(r)] + Split(rest, LF);
    assert lines[1..] == Split(rest, LF);
  }

  lemma {:induction false} EncodedFirst(codec: Codec, records: seq<Record>)
    requires records != []
    ensures Encoded(codec, records) == Line(codec, records[0]) + Encoded(codec, records[1..])
  {
    var last := |records| - 1;
    if last == 0 {
      assert records[..0] == [] && records[1..] == [];
    } else {
      EncodedFirst(codec, records[..last]);
      assert records[..last][1..] == records[1..][..last - 1];
    }
  }

  /** Reading a file gives back the records written to it, as far as a line can hold them. */
  lemma {:induction false} RecordsAreReadBack(codec: Codec, records: seq<Record>)
    requires codec.Valid()
    ensures Records(codec, Encoded(codec, records)) == codec.SeenAll(records)
    decreases |records|
  {
    if records == [] {
      SplitHead([], LF, []);
      var lines: seq<Bytes> := [[]];
      assert lines[1..] == [] && codec.parse(lines[0]) == None;
      assert Encoded(codec, records) == [] && Split([], LF) == lines;
      assert ParseAll(codec, lines) == ParseAll(codec, lines[1..]) == [];
    } else {
      EncodedFirst(codec, records);
      FirstRecord(codec, records[0], Encoded(codec, records[1..]));
      RecordsAreReadBack(codec, records[1..]);
    }
  }

  lemma EncodedOneMore(codec: Codec, records: seq<Record>, r: Record)
    ensures Encoded(codec, records + [r]) == Encoded(codec, records) + Line(codec, r)
  {
    assert (records + [r])[..|records|] == records;
  }

  lemma {:induction false} EncodedJoins(codec: Codec, a: seq<Record>, b: seq<Record>)
    ensures Encoded(codec, a + b) == Encoded(codec, a) + Encoded(codec, b)
    decreases |b|
  {
    if b == [] {
      assert a + b == a;
    } else {
      var front, last := b[..|b| - 1], b[|b| - 1];
      EncodedJoins(codec, a, front);
      EncodedOneMore(codec, a + front, last);
      assert a + b == (a + front) + [last];
    }
  }

  lemma {:induction false} SeenJoins(codec: Codec, a: seq<Record>, b: seq<Record>)
    requires codec.Valid()
    ensures codec.SeenAll(a + b) == codec.SeenAll(a) + codec.SeenAll(b)
    decreases |a|
  {
    if a == [] {
      assert a + b == b && codec.SeenAll(a) == [];
    } else {
      SeenJoins(codec, a[1..], b);
      assert (a + b)[1..] == a[1..] + b;
    }
  }

  /** Each record is read as its own line, unchanged but for its numbers. */
  lemma {:induction false} SeenAt(codec: Codec, records: seq<Record>, i: nat)
    requires codec.Valid() && i < |records|
    ensures codec.SeenAll(records)[i] == codec.Seen(records[i]) && SameButNumbers(records[i], codec.Seen(records[i]))
    decreases i
  {
    if i == 0 {
      assert codec.ReadsBack(records[0]);
    } else {
      SeenAt(codec, records[1..], i - 1);
    }
  }

  /** A generation that was within the cap before its last line. */
  ghost predicate Bounded(codec: Codec, records: seq<Record>, max: nat) {
    records == [] || |Encoded(codec, records[..|records| - 1])| <= max
  }

  function Bytewise(file: Option<Bytes>): Bytes {
    if file.Some? then file.value else []
  }

  function Reversed<T>(s: seq<T>): (r: seq<T>)
    ensures |r| == |s| && forall i :: 0 <= i < |s| ==> r[i] == s[|s| - 1 - i]
  {
    if s == [] then [] else [s[|s| - 1]] + Reversed(s[..|s| - 1])
  }

  /** Three stretches of records take the bytes each takes. */
  lemma SizesAdd(codec: Codec, dropped: seq<Record>, earlier: seq<Record>, recent: seq<Record>)
    ensures |Encoded(codec, dropped + earlier + recent)|
         == |Encoded(codec, dropped)| + |Encoded(codec, earlier)| + |Encoded(codec, recent)|
  {
    EncodedJoins(codec, dropped, earlier);
    EncodedJoins(codec, dropped + earlier, recent);
  }

  // ------------------------------------------------------------------
  // The two files
  // ------------------------------------------------------------------

  /** The current generation and the one before it; none where there is no file. */
  datatype Files = Files(older: Option<Bytes>, current: Option<Bytes>)
  {
    function Size(): nat {
      |Bytewise(older)| + |Bytewise(current)|
    }

    predicate Oversized(max: nat) {
      current.Some? && |current.value| > max
    }

    function Rotated(max: nat, renames: bool): Files {
      if Oversized(max) && renames then Files(current, None) else this
    }

    /** Opening a file that is not there creates it empty; then the line may be written. */
    function Extended(line: Bytes, write: Attempt): Files {
      match write
      case NotOpened => this
      case NotWritten => Files(older, Some(Bytewise(current)))
      case Written => Files(older, Some(Bytewise(current) + line))
    }
  }

  /** How far the write of a line gets. */
  datatype Attempt = NotOpened | NotWritten | Written

  /** The records in the two files and those moved out of reach before, and the most bytes the files ever took. */
  datatype Ledger = Ledger(dropped: seq<Record>, earlier: seq<Record>, recent: seq<Record>, worst: nat)
  {
    /** Everything written, in order. */
    function All(): seq<Record> {
      dropped + earlier + recent
    }

    function Rotated(): Ledger {
      Ledger(dropped + earlier, recent, [], worst)
    }

    function Extended(record: Record, size: nat): Ledger {
      Ledger(dropped, earlier, recent + [record], if size > worst then size else worst)
    }
  }

  /** The files hold the end of what was written. */
  ghost predicate Stored(codec: Codec, f: Files, l: Ledger) {
    && Bytewise(f.older) == Encoded(codec, l.earlier) && Bytewise(f.current) == Encoded(codec, l.recent)
    && (f.older.None? ==> l.dropped == [] && l.earlier == []) && (f.current.None? ==> l.recent == [])
  }

  /** How large they have been: records are only lost once the files were too large together. */
  ghost predicate Measured(codec: Codec, max: nat, f: Files, l: Ledger) {
    && f.Size() <= l.worst <= |Encoded(codec, l.dropped)| + f.Size()
    && (f.older.Some? ==> |f.older.value| > max)
    && (l.dropped != [] ==> l.worst > 2 * max)
  }

  ghost predicate InBounds(codec: Codec, max: nat, l: Ledger) {
    Bounded(codec, l.earlier, max) && Bounded(codec, l.recent, max)
  }

  lemma RotationKeeps(codec: Codec, max: nat, f: Files, l: Ledger)
    requires Stored(codec, f, l) && Measured(codec, max, f, l) && f.Oversized(max)
    ensures Stored(codec, f.Rotated(max, true), l.Rotated()) && Measured(codec, max, f.Rotated(max, true), l.Rotated())
    ensures l.Rotated().All() == l.All()
    ensures InBounds(codec, max, l) ==> InBounds(codec, max, l.Rotated())
  {
    EncodedJoins(codec, l.dropped, l.earlier);
    if l.dropped + l.earlier != [] && f.older.None? {
      assert false;
    }
  }

  lemma CreationKeeps(codec: Codec, max: nat, f: Files, l: Ledger)
    requires Stored(codec, f, l) && Measured(codec, max, f, l)
    ensures var f' := f.Extended([], NotWritten); Stored(codec, f', l) && Measured(codec, max, f', l)
  {
  }

  lemma LineKeeps(codec: Codec, max: nat, f: Files, l: Ledger, record: Record)
    requires Stored(codec, f, l) && Measured(codec, max, f, l)
    ensures var f', l' := f.Extended(Line(codec, record), Written), l.Extended(record, f.Extended(Line(codec, record), Written).Size());
            && Stored(codec, f', l') && Measured(codec, max, f', l') && l'.All() == l.All() + [record]
            && (InBounds(codec, max, l) && |Bytewise(f.current)| <= max ==> InBounds(codec, max, l'))
  {
    EncodedOneMore(codec, l.recent, record);
    assert (l.recent + [record])[..|l.recent|] == l.recent;
    assert l.dropped + l.earlier + (l.recent + [record]) == l.All() + [record];
  }

  class Log {
    const codec: Codec
    const max: nat
    var files: Files
    /** What was written where, and whether a rename ever failed. */
    ghost var ledger: Ledger
    ghost var renamesFailed: bool

    ghost predicate Valid()
      reads this
    {
      && Stored(codec, files, ledger) && Measured(codec, max, files, ledger)
      && (!renamesFailed ==> InBounds(codec, max, ledger))
    }

    constructor (codec: Codec, max: nat)
      ensures Valid() && ledger.All() == [] && !renamesFailed && this.codec == codec && this.max == max
      ensures files == Files(None, None)
    {
      this.codec, this.max := codec, max;
      files, ledger, renamesFailed := Files(None, None), Ledger([], [], [], 0), false;
    }

    /** `rotate_if_larger`, whose rename may fail and then changes nothing. */
    method RotateIfLarger(renames: bool)
      requires Valid()
      modifies this
      ensures Valid() && files == old(files).Rotated(max, renames)
      ensures ledger.All() == old(ledger).All()
      ensures renamesFailed == (old(renamesFailed) || (old(files).Oversized(max) && !renames))
      ensures !renamesFailed ==> |Bytewise(files.current)| <= max
    {
      if files.Oversized(max) {
        if renames {
          RotationKeeps(codec, max, files, ledger);
          files := Files(files.current, None);
          ledger := ledger.Rotated();
        } else {
          renamesFailed := true;
        }
      }
    }

    /** The file is opened, created if need be, and the line written. */
    method Write(record: Record, write: Attempt) returns (ok: bool)
      requires Valid() && (!renamesFailed ==> |Bytewise(files.current)| <= max)
      modifies this`files, this`ledger
      ensures Valid() && ok == write.Written? && files == old(files).Extended(Line(codec, record), write)
      ensures ledger.All() == if ok then old(ledger).All() + [record] else old(ledger).All()
    {
      match write {
        case NotOpened => return false;
        case NotWritten =>
          CreationKeeps(codec, max, files, ledger);
          files := Files(files.older, Some(Bytewise(files.current)));
          return false;
        case Written =>
          LineKeeps(codec, max, files, ledger, record);
          files := Files(files.older, Some(Bytewise(files.current) + Line(codec, record)));
          ledger := ledger.Extended(record, files.Size());
          return true;
      }
    }

    /** `append`: rotate if need be, then add one line. */
    method Append(record: Record, renames: bool, write: Attempt) returns (ok: bool)
      requires Valid()
      modifies this
      ensures Valid() && ok == write.Written?
      ensures files == old(files).Rotated(max, renames).Extended(Line(codec, record), write)
      ensures ledger.All() == if ok then old(ledger).All() + [record] else old(ledger).All()
      ensures renamesFailed == (old(renamesFailed) || (old(files).Oversized(max) && !renames))
    {
      RotateIfLarger(renames);
      ok := Write(record, write);
    }

    /** `read`: both generations, the older first, or nothing when there is no file. */
    function Read(): Option<seq<Record>>
      reads this
    {
      if files.older.None? && files.current.None? then None
      else Some(
        (if files.older.Some? then Records(codec, files.older.value) else [])
        + (if files.current.Some? then Records(codec, files.current.value) else []))
    }

    /** What is read is always the end of what was written, with nothing missing in between. */
    lemma ReadIsSuffix()
      requires Valid() && codec.Valid()
      ensures ledger.All() == ledger.dropped + (ledger.earlier + ledger.recent)
      ensures Read().Some? ==> Read().value == codec.SeenAll(ledger.earlier + ledger.recent)
      ensures Read().None? ==> ledger.All() == []
    {
      RecordsAreReadBack(codec, ledger.earlier);
      RecordsAreReadBack(codec, ledger.recent);
      SeenJoins(codec, ledger.earlier, ledger.recent);
      assert files.older.None? ==> codec.SeenAll(ledger.earlier) == [];
      assert files.current.None? ==> codec.SeenAll(ledger.recent) == [];
    }

    /** Neither file ever exceeds the cap by more than its last line, as long as no rename has failed. */
    lemma GenerationsAreBounded()
      requires Valid() && !renamesFailed
      ensures forall file :: file == files.older || file == files.current ==>
                Bytewise(file) == [] || exists r, rest :: Bytewise(file) == rest + Line(codec, r) && |rest| <= max
    {
      forall file | (file == files.older || file == files.current) && Bytewise(file) != []
        ensures exists r, rest :: Bytewise(file) == rest + Line(codec, r) && |rest| <= max
      {
        var records := if Bytewise(file) == Bytewise(files.older) then ledger.earlier else ledger.recent;
        var last := |records| - 1;
        assert Bytewise(file) == Encoded(codec, records[..last]) + Line(codec, records[last]);
      }
    }

    /**
     The two generations have at all times stayed under twice the cap if and only if less than that
     was ever written: a log that has to drop anything was past twice its cap first. The same holds
     with "no more than" for "less than".
     */
    lemma UnderTwiceTheCapIff()
      requires Valid()
      ensures ledger.worst < 2 * max <==> |Encoded(codec, ledger.All())| < 2 * max
      ensures ledger.worst <= 2 * max <==> |Encoded(codec, ledger.All())| <= 2 * max
    {
      SizesAdd(codec, ledger.dropped, ledger.earlier, ledger.recent);
    }

    /** What is read, or nothing where there is no log. */
    method Load() returns (kept: seq<Record>)
      requires Valid() && codec.Valid()
      ensures kept == codec.SeenAll(ledger.earlier + ledger.recent)
    {
      ReadIsSuffix();
      var read := Read();
      kept := if read.Some? then read.value else [];
    }

    /** `newest`: the last records first, at most `n`. */
    method Newest(n: nat) returns (records: seq<Record>)
      requires Valid() && codec.Valid()
      ensures var kept := |ledger.earlier| + |ledger.recent|; |records| == if n < kept then n else kept
      ensures forall i :: 0 <= i < |records| ==> records[i] == codec.Seen(ledger.All()[|ledger.All()| - 1 - i])
    {
      var kept := Load();
      records := Reversed(kept)[..if n < |kept| then n else |kept|];
      forall i | 0 <= i < |records| ensures records[i] == codec.Seen(ledger.All()[|ledger.All()| - 1 - i]) {
        SeenAt(codec, ledger.earlier + ledger.recent, |kept| - 1 - i);
        assert ledger.All() == ledger.dropped + (ledger.earlier + ledger.recent);
      }
    }
  }

  lemma FirstLine(max: nat, line: Bytes)
    ensures Files(None, None).Rotated(max, true).Extended(line, Written) == Files(None, Some(line))
  {
    assert [] + line == line;
  }

  lemma SecondLine(max: nat, line: Bytes)
    requires |line| > max
    ensures Files(None, Some(line)).Rotated(max, true).Extended(line, Written) == Files(Some(line), Some(line))
  {
    assert [] + line == line;
  }

  /** A line longer than the cap, written twice: every rename works, and the log takes more than twice its cap. */
  method TwoLongLines(codec: Codec, max: nat, r: Record) returns (log: Log)
    requires |Line(codec, r)| > max
    ensures fresh(log) && log.Valid() && log.max == max && log.codec == codec
    ensures log.ledger.All() == [r, r] && !log.renamesFailed
    ensures log.files == Files(Some(Line(codec, r)), Some(Line(codec, r))) && log.files.Size() > 2 * max
  {
    log := new Log(codec, max);
    ghost var line := Line(codec, r);
    var first := log.Append(r, true, Written);
    FirstLine(max, line);
    var second := log.Append(r, true, Written);
    SecondLine(max, line);
  }
}
