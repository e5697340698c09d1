/**
 What reading the log asks of its codec can be had: one that keeps everything but the numbers.

 The fields are written as a list of numbers, each text after its length, and each number
 as that many ones and a zero.
 */
module TranscriptCodec {
  import opened Common
  import opened Bytes
  import opened FieldNames
  import opened Transcripts

  function Ones(n: nat): (b: Bytes)
    ensures |b| == n && forall i :: 0 <= i < n ==> b[i] == 1
  {
    seq(n, i => 1)
  }

  function Unary(ns: seq<nat>): Bytes {
    if ns == [] then [] else Ones(ns[0]) + [0] + Unary(ns[1..])
  }

  lemma {:induction false} UnaryIsPlain(ns: seq<nat>)
    ensures LF !in Unary(ns) && (ns != [] ==> Unary(ns) != [])
  {
    if ns == [] {
    } else {
      UnaryIsPlain(ns[1..]);
    }
  }

  lemma {:induction false} UnaryIsInjective(a: seq<nat>, b: seq<nat>)
    requires Unary(a) == Unary(b)
    ensures a == b
  {
    if a == [] || b == [] {
      UnaryIsPlain(a);
      UnaryIsPlain(b);
    } else {
      SameFirst(a[0], Unary(a[1..]), b[0], Unary(b[1..]));
      UnaryIsInjective(a[1..], b[1..]);
      assert a == [a[0]] + a[1..] && b == [b[0]] + b[1..];
    }
  }

  /** The first zero tells how many ones there are. */
  lemma SameFirst(m: nat, x: Bytes, n: nat, y: Bytes)
    requires Ones(m) + [0] + x == Ones(n) + [0] + y
    ensures m == n && x == y
  {
    FirstZero(m, x);
    FirstZero(n, y);
    assert (Ones(m) + [0] + x)[m + 1..] == x && (Ones(n) + [0] + y)[n + 1..] == y;
  }

  lemma FirstZero(m: nat, x: Bytes)
    ensures var s := Ones(m) + [0] + x; s[m] == 0 && forall i :: 0 <= i < m ==> s[i] == 1
  {
  }

  function Codes(s: string): (ns: seq<nat>)
    ensures |ns| == |s|
  {
    seq(|s|, i requires 0 <= i < |s| => s[i] as int)
  }

  function TextField(s: string): seq<nat> {
    [|s|] + Codes(s)
  }

  function OptionField(o: Option<string>): seq<nat> {
    match o
    case None => [0]
    case Some(s) => [1] + TextField(s)
  }

  function Fields(r: Record): seq<nat> {
    TextField(r.text) + ([if r.accepted then 1 else 0] + (OptionField(r.dropReason) + (OptionField(r.language) + [])))
  }

  lemma TextComesFirst(a: string, x: seq<nat>, b: string, y: seq<nat>)
    requires TextField(a) + x == TextField(b) + y
    ensures a == b && x == y
  {
    var s, t := TextField(a) + x, TextField(b) + y;
    assert s[0] == |a| && t[0] == |b|;
    forall i | 0 <= i < |a| ensures a[i] == b[i] {
      assert s[i + 1] == a[i] as int && t[i + 1] == b[i] as int;
    }
    assert s[1 + |a|..] == x && t[1 + |b|..] == y;
  }

  lemma OptionComesFirst(a: Option<string>, x: seq<nat>, b: Option<string>, y: seq<nat>)
    requires OptionField(a) + x == OptionField(b) + y
    ensures a == b && x == y
  {
    OptionSplits(a, x);
    OptionSplits(b, y);
    if a.Some? {
      TextComesFirst(a.value, x, b.value, y);
    }
  }

  lemma OptionSplits(o: Option<string>, x: seq<nat>)
    ensures var s := OptionField(o) + x;
            match o
            case None => s[0] == 0 && s[1..] == x
            case Some(text) => s[0] == 1 && s[1..] == TextField(text) + x
  {
    match o
    case None => Behind(0, [], x);
    case Some(text) => Behind(1, TextField(text), x);
  }

  lemma Behind(n: nat, front: seq<nat>, x: seq<nat>)
    ensures ([n] + front + x)[0] == n && ([n] + front + x)[1..] == front + x && [n] + [] == [n]
    ensures front == [] ==> front + x == x
  {
  }

  lemma FieldsTell(a: Record, b: Record)
    requires Fields(a) == Fields(b)
    ensures SameButNumbers(a, b)
  {
    var moreA, moreB := OptionField(a.dropReason) + (OptionField(a.language) + []), OptionField(b.dropReason) + (OptionField(b.language) + []);
    var flagA, flagB: seq<nat> := [if a.accepted then 1 else 0], [if b.accepted then 1 else 0];
    TextComesFirst(a.text, flagA + moreA, b.text, flagB + moreB);
    assert (flagA + moreA)[0] == flagA[0] && (flagB + moreB)[0] == flagB[0];
    assert (flagA + moreA)[1..] == moreA && (flagB + moreB)[1..] == moreB;
    OptionComesFirst(a.dropReason, OptionField(a.language) + [], b.dropReason, OptionField(b.language) + []);
    OptionComesFirst(a.language, [], b.language, []);
  }

  ghost function Decoded(line: Bytes): Option<Record> {
    if r: Record :| Unary(Fields(r)) == line then Some(r) else None
  }

  /** There is a codec that fits every record on a line and reads it back but for its numbers. */
  lemma SomeCodecIsValid() returns (codec: Codec)
    ensures codec.Valid()
  {
    codec := Codec((r: Record) => Unary(Fields(r)), (line: Bytes) => Decoded(line));
    forall r: Record ensures codec.ReadsBack(r) {
      UnaryIsPlain(Fields(r));
      var seen := Decoded(Unary(Fields(r))).value;
      UnaryIsInjective(Fields(r), Fields(seen));
      FieldsTell(r, seen);
    }
    forall r: Record ensures Unary(Fields(r)) != [] {
      UnaryIsPlain(Fields(r));
    }
  }
}
