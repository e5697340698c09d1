/**
 Edit distance as the vocabulary corrector uses it: the least number of insertions,
 deletions and replacements that turn one word into another.
 */
module EditDistance {
  import opened Common

  datatype Edit = Keep | Replace(c: char) | Insert(c: char) | Delete

  /** What a script makes of a word, read from left to right; none if the script does not fit. */
  function Apply(script: seq<Edit>, a: string): Option<string>
    decreases |script|
  {
    if script == [] then
      if a == "" then Some("") else None
    else if script[0].Insert? then
      Prepend(script[0].c, Apply(script[1..], a))
    else if a == "" then None
    else if script[0].Delete? then Apply(script[1..], a[1..])
    else Prepend(if script[0].Keep? then a[0] else script[0].c, Apply(script[1..], a[1..]))
  }

  function Prepend(c: char, rest: Option<string>): Option<string> {
    if rest.Some? then Some([c] + rest.value) else None
  }

  function Cost(script: seq<Edit>): nat {
    if script == [] then 0 else (if script[0].Keep? then 0 else 1) + Cost(script[1..])
  }

  function Min(x: nat, y: nat): nat {
    if x <= y then x else y
  }

  function Max(x: nat, y: nat): nat {
    if x >= y then x else y
  }

  function Diff(x: nat, y: nat): nat {
    if x >= y then x - y else y - x
  }

  function Distance(a: string, b: string): nat
    decreases |a| + |b|
  {
    if a == "" then |b|
    else if b == "" then |a|
    else
      Min(Min(1 + Distance(a[1..], b), 1 + Distance(a, b[1..])),
          (if a[0] == b[0] then 0 else 1) + Distance(a[1..], b[1..]))
  }

  /** No script is cheaper than the distance. */
  lemma {:induction false} NoScriptIsCheaper(script: seq<Edit>, a: string, b: string)
    requires Apply(script, a) == Some(b)
    ensures Cost(script) >= Distance(a, b)
    decreases |script|
  {
    if script == [] {
    } else {
      if script[0].Insert? {
        var rest := Apply(script[1..], a).value;
        NoScriptIsCheaper(script[1..], a, rest);
        assert b[1..] == rest;
      } else {
        var rest := Apply(script[1..], a[1..]).value;
        NoScriptIsCheaper(script[1..], a[1..], rest);
        if script[0].Delete? {
          assert b == rest;
          DistanceDrops(a, b);
        } else {
          assert b[1..] == rest;
        }
      }
    }
  }

  lemma DistanceDrops(a: string, b: string)
    requires a != ""
    ensures Distance(a, b) <= 1 + Distance(a[1..], b)
  {
    if b == "" && a[1..] != "" {
      assert Distance(a[1..], b) == |a| - 1;
    }
  }

  /** One more edit in front of a script that turns what it leaves of `a` into what it leaves of `b`. */
  lemma EditInFront(e: Edit, rest: seq<Edit>, a: string, b: string)
    requires e.Insert? ==> b != "" && e.c == b[0] && Apply(rest, a) == Some(b[1..])
    requires e.Delete? ==> a != "" && Apply(rest, a[1..]) == Some(b)
    requires e.Keep? ==> a != "" && b != "" && a[0] == b[0] && Apply(rest, a[1..]) == Some(b[1..])
    requires e.Replace? ==> a != "" && b != "" && e.c == b[0] && Apply(rest, a[1..]) == Some(b[1..])
    ensures Apply([e] + rest, a) == Some(b) && Cost([e] + rest) == (if e.Keep? then 0 else 1) + Cost(rest)
  {
    assert ([e] + rest)[1..] == rest;
    assert b != "" ==> [b[0]] + b[1..] == b;
  }

  /** And some script costs just that. */
  lemma {:induction false} CheapestScript(a: string, b: string) returns (script: seq<Edit>)
    ensures Apply(script, a) == Some(b) && Cost(script) == Distance(a, b)
    decreases |a| + |b|
  {
    if a == "" && b == "" {
      script := [];
    } else if a == "" || (b != "" && Distance(a, b) == 1 + Distance(a, b[1..])) {
      var rest := CheapestScript(a, b[1..]);
      EditInFront(Insert(b[0]), rest, a, b);
      script := [Insert(b[0])] + rest;
    } else if b == "" || Distance(a, b) == 1 + Distance(a[1..], b) {
      var rest := CheapestScript(a[1..], b);
      EditInFront(Delete, rest, a, b);
      script := [Delete] + rest;
    } else {
      var rest := CheapestScript(a[1..], b[1..]);
      var edit := if a[0] == b[0] then Keep else Replace(b[0]);
      EditInFront(edit, rest, a, b);
      script := [edit] + rest;
    }
  }

  lemma {:induction false} DistanceBounds(a: string, b: string)
    ensures Diff(|a|, |b|) <= Distance(a, b) <= Max(|a|, |b|)
    decreases |a| + |b|
  {
    if a == "" || b == "" {
    } else {
      DistanceBounds(a[1..], b);
      DistanceBounds(a, b[1..]);
      DistanceBounds(a[1..], b[1..]);
    }
  }

  lemma {:induction false} ZeroIffEqual(a: string, b: string)
    ensures Distance(a, b) == 0 <==> a == b
    decreases |a| + |b|
  {
    if a == "" || b == "" {
    } else {
      ZeroIffEqual(a[1..], b[1..]);
      assert a == [a[0]] + a[1..] && b == [b[0]] + b[1..];
    }
  }

  lemma {:induction false} DistanceIsSymmetric(a: string, b: string)
    ensures Distance(a, b) == Distance(b, a)
    decreases |a| + |b|
  {
    if a == "" || b == "" {
    } else {
      DistanceIsSymmetric(a[1..], b);
      DistanceIsSymmetric(a, b[1..]);
      DistanceIsSymmetric(a[1..], b[1..]);
    }
  }
}
