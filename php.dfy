/**
  The PHP built-ins the plugin relies on, with the behaviour PHP gives them
  on the inputs the plugin can pass: `empty`, `strpos`, `substr`, `explode`
  (and its inverse `implode`), `str_repeat`, `strtolower`, and the values
  `json_decode` produces together with PHP's truthiness of them.
 */
module Php {

  datatype Option<+T> = None | Some(value: T)

  /** PHP's `empty()` on a string: both "" and "0" are empty. */
  predicate Empty(s: string)
    ensures |s| != 1 ==> (Empty(s) <==> s == "")
    ensures |s| == 1 ==> (Empty(s) <==> s[0] == '0')
  {
    s == "" || s == "0"
  }

  /** `strpos($s, $c)`: the index of the first `c`, or None where PHP returns false. */
  function StrPos(s: string, c: char): (r: Option<nat>)
    ensures r.None? <==> c !in s
    ensures r.Some? ==> r.value < |s| && s[r.value] == c && c !in s[..r.value]
  {
    if s == [] then None
    else if s[0] == c then Some(0)
    else
      match StrPos(s[1..], c)
      case None => None
      case Some(i) =>
        assert s[..i + 1] == [s[0]] + s[1..][..i];
        Some(i + 1)
  }

  /** The first `c` in `p + [c] + rest` is the one right after `p`. */
  lemma StrPosAfterPrefix(p: string, c: char, rest: string)
    requires c !in p
    ensures StrPos(p + [c] + rest, c) == Some(|p|)
  {
    var s := p + [c] + rest;
    assert s[|p|] == c;
    assert s[..|p|] == p;
  }

  /** `substr($s, $start)` for a non-negative start: PHP 8 gives "" past the end. */
  function SubstrFrom(s: string, start: nat): (r: string)
    ensures |r| <= |s| && r == s[|s| - |r|..]
    ensures start <= |s| ==> |r| == |s| - start
    ensures start > |s| ==> r == ""
  {
    if start <= |s| then s[start..] else ""
  }

  /** `str_repeat($c, $n)` for a count PHP accepts. */
  function Repeat(c: char, n: nat): (r: string)
    ensures |r| == n && forall i :: 0 <= i < n ==> r[i] == c
  {
    seq(n, _ => c)
  }

  /** `implode($sep, $parts)`: the parts joined with one separator between neighbours. */
  function Implode(sep: char, parts: seq<string>): string
    requires |parts| >= 1
  {
    if |parts| == 1 then parts[0] else parts[0] + [sep] + Implode(sep, parts[1..])
  }

  /**
    `explode($sep, $s)`: `s` cut at every separator. There is always at
    least one part, no part holds the separator, and joining the parts
    back gives `s`.
   */
  function Explode(sep: char, s: string): (parts: seq<string>)
    ensures |parts| >= 1
    ensures forall i :: 0 <= i < |parts| ==> sep !in parts[i]
    ensures Implode(sep, parts) == s
  {
    if s == [] then [""]
    else
      var rest := Explode(sep, s[1..]);
      if s[0] == sep then
        [""] + rest
      else
        assert [s[0]] + rest[0] + [sep] == [s[0]] + (rest[0] + [sep]);
        [[s[0]] + rest[0]] + rest[1..]
  }

  /** A string without the separator is a single part. */
  lemma ExplodeNoSeparator(sep: char, s: string)
    requires sep !in s
    ensures Explode(sep, s) == [s]
  {
  }

  /** The text before the first separator is the first part. */
  lemma {:induction false} ExplodeFirstSeparator(sep: char, p: string, s: string)
    requires sep !in p
    ensures Explode(sep, p + [sep] + s) == [p] + Explode(sep, s)
  {
    var whole := p + [sep] + s;
    if p == [] {
      assert whole[0] == sep && whole[1..] == s;
    } else {
      assert whole[0] == p[0] && whole[1..] == p[1..] + [sep] + s;
      ExplodeFirstSeparator(sep, p[1..], s);
      var rest := Explode(sep, whole[1..]);
      assert rest == [p[1..]] + Explode(sep, s);
      assert Explode(sep, whole) == [[p[0]] + rest[0]] + rest[1..];
      assert [p[0]] + p[1..] == p;
    }
  }

  /** `explode` undoes `implode` when no part holds the separator. */
  lemma {:induction false} ExplodeImplode(sep: char, parts: seq<string>)
    requires |parts| >= 1
    requires forall i :: 0 <= i < |parts| ==> sep !in parts[i]
    ensures Explode(sep, Implode(sep, parts)) == parts
  {
    if |parts| == 1 {
      ExplodeNoSeparator(sep, parts[0]);
    } else {
      assert sep !in parts[0];
      ExplodeImplode(sep, parts[1..]);
      ExplodeFirstSeparator(sep, parts[0], Implode(sep, parts[1..]));
      assert [parts[0]] + parts[1..] == parts;
    }
  }

  /** `strtolower` on one character: ASCII letters only, as PHP 8 does. */
  function LowerChar(c: char): (r: char)
    ensures 'A' <= c <= 'Z' ==> r as int == c as int + 32
    ensures !('A' <= c <= 'Z') ==> r == c
    ensures !('A' <= r <= 'Z')
  {
    if 'A' <= c <= 'Z' then (c as int + 32) as char else c
  }

  /** `strtolower($s)`: every character lowered on its own, the length kept. */
  function StrToLower(s: string): (r: string)
    ensures |r| == |s|
    ensures forall i :: 0 <= i < |s| ==> r[i] == LowerChar(s[i])
  {
    if s == [] then [] else [LowerChar(s[0])] + StrToLower(s[1..])
  }

  /** Two strings that differ only in the case of ASCII letters. */
  predicate SameIgnoringAsciiCase(a: string, b: string) {
    |a| == |b| && forall i :: 0 <= i < |a| ==> LowerChar(a[i]) == LowerChar(b[i])
  }

  /** `strtolower` maps strings equal up to ASCII case to one string, and only those. */
  lemma StrToLowerIgnoresCase(a: string, b: string)
    ensures StrToLower(a) == StrToLower(b) <==> SameIgnoringAsciiCase(a, b)
  {
  }

  /** What `json_decode($body)` returns: objects decode to stdClass, arrays to PHP arrays. */
  datatype Json =
    | JNull
    | JBool(b: bool)
    | JInt(n: int)
    | JString(s: string)
    | JArray(items: seq<Json>)
    | JObject(fields: map<string, Json>)

  /** PHP's truthiness of a decoded value, as `if ($value)` reads it. */
  predicate Truthy(v: Json)
    ensures !Truthy(v) <==> v in {JNull, JBool(false), JInt(0), JString(""), JString("0"), JArray([])}
  {
    match v
    case JNull => false
    case JBool(b) => b
    case JInt(n) => n != 0
    case JString(s) => !Empty(s)
    case JArray(items) => items != []
    case JObject(_) => true
  }

  /** `$value->name`: a missing property, or a value that is not an object, reads as null. */
  function Property(v: Json, name: string): (r: Json)
    ensures v.JObject? && name in v.fields ==> r == v.fields[name]
    ensures !(v.JObject? && name in v.fields) ==> r == JNull
  {
    match v
    case JObject(fields) => if name in fields then fields[name] else JNull
    case _ => JNull
  }
}
