/** The PHP built-ins the gateway leans on, stated as total functions:
    truthiness, the null-coalescing array read, `trim`, `explode`,
    `array_unique`, `str_starts_with`, the `\w` character class and the
    decimal rendering of integers. */
module Php {

  datatype Option<+T> = None | Some(value: T) {
    /** `$x ?? $default` for a value that is either null or present. */
    function GetOr(default: T): T {
      match this
      case Some(v) => v
      case None => default
    }
  }

  /** A decoded JSON document, as `json_decode($s, true)` or a request input
      yields it. Objects become associative arrays, lists become lists. */
  datatype Json =
    | JNull
    | JBool(b: bool)
    | JNum(n: int)
    | JStr(s: string)
    | JList(items: seq<Json>)
    | JObj(fields: map<string, Json>)

  /** `(bool) $s` for a string: only "" and "0" are false. */
  predicate TruthyText(s: string) {
    s != "" && s != "0"
  }

  /** `(bool) $x` for an optional string (null is false). */
  predicate TruthyOpt(o: Option<string>) {
    o.Some? && TruthyText(o.value)
  }

  /** `(bool) $v` for a JSON value; an empty array or object is false. */
  predicate Truthy(v: Json) {
    match v
    case JNull => false
    case JBool(b) => b
    case JNum(n) => n != 0
    case JStr(s) => TruthyText(s)
    case JList(items) => |items| > 0
    case JObj(fields) => |fields| > 0
  }

  /** True for the values PHP stores as arrays. */
  predicate IsArray(v: Json) {
    v.JList? || v.JObj?
  }

  /** `isset($v[$k])` with a string key: only an object entry that is not
      null is set; a string or a list never has a string key set. */
  function Field(v: Json, k: string): (r: Option<Json>)
    ensures r.Some? <==> v.JObj? && k in v.fields && v.fields[k] != JNull
    ensures r.Some? ==> r.value == v.fields[k] && r.value != JNull
  {
    if v.JObj? && k in v.fields && v.fields[k] != JNull then Some(v.fields[k]) else None
  }

  /** `$v[$k] ?? $default`. */
  function Coalesce(v: Json, k: string, default: Json): (r: Json)
    ensures v.JObj? && k in v.fields && v.fields[k] != JNull ==> r == v.fields[k]
    ensures !(v.JObj? && k in v.fields && v.fields[k] != JNull) ==> r == default
    ensures r == JNull ==> default == JNull
  {
    Field(v, k).GetOr(default)
  }

  /** `str_starts_with($s, $prefix)`. */
  predicate StartsWith(s: string, prefix: string) {
    |prefix| <= |s| && s[..|prefix|] == prefix
  }

  /** The PCRE class `\w` without the `u` modifier: ASCII letters, digits and `_`. */
  predicate IsWordChar(c: char) {
    ('a' <= c <= 'z') || ('A' <= c <= 'Z') || ('0' <= c <= '9') || c == '_'
  }

  predicate AllWordChars(s: string) {
    forall i :: 0 <= i < |s| ==> IsWordChar(s[i])
  }

  /** The characters `trim` strips by default: space, tab, line feed,
      carriage return, NUL and vertical tab. */
  predicate IsBlank(c: char) {
    c == ' ' || c == '\t' || c == '\n' || c == '\r' || c as int == 0 || c as int == 11
  }

  predicate AllBlank(s: string) {
    forall i :: 0 <= i < |s| ==> IsBlank(s[i])
  }

  /** `ltrim`: the longest suffix of `s` that does not start with a blank;
      everything cut off is blank. */
  function TrimStart(s: string): (r: string)
    ensures |r| <= |s| && r == s[|s| - |r|..]
    ensures AllBlank(s[..|s| - |r|])
    ensures |r| > 0 ==> !IsBlank(r[0])
    decreases |s|
  {
    if |s| > 0 && IsBlank(s[0]) then TrimStart(s[1..]) else s
  }

  /** `rtrim`: the longest prefix of `s` that does not end with a blank;
      everything cut off is blank. */
  function TrimEnd(s: string): (r: string)
    ensures |r| <= |s| && r == s[..|r|]
    ensures AllBlank(s[|r|..])
    ensures |r| > 0 ==> !IsBlank(r[|r| - 1])
    decreases |s|
  {
    if |s| > 0 && IsBlank(s[|s| - 1]) then TrimEnd(s[..|s| - 1]) else s
  }

  /** `trim`: an infix of `s` with blank margins on both sides and no blank
      at either end. */
  function Trim(s: string): (r: string)
    ensures |r| <= |s|
    ensures |r| > 0 ==> !IsBlank(r[0]) && !IsBlank(r[|r| - 1])
    ensures exists i :: 0 <= i <= |s| - |r| && r == s[i..i + |r|] && AllBlank(s[..i]) && AllBlank(s[i + |r|..])
  {
    var left := TrimStart(s);
    var r := TrimEnd(left);
    var i := |s| - |left|;
    assert |r| > 0 ==> r[0] == left[0];
    assert left == s[i..];
    assert AllBlank(s[..i]);
    assert r == s[i..i + |r|];
    assert AllBlank(s[i + |r|..]) by {
      assert s[i + |r|..] == left[|r|..];
    }
    assert 0 <= i <= |s| - |r| && r == s[i..i + |r|] && AllBlank(s[..i]) && AllBlank(s[i + |r|..]);
    r
  }

  /** Trimming twice is trimming once. */
  lemma TrimIdempotent(s: string)
    ensures Trim(Trim(s)) == Trim(s)
  {
    var t := Trim(s);
    if |t| > 0 {
      assert TrimStart(t) == t;
      assert TrimEnd(t) == t;
    }
  }

  /** A string trims to the empty string exactly when it is all blanks. */
  lemma TrimEmptyIffBlank(s: string)
    ensures Trim(s) == [] <==> AllBlank(s)
  {
    var t := Trim(s);
    if t == [] {
      var i :| 0 <= i <= |s| && AllBlank(s[..i]) && AllBlank(s[i..]);
      forall k | 0 <= k < |s| ensures IsBlank(s[k]) {
        if k < i { assert s[k] == s[..i][k]; } else { assert s[k] == s[i..][k - i]; }
      }
    }
  }

  /** `implode($sep, $parts)` for a non-empty list. */
  function Implode(parts: seq<string>, sep: char): string
    requires |parts| >= 1
    decreases |parts|
  {
    if |parts| == 1 then parts[0] else parts[0] + [sep] + Implode(parts[1..], sep)
  }

  /** `explode($sep, $s)` for a one-character separator: the pieces between
      separators, none containing it, which join back to `s`. */
  function Explode(s: string, sep: char): (parts: seq<string>)
    ensures |parts| >= 1
    ensures forall i :: 0 <= i < |parts| ==> sep !in parts[i]
    ensures Implode(parts, sep) == s
    decreases |s|
  {
    if |s| == 0 then [""]
    else
      var rest := Explode(s[1..], sep);
      if s[0] == sep then
        assert Implode([""] + rest, sep) == [sep] + Implode(rest, sep) by {
          assert ([""] + rest)[1..] == rest;
        }
        [""] + rest
      else
        var parts := [[s[0]] + rest[0]] + rest[1..];
        assert sep !in parts[0];
        assert Implode(parts, sep) == s by {
          if |rest| > 1 {
            assert parts[1..] == rest[1..];
            assert Implode(rest, sep) == rest[0] + [sep] + Implode(rest[1..], sep);
          }
        }
        parts
  }

  /** The other half of the round trip: pieces free of the separator are
      recovered exactly from their join. */
  lemma {:induction false} ExplodeImplode(parts: seq<string>, sep: char)
    requires |parts| >= 1
    requires forall i :: 0 <= i < |parts| ==> sep !in parts[i]
    ensures Explode(Implode(parts, sep), sep) == parts
    decreases |parts|, |parts[0]|
  {
    var p := parts[0];
    if |parts| == 1 {
      ExplodeNoSeparator(p, sep);
    } else if |p| == 0 {
      var tail := Implode(parts[1..], sep);
      ExplodeImplode(parts[1..], sep);
      assert Implode(parts, sep) == [sep] + tail;
      ExplodeStep(sep, tail, sep);
      assert [""] + parts[1..] == parts;
    } else {
      var shorter := [p[1..]] + parts[1..];
      assert shorter[1..] == parts[1..];
      assert forall i :: 1 <= i < |shorter| ==> shorter[i] == parts[i];
      ExplodeImplode(shorter, sep);
      var tail := Implode(shorter, sep);
      assert Implode(parts, sep) == [p[0]] + tail;
      ExplodeStep(p[0], tail, sep);
      assert [p[0]] + p[1..] == p;
      assert [p] + parts[1..] == parts;
    }
  }

  /** One step of `Explode`: a separator opens a new piece, any other
      character joins the first piece. */
  lemma ExplodeStep(c: char, t: string, sep: char)
    ensures var rest := Explode(t, sep);
            Explode([c] + t, sep) == if c == sep then [""] + rest else [[c] + rest[0]] + rest[1..]
  {
    assert ([c] + t)[0] == c && ([c] + t)[1..] == t;
  }

  lemma {:induction false} ExplodeNoSeparator(s: string, sep: char)
    requires sep !in s
    ensures Explode(s, sep) == [s]
    decreases |s|
  {
    if |s| > 0 {
      ExplodeNoSeparator(s[1..], sep);
      assert [s[0]] + s[1..] == s;
    }
  }

  predicate Distinct<T(==)>(xs: seq<T>) {
    forall i, j :: 0 <= i < j < |xs| ==> xs[i] != xs[j]
  }

  /** `array_unique`: keeps the first occurrence of every value, in order. */
  function Unique(xs: seq<string>): (r: seq<string>)
    ensures Distinct(r)
    ensures forall x :: x in r <==> x in xs
    ensures |r| <= |xs|
    decreases |xs|
  {
    if |xs| == 0 then []
    else
      var front := Unique(xs[..|xs| - 1]);
      var last := xs[|xs| - 1];
      assert forall x :: x in xs <==> x in xs[..|xs| - 1] || x == last by {
        assert xs == xs[..|xs| - 1] + [last];
      }
      if last in front then front else front + [last]
  }

  /** The elements of `xs` that are truthy strings, in order (`if ($id)`). */
  function KeepTruthy(xs: seq<string>): (r: seq<string>)
    ensures forall x :: x in r <==> x in xs && TruthyText(x)
    ensures Distinct(xs) ==> Distinct(r)
    decreases |xs|
  {
    if |xs| == 0 then []
    else
      var rest := KeepTruthy(xs[1..]);
      assert forall x :: x in xs <==> x == xs[0] || x in xs[1..] by {
        assert xs == [xs[0]] + xs[1..];
      }
      if TruthyText(xs[0]) then [xs[0]] + rest else rest
  }

  function DigitChar(d: nat): char
    requires d < 10
  {
    "0123456789"[d]
  }

  /** The decimal text of a natural number, as PHP prints it. */
  function NatText(n: nat): (r: string)
    ensures |r| >= 1
    decreases n
  {
    if n < 10 then [DigitChar(n)] else NatText(n / 10) + [DigitChar(n % 10)]
  }

  /** The decimal text of an integer, as PHP prints it. */
  function IntText(n: int): string {
    if n < 0 then "-" + NatText(-n) else NatText(n)
  }

  /** Distinct numbers print differently, so a decimal text names at most
      one number. */
  lemma {:induction false} NatTextInjective(a: nat, b: nat)
    requires NatText(a) == NatText(b)
    ensures a == b
    decreases a
  {
    var ta, tb := NatText(a), NatText(b);
    assert a % 10 == b % 10 by {
      assert ta[|ta| - 1] == DigitChar(a % 10) && tb[|tb| - 1] == DigitChar(b % 10);
    }
    if a < 10 || b < 10 {
      assert |ta| == 1 <==> a < 10;
      assert |tb| == 1 <==> b < 10;
    } else {
      assert NatText(a / 10) == ta[..|ta| - 1] == tb[..|tb| - 1] == NatText(b / 10);
      NatTextInjective(a / 10, b / 10);
    }
  }
}
