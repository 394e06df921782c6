/** The string renderings the version insertion relies on: decimal numbers, URL paths
    built from segments, and query strings built from name/value pairs. */
module Text {

  predicate IsDigit(c: char) {
    '0' <= c <= '9'
  }

  predicate AllDigits(s: string) {
    forall i :: 0 <= i < |s| ==> IsDigit(s[i])
  }

  function DigitChar(d: nat): (c: char)
    requires d < 10
    ensures IsDigit(c)
  {
    ('0' as int + d) as char
  }

  function DigitValue(c: char): (d: nat)
    requires IsDigit(c)
    ensures d < 10 && DigitChar(d) == c
  {
    c as int - '0' as int
  }

  /** The decimal form of a number, as Java's string concatenation renders an int. */
  function NatToString(n: nat): (s: string)
    ensures |s| > 0 && AllDigits(s)
    ensures s[0] == '0' ==> n == 0
    decreases n
  {
    if n < 10 then [DigitChar(n)] else NatToString(n / 10) + [DigitChar(n % 10)]
  }

  /** Reads back a string of decimal digits. */
  function ParseDigits(s: string): nat
    requires AllDigits(s)
    decreases |s|
  {
    if s == [] then 0 else ParseDigits(s[..|s| - 1]) * 10 + DigitValue(s[|s| - 1])
  }

  /** Reading back the decimal form of a number gives the number. */
  lemma {:induction false} ParseNatToString(n: nat)
    ensures ParseDigits(NatToString(n)) == n
    decreases n
  {
    var s := NatToString(n);
    if n < 10 {
      assert s[..|s| - 1] == [];
    } else {
      ParseNatToString(n / 10);
      assert s[..|s| - 1] == NatToString(n / 10);
    }
  }

  /** Distinct numbers have distinct decimal forms. */
  lemma NatToStringInjective(m: nat, n: nat)
    requires NatToString(m) == NatToString(n)
    ensures m == n
  {
    ParseNatToString(m);
    ParseNatToString(n);
  }

  /** The parts separated by sep. */
  function Join(parts: seq<string>, sep: string): string
    decreases |parts|
  {
    if parts == [] then ""
    else if |parts| == 1 then parts[0]
    else parts[0] + sep + Join(parts[1..], sep)
  }

  /** Adding a last part adds it after one more separator. */
  lemma {:induction false} JoinAppend(parts: seq<string>, x: string, sep: string)
    ensures Join(parts + [x], sep) == if parts == [] then x else Join(parts, sep) + sep + x
    decreases |parts|
  {
    if |parts| > 1 {
      assert (parts + [x])[1..] == parts[1..] + [x];
      JoinAppend(parts[1..], x, sep);
    } else if |parts| == 1 {
      assert parts + [x] == [parts[0], x];
    }
  }

  /** A path segment: non-empty and free of the separator. */
  predicate IsSegment(s: string) {
    s != [] && '/' !in s
  }

  /** The path whose segments are the given ones: "/" alone when there are none,
      otherwise each segment preceded by "/". */
  function PathString(segments: seq<string>): string {
    "/" + Join(segments, "/")
  }

  /** The number of characters before the first separator. */
  function SegmentLength(p: string): (k: nat)
    ensures k <= |p| && '/' !in p[..k]
    ensures k < |p| ==> p[k] == '/'
  {
    if p == [] || p[0] == '/' then 0 else 1 + SegmentLength(p[1..])
  }

  /** The segments of a path: the maximal separator-free stretches, empty ones dropped. */
  function SplitPath(p: string): (segments: seq<string>)
    ensures forall i :: 0 <= i < |segments| ==> IsSegment(segments[i])
    decreases |p|
  {
    if p == [] then []
    else if p[0] == '/' then SplitPath(p[1..])
    else
      var k := SegmentLength(p);
      [p[..k]] + SplitPath(p[k..])
  }

  lemma {:induction false} SegmentLengthOfSegment(s: string, rest: string)
    requires '/' !in s
    requires rest == [] || rest[0] == '/'
    ensures SegmentLength(s + rest) == |s|
    decreases |s|
  {
    if s != [] {
      assert (s + rest)[1..] == s[1..] + rest;
      SegmentLengthOfSegment(s[1..], rest);
    }
  }

  lemma SplitSegmentFirst(s: string, rest: string)
    requires IsSegment(s)
    requires rest == [] || rest[0] == '/'
    ensures SplitPath("/" + s + rest) == [s] + SplitPath(rest)
  {
    var p := "/" + s + rest;
    assert p[1..] == s + rest;
    SegmentLengthOfSegment(s, rest);
    assert (s + rest)[..|s|] == s;
    assert (s + rest)[|s|..] == rest;
  }

  /** Splitting the path rendered from well-formed segments gives those segments back. */
  lemma {:induction false} SplitPathString(segments: seq<string>)
    requires forall i :: 0 <= i < |segments| ==> IsSegment(segments[i])
    ensures SplitPath(PathString(segments)) == segments
    decreases |segments|
  {
    if segments == [] {
      assert PathString(segments) == "/";
      assert SplitPath("/"[1..]) == [];
    } else {
      var rest := if |segments| == 1 then "" else "/" + Join(segments[1..], "/");
      assert PathString(segments) == "/" + segments[0] + rest;
      SplitSegmentFirst(segments[0], rest);
      if |segments| == 1 {
        assert segments == [segments[0]];
      } else {
        SplitPathString(segments[1..]);
        assert rest == PathString(segments[1..]);
      }
    }
  }

  /** Adding a last segment adds "/" and the segment to the path. */
  lemma PathStringAppend(segments: seq<string>, x: string)
    ensures PathString(segments + [x]) == (if segments == [] then "" else PathString(segments)) + "/" + x
  {
    JoinAppend(segments, x, "/");
  }

  /** Adding a first segment puts "/" and the segment in front of the path. */
  lemma PathStringPrepend(x: string, segments: seq<string>)
    ensures PathString([x] + segments) == "/" + x + (if segments == [] then "" else PathString(segments))
  {
  }

  /** One query parameter in "name=value" form (no percent-encoding). */
  function Parameter(p: (string, string)): string {
    p.0 + "=" + p.1
  }

  function Parameters(query: seq<(string, string)>): (parts: seq<string>)
    ensures |parts| == |query|
    ensures forall i :: 0 <= i < |query| ==> parts[i] == Parameter(query[i])
  {
    seq(|query|, i requires 0 <= i < |query| => Parameter(query[i]))
  }

  /** The query string: empty when there are no parameters, otherwise "?" followed by
      the parameters in order, separated by "&". */
  function QueryString(query: seq<(string, string)>): string {
    if query == [] then "" else "?" + Join(Parameters(query), "&")
  }

  /** Adding a parameter opens the query with "?" when there was none, and otherwise
      adds "&" and the parameter after the existing ones. */
  lemma QueryStringAppend(query: seq<(string, string)>, name: string, value: string)
    ensures QueryString(query + [(name, value)])
         == QueryString(query) + (if query == [] then "?" else "&") + name + "=" + value
  {
    assert Parameters(query + [(name, value)]) == Parameters(query) + [name + "=" + value];
    JoinAppend(Parameters(query), name + "=" + value, "&");
  }
}
