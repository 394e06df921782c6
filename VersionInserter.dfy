/** The client-side API-version inserter: it renders a version with a formatter and
    places the result in exactly one spot of an outgoing request, a header, a query
    parameter or a path segment. */
module VersionInserter {
  import opened Wrappers
  import opened Text

  /** A version as the application supplies it. Nothing here interprets it; all that
      matters is its natural string form (Java's toString, "1.2" for the double 1.2). */
  datatype Version = Version(natural: string)

  /** Turns a version into the string that is put on the wire. */
  datatype Formatter =
    | NaturalForm                     // the default: the version's own string form
    | Custom(format: Version -> string)  // a formatter supplied through the builder

  /** Where the formatted version goes. */
  datatype Strategy =
    | Header(name: string)
    | QueryParam(name: string)
    | PathSegment(index: nat)

  /** An immutable inserter: one placement and one formatter. */
  datatype ApiVersionInserter = ApiVersionInserter(strategy: Strategy, formatter: Formatter)

  /** The parts of an outgoing request the inserter may change: the path segments in
      order, the query parameters in order and the header entries in order. */
  datatype Request = Request(
    segments: seq<string>,
    query: seq<(string, string)>,
    headers: seq<(string, string)>)

  datatype Error =
    | IllegalState(message: string)   // the inserter cannot place the version
    | MissingInserter                 // a version is set but no inserter is configured

  /** The wire form of a version: what a custom formatter makes of it, and otherwise
      its natural string form. */
  function Format(formatter: Formatter, version: Version): (s: string)
    ensures formatter.NaturalForm? ==> s == version.natural
    ensures formatter.Custom? ==> s == formatter.format(version)
  {
    match formatter
    case NaturalForm => version.natural
    case Custom(f) => f(version)
  }

  /** The message of the error for a path-segment index past the end of the path. */
  function OutOfRangeMessage(path: string, index: nat): (m: string)
    ensures var head := "Cannot insert version into '";
      && |m| > |head| + |path| + |NatToString(index)|
      && m[..|head|] == head
      && m[|head|..|head| + |path|] == path
      && m[|m| - |NatToString(index)|..] == NatToString(index)
  {
    "Cannot insert version into '" + path + "' at path segment index " + NatToString(index)
  }

  /** The length of the run of digits a string ends with. */
  function DigitRunLength(s: string): (k: nat)
    ensures k <= |s|
    decreases |s|
  {
    if s == [] || !IsDigit(s[|s| - 1]) then 0 else 1 + DigitRunLength(s[..|s| - 1])
  }

  lemma {:induction false} DigitRunOf(a: string, x: string)
    requires a != [] && !IsDigit(a[|a| - 1]) && AllDigits(x)
    ensures DigitRunLength(a + x) == |x|
    decreases |x|
  {
    if x == [] {
      assert a + x == a;
    } else {
      assert (a + x)[..|a + x| - 1] == a + x[..|x| - 1];
      DigitRunOf(a, x[..|x| - 1]);
    }
  }

  /** Of two ways to split a string into a part ending in a non-digit and a run of
      digits, the digit runs are the same. */
  lemma DigitSuffix(a: string, x: string, b: string, y: string)
    requires a != [] && !IsDigit(a[|a| - 1]) && AllDigits(x)
    requires b != [] && !IsDigit(b[|b| - 1]) && AllDigits(y)
    requires a + x == b + y
    ensures x == y
  {
    DigitRunOf(a, x);
    DigitRunOf(b, y);
    var m := a + x;
    assert x == m[|m| - |x|..] == y;
  }

  /** The message identifies both the path it quotes and the index it names. */
  lemma OutOfRangeMessageIdentifies(p: string, i: nat, q: string, j: nat)
    requires OutOfRangeMessage(p, i) == OutOfRangeMessage(q, j)
    ensures p == q && i == j
  {
    var head, tail := "Cannot insert version into '", "' at path segment index ";
    var ni, nj := NatToString(i), NatToString(j);
    var m := OutOfRangeMessage(p, i);
    assert m == head + p + tail + ni;
    assert m == head + q + tail + nj;
    DigitSuffix(head + p + tail, ni, head + q + tail, nj);
    NatToStringInjective(i, j);
    assert |p| == |q|;
    assert p == m[|head|..|head| + |p|] == q;
  }

  /** Inserts the formatted version into the request, or fails when a path-segment
      index lies past the end of the path. */
  function Insert(inserter: ApiVersionInserter, version: Version, request: Request): (r: Result<Request, Error>)
    ensures r.Failure? <==> inserter.strategy.PathSegment? && inserter.strategy.index > |request.segments|
    ensures r.Failure? ==> r.error.IllegalState?
    ensures r.Success? ==> Size(r.value) == Size(request) + 1
  {
    var formatted := Format(inserter.formatter, version);
    match inserter.strategy
    case Header(name) =>
      Success(request.(headers := request.headers + [(name, formatted)]))
    case QueryParam(name) =>
      Success(request.(query := request.query + [(name, formatted)]))
    case PathSegment(index) =>
      if index <= |request.segments| then
        Success(request.(segments := request.segments[..index] + [formatted] + request.segments[index..]))
      else
        Failure(IllegalState(OutOfRangeMessage(PathString(request.segments), index)))
  }

  /** The number of path segments, query parameters and header entries of a request. */
  function Size(request: Request): nat {
    |request.segments| + |request.query| + |request.headers|
  }

  /** The path and query of a request, as the server records them ("/path?api-version=1.2"):
      the path, then a query part exactly when there are query parameters. */
  function PathAndQuery(request: Request): (s: string)
    ensures |s| > 0 && s[0] == '/'
    ensures |PathString(request.segments)| <= |s|
    ensures s[..|PathString(request.segments)|] == PathString(request.segments)
    ensures request.query == [] <==> |s| == |PathString(request.segments)|
  {
    PathString(request.segments) + QueryString(request.query)
  }

  /** The value a recipient reads for a header: the last entry with that name. */
  function GetHeader(headers: seq<(string, string)>, name: string): (r: Option<string>)
    ensures r.None? <==> forall i :: 0 <= i < |headers| ==> headers[i].0 != name
    ensures r.Some? ==> exists i :: 0 <= i < |headers| && headers[i] == (name, r.value) &&
                                    forall j :: i < j < |headers| ==> headers[j].0 != name
    decreases |headers|
  {
    if headers == [] then None
    else if headers[|headers| - 1].0 == name then Some(headers[|headers| - 1].1)
    else GetHeader(headers[..|headers| - 1], name)
  }

  /** The segments with the one at position i taken out. */
  function RemoveAt(s: seq<string>, i: nat): seq<string>
    requires i < |s|
  {
    s[..i] + s[i + 1..]
  }

  /** An index below the segment count puts the version at that index and shifts the
      later segments one place right; nothing else in the request changes. */
  lemma InsertBelowSize(inserter: ApiVersionInserter, version: Version, request: Request)
    requires inserter.strategy.PathSegment? && inserter.strategy.index < |request.segments|
    ensures var i, s, f := inserter.strategy.index, request.segments, Format(inserter.formatter, version);
      var r := Insert(inserter, version, request);
      && r.Success?
      && |r.value.segments| == |s| + 1
      && r.value.segments[i] == f
      && (forall k :: 0 <= k < i ==> r.value.segments[k] == s[k])
      && (forall k :: i < k <= |s| ==> r.value.segments[k] == s[k - 1])
      && r.value.query == request.query && r.value.headers == request.headers
  {
  }

  /** An index equal to the segment count is not an error: the version becomes the last
      segment. */
  lemma InsertAtSize(inserter: ApiVersionInserter, version: Version, request: Request)
    requires inserter.strategy.PathSegment? && inserter.strategy.index == |request.segments|
    ensures var r := Insert(inserter, version, request);
      && r.Success?
      && r.value == request.(segments := request.segments + [Format(inserter.formatter, version)])
  {
  }

  /** An index past the segment count fails with an illegal-state error whose message
      quotes the original path and the requested index. */
  lemma InsertAboveSize(inserter: ApiVersionInserter, version: Version, request: Request)
    requires inserter.strategy.PathSegment? && inserter.strategy.index > |request.segments|
    ensures Insert(inserter, version, request)
         == Failure(IllegalState(OutOfRangeMessage(PathString(request.segments), inserter.strategy.index)))
  {
  }

  /** A successful path-segment insertion adds exactly the formatted version and keeps
      every original segment in its original order: removing the inserted segment gives
      the original path back. */
  lemma InsertPreservesSegments(inserter: ApiVersionInserter, version: Version, request: Request)
    requires inserter.strategy.PathSegment?
    requires Insert(inserter, version, request).Success?
    ensures var i, r := inserter.strategy.index, Insert(inserter, version, request).value;
      && i < |r.segments|
      && |r.segments| == |request.segments| + 1
      && r.segments[i] == Format(inserter.formatter, version)
      && RemoveAt(r.segments, i) == request.segments
      && multiset(r.segments) == multiset(request.segments) + multiset{Format(inserter.formatter, version)}
  {
  }

  /** Query-parameter placement leaves path and headers alone and adds one "name=value"
      pair after the existing ones, opening the query with "?" when there was none. */
  lemma InsertQueryParam(inserter: ApiVersionInserter, version: Version, request: Request)
    requires inserter.strategy.QueryParam?
    ensures var name, f := inserter.strategy.name, Format(inserter.formatter, version);
      var r := Insert(inserter, version, request);
      && r.Success?
      && r.value.segments == request.segments && r.value.headers == request.headers
      && r.value.query == request.query + [(name, f)]
      && PathAndQuery(r.value)
         == PathAndQuery(request) + (if request.query == [] then "?" else "&") + name + "=" + f
  {
    QueryStringAppend(request.query, inserter.strategy.name, Format(inserter.formatter, version));
  }

  /** Header placement leaves path and query alone, gives the named header the formatted
      version, and leaves what every other header reads unchanged. */
  lemma InsertHeader(inserter: ApiVersionInserter, version: Version, request: Request)
    requires inserter.strategy.Header?
    ensures var name := inserter.strategy.name;
      var r := Insert(inserter, version, request);
      && r.Success?
      && r.value.segments == request.segments && r.value.query == request.query
      && r.value.headers == request.headers + [(name, Format(inserter.formatter, version))]
      && GetHeader(r.value.headers, name) == Some(Format(inserter.formatter, version))
      && forall other :: other != name ==> GetHeader(r.value.headers, other) == GetHeader(request.headers, other)
  {
  }

  /** The request carries value at the spot the strategy names: the header reads it, the
      last query parameter is (name, value), or the segment at the index is value. */
  predicate Places(strategy: Strategy, request: Request, value: string) {
    match strategy
    case Header(name) => GetHeader(request.headers, name) == Some(value)
    case QueryParam(name) => request.query != [] && request.query[|request.query| - 1] == (name, value)
    case PathSegment(index) => index < |request.segments| && request.segments[index] == value
  }

  /** Whatever the placement, the value placed is the custom formatter's rendering of the
      version when there is one, and the version's natural string form otherwise. */
  lemma FormatterPrecedence(inserter: ApiVersionInserter, version: Version, request: Request)
    requires !(inserter.strategy.PathSegment? && inserter.strategy.index > |request.segments|)
    ensures var r := Insert(inserter, version, request);
      && r.Success?
      && (inserter.formatter.Custom? ==> Places(inserter.strategy, r.value, inserter.formatter.format(version)))
      && (inserter.formatter.NaturalForm? ==> Places(inserter.strategy, r.value, version.natural))
  {
    match inserter.strategy
    case Header(_) => InsertHeader(inserter, version, request);
    case QueryParam(_) => InsertQueryParam(inserter, version, request);
    case PathSegment(_) => InsertPreservesSegments(inserter, version, request);
  }

  /** A builder that collects one placement and an optional formatter. */
  datatype InserterBuilder = InserterBuilder(strategy: Option<Strategy>, formatter: Formatter) {

    /** Chooses the header placement and keeps the formatter chosen so far. */
    function UseHeader(name: string): (b: InserterBuilder)
      requires strategy.None?
      ensures b.strategy == Some(Header(name)) && b.formatter == formatter
    {
      this.(strategy := Some(Header(name)))
    }

    /** Chooses the query-parameter placement and keeps the formatter chosen so far. */
    function UseQueryParam(name: string): (b: InserterBuilder)
      requires strategy.None?
      ensures b.strategy == Some(QueryParam(name)) && b.formatter == formatter
    {
      this.(strategy := Some(QueryParam(name)))
    }

    /** Chooses the path-segment placement and keeps the formatter chosen so far. */
    function UsePathSegment(index: nat): (b: InserterBuilder)
      requires strategy.None?
      ensures b.strategy == Some(PathSegment(index)) && b.formatter == formatter
    {
      this.(strategy := Some(PathSegment(index)))
    }

    /** Installs a formatter: every version is then rendered by it; the placement stays. */
    function WithVersionFormatter(format: Version -> string): (b: InserterBuilder)
      ensures b.strategy == strategy
      ensures forall v :: Format(b.formatter, v) == format(v)
    {
      this.(formatter := Custom(format))
    }

    /** The inserter with the chosen placement, rendering versions as the builder would. */
    function Build(): (inserter: ApiVersionInserter)
      requires strategy.Some?
      ensures inserter.strategy == strategy.value
      ensures forall v :: Format(inserter.formatter, v) == Format(formatter, v)
    {
      ApiVersionInserter(strategy.value, formatter)
    }
  }

  /** A builder with no placement and the default formatter. */
  function Builder(): (b: InserterBuilder)
    ensures b.strategy.None?
    ensures forall v :: Format(b.formatter, v) == v.natural
  {
    InserterBuilder(None, NaturalForm)
  }

  /** Shortcut for an inserter that uses a header and the default formatter. */
  function UseHeader(name: string): (inserter: ApiVersionInserter)
    ensures inserter.strategy == Header(name)
    ensures forall v :: Format(inserter.formatter, v) == v.natural
  {
    ApiVersionInserter(Header(name), NaturalForm)
  }

  /** Shortcut for an inserter that uses a query parameter and the default formatter. */
  function UseQueryParam(name: string): (inserter: ApiVersionInserter)
    ensures inserter.strategy == QueryParam(name)
    ensures forall v :: Format(inserter.formatter, v) == v.natural
  {
    ApiVersionInserter(QueryParam(name), NaturalForm)
  }

  /** Shortcut for an inserter that uses a path segment and the default formatter. */
  function UsePathSegment(index: nat): (inserter: ApiVersionInserter)
    ensures inserter.strategy == PathSegment(index)
    ensures forall v :: Format(inserter.formatter, v) == v.natural
  {
    ApiVersionInserter(PathSegment(index), NaturalForm)
  }

  /** Each shortcut is the builder with that one placement and no formatter; a formatter
      given to the builder makes the built inserter a custom-formatting one. */
  lemma BuilderAgreesWithShortcuts(name: string, index: nat, format: Version -> string)
    ensures Builder().UseHeader(name).Build() == UseHeader(name)
    ensures Builder().UseQueryParam(name).Build() == UseQueryParam(name)
    ensures Builder().UsePathSegment(index).Build() == UsePathSegment(index)
    ensures Builder().UsePathSegment(index).WithVersionFormatter(format).Build()
         == ApiVersionInserter(PathSegment(index), Custom(format))
  {
  }
}
