/** The client tests for sending API versions: each test configures the shared client
    builder with an inserter, sends GET "/path" and states what the server records. */
module ClientVersionTests {
  import opened Wrappers
  import opened VersionInserter
  import opened WebClient

  /** The version every test sends: the double 1.2, whose natural form is "1.2". */
  const V12: Version := Version("1.2")

  /** The formatter the path-segment tests install. */
  function Prefixed(v: Version): string {
    "v" + v.natural
  }

  /** The mock server's root has no segments and "/path" has the one segment "path". */
  lemma PathSegments()
    ensures Text.SplitPath("/") == []
    ensures Text.SplitPath("/path") == ["path"]
    ensures Text.PathString(["path"]) == "/path"
  {
    Text.SplitPathString([]);
    Text.SplitPathString(["path"]);
  }

  /** What a test sends: GET "/path" with version 1.2 through a fresh builder. */
  lemma SentRequest(inserter: ApiVersionInserter)
    ensures Retrieve(Client(Text.SplitPath("/"), None, Some(inserter)), Get("/path").ApiVersion(V12))
         == Insert(inserter, V12, Request(["path"], [], []))
  {
    PathSegments();
    var client := Client(Text.SplitPath("/"), None, Some(inserter));
    var spec := Get("/path").ApiVersion(V12);
    assert [] + ["path"] == ["path"];
    assert OutgoingRequest(client, spec) == Request(["path"], [], []);
    PerRequestVersionInserted(client, spec, inserter);
  }

  lemma PrefixedVersion()
    ensures Format(Custom(Prefixed), V12) == "v1.2"
  {
  }

  /** Index 0 on "/path" with the "v" formatter gives "/v1.2/path". */
  lemma InsertBeforePath()
    ensures var r := Insert(ApiVersionInserter(PathSegment(0), Custom(Prefixed)), V12, Request(["path"], [], []));
      r.Success? && PathAndQuery(r.value) == "/v1.2/path"
  {
    var inserter := ApiVersionInserter(PathSegment(0), Custom(Prefixed));
    var segments: seq<string> := ["path"];
    PrefixedVersion();
    assert Insert(inserter, V12, Request(segments, [], []))
        == Success(Request(segments[..0] + ["v1.2"] + segments[0..], [], []));
    assert segments[..0] + ["v1.2"] + segments[0..] == ["v1.2"] + segments;
    Text.PathStringPrepend("v1.2", segments);
    assert Text.PathString(segments) == "/path";
  }

  /** Index 1 on "/path" with the "v" formatter gives "/path/v1.2". */
  lemma InsertAfterPath()
    ensures var r := Insert(ApiVersionInserter(PathSegment(1), Custom(Prefixed)), V12, Request(["path"], [], []));
      r.Success? && PathAndQuery(r.value) == "/path/v1.2"
  {
    var inserter := ApiVersionInserter(PathSegment(1), Custom(Prefixed));
    PrefixedVersion();
    InsertAtSize(inserter, V12, Request(["path"], [], []));
    Text.PathStringAppend(["path"], "v1.2");
    PathSegments();
  }

  /** The query string the query-parameter test expects. */
  lemma QueryStringOfVersion()
    ensures Text.QueryString([("api-version", "1.2")]) == "?api-version=1.2"
  {
    assert Text.Parameter(("api-version", "1.2")) == "api-version=1.2";
    assert Text.Parameters([("api-version", "1.2")]) == ["api-version=1.2"];
  }

  lemma QueryParamPath()
    ensures PathAndQuery(Request(["path"], [("api-version", "1.2")], [])) == "/path?api-version=1.2"
  {
    PathSegments();
    QueryStringOfVersion();
  }

  lemma IndexTwo()
    ensures Text.NatToString(2) == "2"
  {
  }

  lemma MessageAtIndexTwo(path: string)
    ensures OutOfRangeMessage(path, 2) == "Cannot insert version into '" + path + "' at path segment index 2"
  {
    IndexTwo();
  }

  /** The message the out-of-range test expects. */
  lemma OutOfRangeMessageForPath()
    ensures OutOfRangeMessage("/path", 2) == "Cannot insert version into '/path' at path segment index 2"
  {
    MessageAtIndexTwo("/path");
    assert "Cannot insert version into '" + "/path" + "' at path segment index 2"
        == "Cannot insert version into '/path' at path segment index 2";
  }

  class WebClientVersionTests {
    /** The builder each test configures; its base URL is the mock server's root. */
    const webClientBuilder: WebClientBuilder

    constructor ()
      ensures fresh(webClientBuilder) && Initial()
    {
      webClientBuilder := new WebClientBuilder("/");
    }

    /** The builder as a new test instance has it: base URL "/" and nothing configured. */
    predicate Initial()
      reads this, webClientBuilder
    {
      && webClientBuilder.baseUrl == "/"
      && webClientBuilder.defaultApiVersion.None?
      && webClientBuilder.apiVersionInserter.None?
    }

    /** Installs the inserter, builds a client and sends GET "/path" with version 1.2. */
    method PerformRequest(versionInserter: ApiVersionInserter) returns (sent: Result<Request, Error>)
      modifies webClientBuilder
      ensures webClientBuilder.apiVersionInserter == Some(versionInserter)
      ensures webClientBuilder.baseUrl == old(webClientBuilder.baseUrl)
      ensures webClientBuilder.defaultApiVersion == old(webClientBuilder.defaultApiVersion)
      ensures sent == Retrieve(
        Client(Text.SplitPath(old(webClientBuilder.baseUrl)), old(webClientBuilder.defaultApiVersion), Some(versionInserter)),
        Get("/path").ApiVersion(V12))
    {
      webClientBuilder.UseApiVersionInserter(versionInserter);
      var webClient := webClientBuilder.Build();
      sent := Retrieve(webClient, Get("/path").ApiVersion(V12));
    }

    method Header() returns (recorded: Result<Request, Error>)
      requires Initial()
      modifies webClientBuilder
      ensures recorded.Success? && GetHeader(recorded.value.headers, "X-API-Version") == Some("1.2")
    {
      recorded := PerformRequest(UseHeader("X-API-Version"));
      SentRequest(UseHeader("X-API-Version"));
      InsertHeader(UseHeader("X-API-Version"), V12, Request(["path"], [], []));
    }

    method QueryParam() returns (recorded: Result<Request, Error>)
      requires Initial()
      modifies webClientBuilder
      ensures recorded.Success? && PathAndQuery(recorded.value) == "/path?api-version=1.2"
    {
      recorded := PerformRequest(UseQueryParam("api-version"));
      SentRequest(UseQueryParam("api-version"));
      QueryParamPath();
    }

    method PathSegmentIndexLessThanSize() returns (recorded: Result<Request, Error>)
      requires Initial()
      modifies webClientBuilder
      ensures recorded.Success? && PathAndQuery(recorded.value) == "/v1.2/path"
    {
      var inserter := Builder().UsePathSegment(0).WithVersionFormatter(Prefixed).Build();
      recorded := PerformRequest(inserter);
      SentRequest(inserter);
      InsertBeforePath();
    }

    method PathSegmentIndexEqualToSize() returns (recorded: Result<Request, Error>)
      requires Initial()
      modifies webClientBuilder
      ensures recorded.Success? && PathAndQuery(recorded.value) == "/path/v1.2"
    {
      var inserter := Builder().UsePathSegment(1).WithVersionFormatter(Prefixed).Build();
      recorded := PerformRequest(inserter);
      SentRequest(inserter);
      InsertAfterPath();
    }

    method PathSegmentIndexGreaterThanSize() returns (recorded: Result<Request, Error>)
      requires Initial()
      modifies webClientBuilder
      ensures recorded == Failure(IllegalState("Cannot insert version into '/path' at path segment index 2"))
    {
      recorded := PerformRequest(UsePathSegment(2));
      SentRequest(UsePathSegment(2));
      InsertAboveSize(UsePathSegment(2), V12, Request(["path"], [], []));
      PathSegments();
      OutOfRangeMessageForPath();
    }

    /** No version on the request: the client-wide default is inserted. */
    method DefaultVersion() returns (recorded: Result<Request, Error>)
      requires Initial()
      modifies webClientBuilder
      ensures recorded.Success? && GetHeader(recorded.value.headers, "X-API-Version") == Some("1.2")
    {
      var inserter := UseHeader("X-API-Version");
      webClientBuilder.DefaultApiVersion(V12);
      webClientBuilder.UseApiVersionInserter(inserter);
      var webClient := webClientBuilder.Build();
      recorded := Retrieve(webClient, Get("/path"));
      PathSegments();
      InsertHeader(inserter, V12, Request(["path"], [], []));
    }
  }
}
