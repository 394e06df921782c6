/** The client side: a builder that holds the client-wide configuration, the immutable
    client it builds, and how a request resolves its version and runs the inserter
    before it is sent. */
module WebClient {
  import opened Wrappers
  import opened Text
  import opened VersionInserter

  /** A built client: the path of its base URL as segments, its default version and
      its inserter, captured when the client was built. */
  datatype Client = Client(
    baseSegments: seq<string>,
    defaultApiVersion: Option<Version>,
    inserter: Option<ApiVersionInserter>)

  /** A GET request being specified: its URI path and its own version, if one was set. */
  datatype RequestSpec = RequestSpec(uri: string, apiVersion: Option<Version>) {

    /** Sets this request's own version; the URI stays. */
    function ApiVersion(version: Version): (spec: RequestSpec)
      ensures spec.uri == uri && spec.apiVersion == Some(version)
    {
      this.(apiVersion := Some(version))
    }
  }

  /** A GET to the URI that sets no version of its own. */
  function Get(uri: string): (spec: RequestSpec)
    ensures spec.uri == uri && spec.apiVersion.None?
  {
    RequestSpec(uri, None)
  }

  /** The version a request carries: its own if it set one, otherwise the client's
      default, otherwise none. */
  function EffectiveVersion(perRequest: Option<Version>, default: Option<Version>): (r: Option<Version>)
    ensures perRequest.Some? ==> r == perRequest
    ensures perRequest.None? ==> r == default
  {
    if perRequest.Some? then perRequest else default
  }

  /** The request before any version is inserted: the base URL's segments followed by
      the segments of the request URI, and no query parameters or headers. */
  function OutgoingRequest(client: Client, spec: RequestSpec): Request {
    Request(client.baseSegments + SplitPath(spec.uri), [], [])
  }

  /** The request handed to the transport, or the error that stops it. Without a version
      the request goes out as specified; with one, it fails for want of an inserter, or
      the inserter adds the version exactly once. */
  function Retrieve(client: Client, spec: RequestSpec): (r: Result<Request, Error>)
    ensures EffectiveVersion(spec.apiVersion, client.defaultApiVersion).None?
        ==> r == Success(OutgoingRequest(client, spec))
    ensures r == Failure(MissingInserter)
        <==> EffectiveVersion(spec.apiVersion, client.defaultApiVersion).Some? && client.inserter.None?
    ensures r.Success? && EffectiveVersion(spec.apiVersion, client.defaultApiVersion).Some?
        ==> Size(r.value) == Size(OutgoingRequest(client, spec)) + 1
  {
    var request := OutgoingRequest(client, spec);
    match EffectiveVersion(spec.apiVersion, client.defaultApiVersion)
    case None => Success(request)
    case Some(version) =>
      match client.inserter
      case None => Failure(MissingInserter)
      case Some(inserter) => Insert(inserter, version, request)
  }

  /** A URI path made of well-formed segments contributes exactly those segments,
      after the base URL's. */
  lemma OutgoingSegments(client: Client, segments: seq<string>, version: Option<Version>)
    requires forall i :: 0 <= i < |segments| ==> IsSegment(segments[i])
    ensures OutgoingRequest(client, RequestSpec(PathString(segments), version)).segments
         == client.baseSegments + segments
  {
    SplitPathString(segments);
  }

  /** A version set on the request is the one the client's inserter inserts. */
  lemma PerRequestVersionInserted(client: Client, spec: RequestSpec, inserter: ApiVersionInserter)
    requires client.inserter == Some(inserter) && spec.apiVersion.Some?
    ensures Retrieve(client, spec) == Insert(inserter, spec.apiVersion.value, OutgoingRequest(client, spec))
  {
  }

  /** Without a version on the request, the client's default version is inserted. */
  lemma DefaultVersionInserted(client: Client, spec: RequestSpec, inserter: ApiVersionInserter)
    requires client.inserter == Some(inserter) && spec.apiVersion.None?
    requires client.defaultApiVersion.Some?
    ensures Retrieve(client, spec)
         == Insert(inserter, client.defaultApiVersion.value, OutgoingRequest(client, spec))
  {
  }

  /** The mutable client builder: each configuration call updates one field, and
      Build captures the current configuration in an immutable client. */
  class WebClientBuilder {
    var baseUrl: string
    var defaultApiVersion: Option<Version>
    var apiVersionInserter: Option<ApiVersionInserter>

    constructor (baseUrl: string)
      ensures this.baseUrl == baseUrl
      ensures defaultApiVersion == None && apiVersionInserter == None
    {
      this.baseUrl := baseUrl;
      defaultApiVersion := None;
      apiVersionInserter := None;
    }

    method DefaultApiVersion(version: Version)
      modifies this
      ensures defaultApiVersion == Some(version)
      ensures baseUrl == old(baseUrl) && apiVersionInserter == old(apiVersionInserter)
    {
      defaultApiVersion := Some(version);
    }

    method UseApiVersionInserter(inserter: ApiVersionInserter)
      modifies this
      ensures apiVersionInserter == Some(inserter)
      ensures baseUrl == old(baseUrl) && defaultApiVersion == old(defaultApiVersion)
    {
      apiVersionInserter := Some(inserter);
    }

    /** The built client holds the builder's configuration as it is now; later calls on
        the builder do not affect it. */
    method Build() returns (client: Client)
      ensures client.baseSegments == SplitPath(baseUrl)
      ensures client.defaultApiVersion == defaultApiVersion
      ensures client.inserter == apiVersionInserter
    {
      client := Client(SplitPath(baseUrl), defaultApiVersion, apiVersionInserter);
    }
  }
}
