# API-version insertion for the reactive web client

This project models how Spring's reactive `WebClient` puts an API version on an
outgoing request. An `ApiVersionInserter` has one placement and one formatter. The
placement is a request header, a query parameter, or a path segment at a given index.
The formatter turns the version into its wire string. By default it uses the version's
natural string form; a custom one such as `v -> "v" + v` can replace it. Each request
takes its own version if it set one, otherwise the client's default version. The
client's inserter then places that version before the request is sent.

The inserter's own implementation is not part of this model. Its behaviour is specified
from what `WebClientVersionTests` asserts.

Modules:

- `Wrappers`: `Option` and `Result`.
- `Text`: the decimal form of a number, paths built from segments and split back into
  them, and query strings built from name/value pairs.
- `VersionInserter`: the version, the formatter, the three placements, the inserter and
  its builder, the request parts the inserter touches, `Insert`, and its properties.
- `WebClient`: the built client as an immutable value, version resolution,
  `Retrieve`, and the mutable `WebClientBuilder` class.
- `ClientVersionTests`: the test class. Its `webClientBuilder` field is shared by the
  tests, and `PerformRequest` is their helper. Each test is a method whose
  postcondition is the test's assertion.

## Model

| member | source | states |
|---|---|---|
| VersionInserter.Insert | spring-webflux/src/test/java/org/springframework/web/reactive/function/client/WebClientVersionTests.java:59-88 | insertion fails, with an illegal-state error, exactly when the placement is a path segment whose index exceeds the number of segments; a success adds exactly one segment, parameter or header entry |
| VersionInserter.InsertBelowSize | spring-webflux/src/test/java/org/springframework/web/reactive/function/client/WebClientVersionTests.java:71-75 | an index below the segment count puts the formatted version at that index, keeps earlier segments, shifts later ones right by one, and leaves query and headers unchanged |
| VersionInserter.InsertAtSize | spring-webflux/src/test/java/org/springframework/web/reactive/function/client/WebClientVersionTests.java:77-81 | an index equal to the segment count succeeds and appends the formatted version as the last segment; nothing else changes |
| VersionInserter.InsertAboveSize | spring-webflux/src/test/java/org/springframework/web/reactive/function/client/WebClientVersionTests.java:83-88 | an index past the segment count fails with an illegal-state error: "Cannot insert version into '<original path>' at path segment index <index>" |
| VersionInserter.InsertPreservesSegments | spring-webflux/src/test/java/org/springframework/web/reactive/function/client/WebClientVersionTests.java:71-81 | a successful path-segment insertion adds exactly one segment, the formatted version; removing it gives back the original segments in order (as multisets: original plus the version) |
| VersionInserter.InsertQueryParam | spring-webflux/src/test/java/org/springframework/web/reactive/function/client/WebClientVersionTests.java:65-69 | query-parameter placement keeps path and headers, appends one (name, formatted) pair, and the rendered path+query grows by "?" (no query before) or "&" then "name=formatted" |
| VersionInserter.InsertHeader | spring-webflux/src/test/java/org/springframework/web/reactive/function/client/WebClientVersionTests.java:59-63 | header placement keeps path and query, appends one header entry; the named header then reads the formatted version and every other header reads as before |
| VersionInserter.FormatterPrecedence | spring-webflux/src/test/java/org/springframework/web/reactive/function/client/WebClientVersionTests.java:59-81 | for every placement that succeeds, the value placed (what the header reads, the last query pair's value, the segment at the index) is the custom formatter's rendering of the version when one is set, and the version's natural string form otherwise |
| VersionInserter.Format | spring-webflux/src/test/java/org/springframework/web/reactive/function/client/WebClientVersionTests.java:73 | the wire form is the custom formatter's output when one is set, otherwise the natural string form |
| VersionInserter.OutOfRangeMessage | spring-webflux/src/test/java/org/springframework/web/reactive/function/client/WebClientVersionTests.java:87 | the message begins "Cannot insert version into '", quotes the path right after it, and ends with the index in decimal |
| VersionInserter.PathAndQuery | spring-webflux/src/test/java/org/springframework/web/reactive/function/client/WebClientVersionTests.java:68 | the recorded path starts with "/" and with the rendered path, and is longer than the path exactly when there are query parameters |
| VersionInserter.Builder | spring-webflux/src/test/java/org/springframework/web/reactive/function/client/WebClientVersionTests.java:73 | a new builder has no placement and renders every version in its natural string form |
| VersionInserter.InserterBuilder.UseHeader | spring-webflux/src/test/java/org/springframework/web/reactive/function/client/WebClientVersionTests.java:61 | chooses the header placement and keeps the formatter chosen so far |
| VersionInserter.InserterBuilder.UseQueryParam | spring-webflux/src/test/java/org/springframework/web/reactive/function/client/WebClientVersionTests.java:67 | chooses the query-parameter placement and keeps the formatter chosen so far |
| VersionInserter.InserterBuilder.UsePathSegment | spring-webflux/src/test/java/org/springframework/web/reactive/function/client/WebClientVersionTests.java:73 | chooses the path-segment placement at the index and keeps the formatter chosen so far |
| VersionInserter.InserterBuilder.WithVersionFormatter | spring-webflux/src/test/java/org/springframework/web/reactive/function/client/WebClientVersionTests.java:73 | keeps the placement; every version is then rendered by the given formatter |
| VersionInserter.InserterBuilder.Build | spring-webflux/src/test/java/org/springframework/web/reactive/function/client/WebClientVersionTests.java:79 | the inserter has the chosen placement and renders every version as the builder's formatter does |
| VersionInserter.UseHeader | spring-webflux/src/test/java/org/springframework/web/reactive/function/client/WebClientVersionTests.java:61 | a header inserter that renders every version in its natural string form |
| VersionInserter.UseQueryParam | spring-webflux/src/test/java/org/springframework/web/reactive/function/client/WebClientVersionTests.java:67 | a query-parameter inserter that renders every version in its natural string form |
| VersionInserter.UsePathSegment | spring-webflux/src/test/java/org/springframework/web/reactive/function/client/WebClientVersionTests.java:86 | a path-segment inserter at the index that renders every version in its natural string form |
| VersionInserter.OutOfRangeMessageIdentifies | spring-webflux/src/test/java/org/springframework/web/reactive/function/client/WebClientVersionTests.java:87 | the out-of-range message determines both the path it quotes and the index it names |
| VersionInserter.GetHeader | spring-webflux/src/test/java/org/springframework/web/reactive/function/client/WebClientVersionTests.java:62 | the header value read is absent exactly when no entry has that name, and otherwise is the value of the last entry with that name |
| VersionInserter.BuilderAgreesWithShortcuts | spring-webflux/src/test/java/org/springframework/web/reactive/function/client/WebClientVersionTests.java:73-86 | each static shortcut equals the builder with that one placement and no formatter; a builder given a formatter builds the inserter with that placement and that custom formatter |
| Text.NatToString | spring-webflux/src/test/java/org/springframework/web/reactive/function/client/WebClientVersionTests.java:87 | the index is rendered as a non-empty run of decimal digits without a leading zero |
| Text.ParseNatToString | spring-webflux/src/test/java/org/springframework/web/reactive/function/client/WebClientVersionTests.java:87 | reading the rendered index back gives the index |
| Text.SplitPath | spring-webflux/src/test/java/org/springframework/web/reactive/function/client/WebClientVersionTests.java:101 | the segments of a request URI are non-empty and contain no "/" |
| Text.SplitPathString | spring-webflux/src/test/java/org/springframework/web/reactive/function/client/WebClientVersionTests.java:101 | splitting the path rendered from well-formed segments gives back those segments |
| Text.PathStringPrepend | spring-webflux/src/test/java/org/springframework/web/reactive/function/client/WebClientVersionTests.java:74 | a segment put in front renders as "/" + segment before the old path |
| Text.PathStringAppend | spring-webflux/src/test/java/org/springframework/web/reactive/function/client/WebClientVersionTests.java:80 | a segment added at the end renders as the old path + "/" + segment |
| Text.QueryStringAppend | spring-webflux/src/test/java/org/springframework/web/reactive/function/client/WebClientVersionTests.java:68 | adding a parameter opens the query with "?" when there was none, otherwise adds "&" after the existing parameters |
| WebClient.Get | spring-webflux/src/test/java/org/springframework/web/reactive/function/client/WebClientVersionTests.java:94 | a GET to the URI with no version of its own |
| WebClient.RequestSpec.ApiVersion | spring-webflux/src/test/java/org/springframework/web/reactive/function/client/WebClientVersionTests.java:101 | sets the request's own version and keeps its URI |
| WebClient.Retrieve | spring-webflux/src/test/java/org/springframework/web/reactive/function/client/WebClientVersionTests.java:94-101 | without a version the request goes out as specified; a version without an inserter fails with MissingInserter; otherwise a successful request carries exactly one entry more than before |
| WebClient.EffectiveVersion | spring-webflux/src/test/java/org/springframework/web/reactive/function/client/WebClientVersionTests.java:90-102 | a per-request version wins; without one the client's default is used |
| WebClient.PerRequestVersionInserted | spring-webflux/src/test/java/org/springframework/web/reactive/function/client/WebClientVersionTests.java:99-102 | a version set on the request is inserted by the client's inserter into the outgoing request |
| WebClient.DefaultVersionInserted | spring-webflux/src/test/java/org/springframework/web/reactive/function/client/WebClientVersionTests.java:90-97 | without a per-request version, the client-wide default version is inserted |
| WebClient.OutgoingSegments | spring-webflux/src/test/java/org/springframework/web/reactive/function/client/WebClientVersionTests.java:101 | a request URI made of well-formed segments contributes exactly those segments after the base URL's |
| WebClient.WebClientBuilder.constructor | spring-webflux/src/test/java/org/springframework/web/reactive/function/client/WebClientVersionTests.java:42-43 | a new builder has the given base URL and no default version or inserter |
| WebClient.WebClientBuilder.DefaultApiVersion | spring-webflux/src/test/java/org/springframework/web/reactive/function/client/WebClientVersionTests.java:93 | sets the client-wide default version and changes nothing else |
| WebClient.WebClientBuilder.UseApiVersionInserter | spring-webflux/src/test/java/org/springframework/web/reactive/function/client/WebClientVersionTests.java:100 | sets the inserter and changes nothing else |
| WebClient.WebClientBuilder.Build | spring-webflux/src/test/java/org/springframework/web/reactive/function/client/WebClientVersionTests.java:93 | the built client captures the base URL's segments, the default version and the inserter as they are at build time |
| ClientVersionTests.WebClientVersionTests.constructor | spring-webflux/src/test/java/org/springframework/web/reactive/function/client/WebClientVersionTests.java:40-43 | a fresh test instance has a fresh builder on base URL "/" with nothing configured |
| ClientVersionTests.WebClientVersionTests.PerformRequest | spring-webflux/src/test/java/org/springframework/web/reactive/function/client/WebClientVersionTests.java:99-102 | installs the inserter, builds a client and sends GET "/path" with version 1.2; the result is Retrieve on that client |
| ClientVersionTests.WebClientVersionTests.Header | spring-webflux/src/test/java/org/springframework/web/reactive/function/client/WebClientVersionTests.java:59-63 | header X-API-Version reads "1.2" |
| ClientVersionTests.WebClientVersionTests.QueryParam | spring-webflux/src/test/java/org/springframework/web/reactive/function/client/WebClientVersionTests.java:65-69 | the recorded path is "/path?api-version=1.2" |
| ClientVersionTests.WebClientVersionTests.PathSegmentIndexLessThanSize | spring-webflux/src/test/java/org/springframework/web/reactive/function/client/WebClientVersionTests.java:71-75 | index 0 with the "v" formatter records "/v1.2/path" |
| ClientVersionTests.WebClientVersionTests.PathSegmentIndexEqualToSize | spring-webflux/src/test/java/org/springframework/web/reactive/function/client/WebClientVersionTests.java:77-81 | index 1 with the "v" formatter records "/path/v1.2" |
| ClientVersionTests.WebClientVersionTests.PathSegmentIndexGreaterThanSize | spring-webflux/src/test/java/org/springframework/web/reactive/function/client/WebClientVersionTests.java:83-88 | index 2 fails with the illegal-state message "Cannot insert version into '/path' at path segment index 2" |
| ClientVersionTests.WebClientVersionTests.DefaultVersion | spring-webflux/src/test/java/org/springframework/web/reactive/function/client/WebClientVersionTests.java:90-97 | with default version 1.2 and no per-request version, header X-API-Version reads "1.2" |
| ClientVersionTests.SentRequest | spring-webflux/src/test/java/org/springframework/web/reactive/function/client/WebClientVersionTests.java:99-102 | what the helper sends is the inserter applied to version 1.2 and the single segment "path" |

## Left out

- The implementation of `org.springframework.web.client.ApiVersionInserter` is not part of this model. The model specifies what the tests observe.
- The mock server is left out: queuing its response, shutting it down, and taking the recorded request (lines 40, 46-56, 104-111). This is network I/O. The recorded request is modelled as the request `Retrieve` returns. Its path is `PathAndQuery`, and its header lookup is `GetHeader`.
- The reactive pipeline `retrieve().bodyToMono(String.class).block()` and the response body are left out. They are asynchronous transport.
- The version's numeric type (a Java double) is left out. A version is modelled by its natural string form only.
- The base URL is modelled by its path only ("/"). Scheme, host and port are network details.
- `Text.SplitPath` treats the whole request URI as a path. URI templates, query strings inside the URI, and percent-encoding are not modelled. Query values are rendered as plain `name=value`.
- VersionInserter.GetHeader: compares header names exactly. HTTP header names are case-insensitive; the tests use one spelling only.
- VersionInserter.Insert: header placement adds an entry. This is a modelling choice: the tests cannot tell adding from replacing, because `GetHeader` reads the last entry either way.
- VersionInserter.Insert: the out-of-range message quotes the path rebuilt from the request's segments, not the URI's path as written. The two agree for "/path", the only path the tests use. They differ for paths with empty, repeated or trailing separators (for example "/path/" is quoted as "/path"), and an empty path is quoted as "/".
- VersionInserter.InserterBuilder.Build: requires a placement to have been chosen. The tests never build without one, so that outcome is not modelled.
- VersionInserter.InserterBuilder.UseHeader, VersionInserter.InserterBuilder.UseQueryParam, VersionInserter.InserterBuilder.UsePathSegment: each requires that no placement was chosen yet. Choosing two placements is not exercised by the tests.
- WebClient.EffectiveVersion: when both a per-request and a default version are set, the per-request one wins. This is a modelling choice; no test sets both.
- WebClient.Retrieve: a request with a version but no inserter fails with `MissingInserter`, and a request with no version goes out unchanged. Both are modelling choices; no test exercises either case.
- A formatter that fails is not modelled. Formatters are total functions.
