# Metadata discovery search: a Dafny model

This project models the decision logic of Apache Atlas's legacy discovery
resource (`MetadataDiscoveryResource`). The resource has three HTTP endpoints:

- `searchUsingQueryDSL` is a strict search in the Atlas DSL.
- `searchUsingFullText` is a strict full-text search.
- `search` tries the DSL endpoint first. If that fails, it retries the same
  request as a full-text search.

Before the discovery service is called, both strict endpoints check that the
query is not empty and resolve the raw `limit` and `offset` parameters. `-1`
means "unset". Each endpoint then calls its service once and wraps the rows in
a JSON envelope. It turns every failure into a `WebApplicationException` with
an HTTP status.

The model is written as pure functions:

- `lang.dfy` (module `Lang`) holds the Java notions the code relies on:
  `int` (`Int32`), `null` (`Option.None`), the throwables the catch clauses
  tell apart (`Failure`), a throw-or-value `Result`, and the status codes.
- `params.dfy` (module `Params`) holds `String.trim`, `ParamChecker.notEmpty`
  and `validateQueryParams`. The configured maximum and default limits come in
  as a `Config` value.
- `envelopes.dfy` (module `Envelopes`) holds the builder family. The response
  object is a map from the `AtlasClient` entry names (`Key`) to JSON values.
- `discovery.dfy` (module `Discovery`) holds the endpoints. The discovery
  service is given as two functions in a `Services` record. Every endpoint
  returns a `Run`: the reply (a returned response or a thrown status) plus the
  list of service calls it made, with their arguments. This lets contracts say
  which service was asked what.

## Model

| member | source | states |
|---|---|---|
| `Params.Trim` | webapp/src/main/java/org/apache/atlas/web/resources/MetadataDiscoveryResource.java:228 | The result is a contiguous slice of the query, and everything before and after that slice is at or below U+0020. A non-empty result starts and ends with a character above U+0020. So the result is empty exactly when every character is at or below U+0020, which is the emptiness test the query check applies. |
| `Params.NotEmpty` | webapp/src/main/java/org/apache/atlas/web/resources/MetadataDiscoveryResource.java:155 | A null or blank query is an illegal argument. Any other query passes unchanged. |
| `Params.ValidateQueryParams` | webapp/src/main/java/org/apache/atlas/web/resources/MetadataDiscoveryResource.java:181-201 | Paging resolves exactly when the limit is unset or lies strictly between 0 and the maximum, and the offset is unset or not negative. This covers every value below -1. An unset limit becomes the default limit and an unset offset becomes 0; set values are kept. Each rejection is an illegal argument. The limit's upper bound is checked first, then its lower bound, then the offset. |
| `Params.DefaultPaging` | webapp/src/main/java/org/apache/atlas/web/resources/MetadataDiscoveryResource.java:185-198 | With both parameters unset, paging is the configured default limit and offset 0. The default limit is not range-checked. |
| `Envelopes.Build` | webapp/src/main/java/org/apache/atlas/web/resources/MetadataDiscoveryResource.java:280-291 | A null query or query type is a null-pointer failure. A negative count is an illegal argument. Otherwise the envelope has exactly the request id, query, query type and count entries, holding the given values. |
| `Envelopes.BuildDsl` | webapp/src/main/java/org/apache/atlas/web/resources/MetadataDiscoveryResource.java:312-320 | Null results or a null query give a null-pointer failure. Otherwise the envelope has exactly the four base entries plus results and datatype. Its query type is "dsl", its results are the given rows, and its count is the number of rows. Its datatype is whatever the lookup on the result array yields (JSON null for Java null). |
| `Envelopes.BuildFullText` | webapp/src/main/java/org/apache/atlas/web/resources/MetadataDiscoveryResource.java:342-350 | Null results or a null query give a null-pointer failure. Otherwise the envelope has exactly the four base entries plus results, and no datatype entry. Its query type is "full-text", its results are the given rows, and its count is the number of rows. |
| `Envelopes.VariantsDifferOnlyInTagAndDatatype` | webapp/src/main/java/org/apache/atlas/web/resources/MetadataDiscoveryResource.java:312-350 | For the same query and rows, both variants succeed. They agree on every shared entry except the query type. The DSL envelope has exactly one extra entry, the datatype. |
| `Discovery.Endpoint` | webapp/src/main/java/org/apache/atlas/web/resources/MetadataDiscoveryResource.java:155-171 | A null or blank query, or paging that does not resolve, gives BAD_REQUEST and makes no service call. Otherwise the endpoint makes exactly one call with the checked query and the resolved limit and offset. A service answer gives an OK response holding the built envelope. A service failure is mapped to a status: an illegal argument gives BAD_REQUEST, a web error keeps its own status, and anything else gives INTERNAL_SERVER_ERROR. |
| `Discovery.SearchUsingQueryDsl` | webapp/src/main/java/org/apache/atlas/web/resources/MetadataDiscoveryResource.java:142-179 | Only the DSL service is ever called, so this endpoint never falls back. A returned response is OK, tagged "dsl", has a datatype entry, and its count equals the number of result rows. |
| `Discovery.SearchUsingFullText` | webapp/src/main/java/org/apache/atlas/web/resources/MetadataDiscoveryResource.java:215-252 | Only the full-text service is ever called, always with deleted entities included. A returned response is OK, tagged "full-text", has no datatype entry, and its count equals the number of result rows. |
| `Discovery.Search` | webapp/src/main/java/org/apache/atlas/web/resources/MetadataDiscoveryResource.java:101-124 | A null or blank query, or paging that does not resolve, gives BAD_REQUEST with no service call. At most two service calls are made. The first is always a DSL call. A second call happens exactly when the DSL service failed, and it is a full-text call with the same query, limit and offset and deleted entities included. Any returned response is OK, and a full-text envelope is returned only after the DSL service failed. |
| `Discovery.SearchPrefersDsl` | webapp/src/main/java/org/apache/atlas/web/resources/MetadataDiscoveryResource.java:106-110 | If the DSL service answers an admissible request, search returns the DSL envelope after exactly one DSL call. The full-text service is never asked. |
| `Discovery.SearchFallsBack` | webapp/src/main/java/org/apache/atlas/web/resources/MetadataDiscoveryResource.java:111-121 | If the DSL endpoint throws for any reason, search's reply is exactly the full-text endpoint's reply for the same raw limit and offset. Its calls are the DSL endpoint's calls followed by the full-text endpoint's calls. |
| `Discovery.SearchRecoversWithFullText` | webapp/src/main/java/org/apache/atlas/web/resources/MetadataDiscoveryResource.java:119-121 | If the DSL service fails and the full-text service answers, search returns the full-text envelope, which has no datatype entry. Both services are asked, in that order, with the same resolved paging. |
| `Discovery.SearchRejectsWithoutCalling` | webapp/src/main/java/org/apache/atlas/web/resources/MetadataDiscoveryResource.java:155-157 | If the query is null or blank, or the paging does not resolve, search ends in BAD_REQUEST and neither service is asked. |
| `Discovery.SearchFailureIsFullTextFailure` | webapp/src/main/java/org/apache/atlas/web/resources/MetadataDiscoveryResource.java:119-123 | Search throws only after the DSL endpoint has thrown. Its status is the one the full-text endpoint throws, so the fallback's failure propagates unchanged. |
| `Discovery.SearchKeepsDslReply` | webapp/src/main/java/org/apache/atlas/web/resources/MetadataDiscoveryResource.java:106-110 | Whenever the DSL endpoint returns, search is exactly that run and makes only DSL calls. The endpoints only ever return OK, so the non-OK status test never triggers a fallback by itself. |

## Behaviour of the code worth knowing

- **Error classification.** Both endpoints classify failures (lines 163-171
  and 236-244). An illegal argument becomes BAD_REQUEST, an existing
  `WebApplicationException` is rethrown unchanged, and any other throwable
  becomes INTERNAL_SERVER_ERROR. Neither endpoint falls back.
- **Builder preconditions.** `Preconditions.checkNotNull` on the query, the
  query type or the results throws a null-pointer exception. The endpoints
  catch it as a `Throwable`, so it would become INTERNAL_SERVER_ERROR.
  `Preconditions.checkArgument` on the count throws an illegal argument, which
  would become BAD_REQUEST. The model keeps the two apart. Inside the
  endpoints neither can fire, because the query is checked first and the
  count is an array size.
- **Datatype entry.** Line 318 looks the datatype name up on the result
  array node itself, not on a row. The model treats the outcome of that
  lookup as an opaque optional value carried by `ArrayNode`. A Java `null`
  becomes a JSON null entry.
- **Fallback trigger.** `search` falls back on a thrown exception or on a
  response whose status is not OK (lines 107-117). Both strict endpoints only
  ever return OK responses, and every failure leaves them as a
  `WebApplicationException`, which `catch (Exception e)` catches. So the
  fallback happens exactly when the DSL endpoint throws.
- **Null query.** A missing query parameter arrives as `null`. It is rejected
  by the same check as a blank one.
- `ParamChecker`, `Preconditions`, `AtlasClient` and Jackson are not part of
  this model. `ParamChecker.lessThan` and `greaterThan` are modelled as strict
  comparisons, following their names and the documented ranges
  `maxlimit > limit > 0` and `offset >= 0` (lines 93-94). `notEmpty` is
  modelled as rejecting `null` and any string that `String.trim` reduces to
  nothing, returning the string otherwise.

## Left out

- JAX-RS routing, annotations and content negotiation are left out. The
  `Response` object is reduced to a status and an entity.
- Logging and `AtlasPerfTracer` are left out; they have no effect on results.
- `Servlets.getRequestId` is left out. The request id is an opaque string in
  the `Context`.
- `Servlets.getErrorResponse` is left out. A thrown reply carries only its
  status, not the error body.
- JSON conversion (`AtlasType.toJson` and `AtlasJson.parseToV1ArrayNode`) is a
  foreign library call. It is folded into the service functions: they return
  either the parsed array node or a throwable, and a parse failure is an
  ordinary non-illegal-argument failure.
- The discovery service's semantics are left out: DSL parsing and evaluation,
  full-text indexing, and the meaning of `excludeDeletedEntities`. The model
  records that the full-text endpoint passes `false`.
- The combination rule for API and in-query limit and offset (lines 132-134)
  is implemented by the discovery service, not by this resource, so it is left
  out.
- Loading configuration is left out. `SEARCH_MAX_LIMIT` and
  `SEARCH_DEFAULT_LIMIT` are passed in as `Config`, the static
  `applicationProperties` is dropped, and `gremlinSearchEnabled` is dropped
  because no modelled logic uses it.
- The singleton instance and concurrency are left out. No mutable state is
  shared between requests.
- The builders' fluent setters are left out. Each variant's `build` takes the
  query and results directly, because it overwrites the count and query type
  itself.
