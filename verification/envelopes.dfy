/** The response envelope and the builders that produce it: a base builder
    holding the fields every response carries, and one variant per search kind
    that adds the result rows (and, for DSL results, a datatype entry). */
module Envelopes {
  import opened Lang

  /** A JSON value; result rows are opaque JSON values produced by the
      discovery service. */
  datatype Json =
    | JNull
    | JString(str: string)
    | JNumber(num: int)
    | JArray(items: seq<Json>)
    | JObject(fields: map<string, Json>)

  /** The rows of a JSON array node; its `size()` is a Java `int`. */
  type Rows = s: seq<Json> | |s| < 0x8000_0000

  /** A parsed result array: its rows, and what looking up the datatype
      field name on the array node itself yields (`None` for Java `null`). */
  datatype ArrayNode = ArrayNode(rows: Rows, datatypeLookup: Option<Json>)

  /** The entry names of a response object (AtlasClient.REQUEST_ID, QUERY,
      QUERY_TYPE, COUNT, RESULTS and DATATYPE). */
  datatype Key = RequestId | Query | QueryType | Count | Results | DataType

  /** The JSON object a builder produces. */
  type Envelope = map<Key, Json>

  /** QUERY_TYPE_DSL */
  const QUERY_TYPE_DSL: string := "dsl"
  /** QUERY_TYPE_FULLTEXT */
  const QUERY_TYPE_FULLTEXT: string := "full-text"

  /** The fields set on a JsonResponseBuilder before `build`. */
  datatype Builder = Builder(count: Int32, query: Option<string>, queryType: Option<string>)

  /** The JSON value an ObjectNode stores for a node that may be Java `null`:
      a `null` node is stored as JSON null. */
  function NodeOrNull(node: Option<Json>): Json {
    match node
    case Some(v) => v
    case None => JNull
  }

  /** The `count` entry of an envelope, if it holds a number. */
  function CountOf(e: Envelope): Option<int> {
    if Count in e && e[Count].JNumber? then Some(e[Count].num) else None
  }

  /** The `results` entry of an envelope, if it holds an array. */
  function RowsOf(e: Envelope): Option<seq<Json>> {
    if Results in e && e[Results].JArray? then Some(e[Results].items) else None
  }

  /** The `queryType` entry of an envelope, if it holds a string. */
  function QueryTypeOf(e: Envelope): Option<string> {
    if QueryType in e && e[QueryType].JString? then Some(e[QueryType].str) else None
  }

  /** The `query` entry of an envelope, if it holds a string. */
  function QueryOf(e: Envelope): Option<string> {
    if Query in e && e[Query].JString? then Some(e[Query].str) else None
  }

  /** JsonResponseBuilder.build. A missing query or query type is a null
      pointer, a negative count an illegal argument; otherwise the envelope
      holds exactly the request id, query, query type and count. */
  function Build(b: Builder, requestId: string): (r: Result<Envelope>)
    ensures r.Ok? <==> b.query.Some? && b.queryType.Some? && b.count >= 0
    ensures b.query.None? || b.queryType.None? ==> r == Err(NullPointer)
    ensures b.query.Some? && b.queryType.Some? && b.count < 0 ==> r == Err(IllegalArgument(NegativeCount))
    ensures r.Ok? ==> r.value.Keys == {RequestId, Query, QueryType, Count}
    ensures r.Ok? ==>
      && r.value[RequestId] == JString(requestId)
      && QueryOf(r.value) == b.query
      && QueryTypeOf(r.value) == b.queryType
      && CountOf(r.value) == Some(b.count as int)
  {
    if b.query.None? || b.queryType.None? then Err(NullPointer)
    else if b.count < 0 then Err(IllegalArgument(NegativeCount))
    else Ok(map[
      RequestId := JString(requestId),
      Query := JString(b.query.value),
      QueryType := JString(b.queryType.value),
      Count := JNumber(b.count as int)])
  }

  /** DSLJSONResponseBuilder.build: null results are a null pointer; otherwise
      the count becomes the number of rows, the query type "dsl", and the base
      envelope gains the rows and the datatype lookup's value (JSON null when
      the lookup yields `null`). */
  function BuildDsl(query: Option<string>, results: Option<ArrayNode>, requestId: string): (r: Result<Envelope>)
    ensures r.Ok? <==> query.Some? && results.Some?
    ensures r.Err? ==> r.failure == NullPointer
    ensures r.Ok? ==> r.value.Keys == {RequestId, Query, QueryType, Count, Results, DataType}
    ensures r.Ok? ==>
      && r.value[RequestId] == JString(requestId)
      && QueryOf(r.value) == query
      && QueryTypeOf(r.value) == Some(QUERY_TYPE_DSL)
      && RowsOf(r.value) == Some(results.value.rows)
      && CountOf(r.value) == Some(|results.value.rows|)
      && r.value[DataType] == NodeOrNull(results.value.datatypeLookup)
  {
    match results
    case None => Err(NullPointer)
    case Some(node) =>
      var b := Builder(|node.rows|, query, Some(QUERY_TYPE_DSL));
      var base :- Build(b, requestId);
      Ok(base[Results := JArray(node.rows)][DataType := NodeOrNull(node.datatypeLookup)])
  }

  /** FullTextJSonResponseBuilder.build: null results are a null pointer;
      otherwise the count becomes the number of rows, the query type
      "full-text", and the base envelope gains the rows and nothing else. */
  function BuildFullText(query: Option<string>, results: Option<ArrayNode>, requestId: string): (r: Result<Envelope>)
    ensures r.Ok? <==> query.Some? && results.Some?
    ensures r.Err? ==> r.failure == NullPointer
    ensures r.Ok? ==> r.value.Keys == {RequestId, Query, QueryType, Count, Results}
    ensures r.Ok? ==> DataType !in r.value
    ensures r.Ok? ==>
      && r.value[RequestId] == JString(requestId)
      && QueryOf(r.value) == query
      && QueryTypeOf(r.value) == Some(QUERY_TYPE_FULLTEXT)
      && RowsOf(r.value) == Some(results.value.rows)
      && CountOf(r.value) == Some(|results.value.rows|)
  {
    match results
    case None => Err(NullPointer)
    case Some(node) =>
      var b := Builder(|node.rows|, query, Some(QUERY_TYPE_FULLTEXT));
      var base :- Build(b, requestId);
      Ok(base[Results := JArray(node.rows)])
  }

  /** The two variants agree on every entry they share except the query type
      tag; the DSL envelope has one entry more, the datatype. */
  lemma VariantsDifferOnlyInTagAndDatatype(query: string, results: ArrayNode, requestId: string)
    ensures var dsl := BuildDsl(Some(query), Some(results), requestId);
            var ft := BuildFullText(Some(query), Some(results), requestId);
            && dsl.Ok? && ft.Ok?
            && dsl.value.Keys == ft.value.Keys + {DataType}
            && forall k :: k in ft.value && k != QueryType ==> dsl.value[k] == ft.value[k]
  {
  }
}
