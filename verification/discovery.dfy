/** The discovery endpoints: a strict DSL search, a strict full-text search,
    and the combined search that tries DSL first and falls back to full text.
    The discovery service is given as two functions, and every run records the
    service calls it made, so that contracts can say which service was asked
    what. */
module Discovery {
  import opened Lang
  import opened Params
  import opened Envelopes

  /** A call to the discovery service, with the arguments it received. */
  datatype Call =
    | DslCall(query: string, limit: Int32, offset: Int32)
    | FullTextCall(query: string, excludeDeletedEntities: bool, limit: Int32, offset: Int32)

  /** AtlasDiscoveryService.searchUsingDslQuery and searchUsingFullTextQuery,
      each followed by the conversion of its entities into a JSON array node.
      Either yields the array node, or the throwable raised by the service or
      by the conversion. */
  datatype Services = Services(
    dsl: (string, Int32, Int32) -> Result<ArrayNode>,
    fullText: (string, bool, Int32, Int32) -> Result<ArrayNode>)

  /** What one request sees: the search limits, the request id the transport
      assigned, and the discovery service. */
  datatype Context = Context(config: Config, requestId: string, services: Services)

  /** An HTTP response with its JSON entity. */
  datatype Response = Response(status: int, entity: Envelope)

  /** What an endpoint does: return a response, or throw a
      WebApplicationException carrying the given status. */
  datatype Reply = Returned(response: Response) | Raised(status: int)

  /** A reply together with the service calls made to produce it, in order. */
  datatype Run = Run(reply: Reply, calls: seq<Call>)

  /** Which of the two strict endpoints runs. */
  datatype Engine = DslEngine | FullTextEngine

  /** The outcome of an endpoint's try block and the calls it made. */
  datatype Attempt = Attempt(outcome: Result<Envelope>, calls: seq<Call>)

  /** The service call an endpoint makes for a checked query and resolved
      paging; the full-text endpoint never excludes deleted entities. */
  function CallFor(engine: Engine, query: string, p: QueryParams): Call {
    match engine
    case DslEngine => DslCall(query, p.limit, p.offset)
    case FullTextEngine => FullTextCall(query, false, p.limit, p.offset)
  }

  /** What the discovery service answers to a call. */
  function Answer(services: Services, c: Call): Result<ArrayNode> {
    match c
    case DslCall(q, limit, offset) => services.dsl(q, limit, offset)
    case FullTextCall(q, exclude, limit, offset) => services.fullText(q, exclude, limit, offset)
  }

  /** The envelope builder each endpoint uses. */
  function Shape(engine: Engine, query: string, node: ArrayNode, requestId: string): Result<Envelope> {
    match engine
    case DslEngine => BuildDsl(Some(query), Some(node), requestId)
    case FullTextEngine => BuildFullText(Some(query), Some(node), requestId)
  }

  /** An endpoint's try block: check the query, resolve the paging, call the
      service once, build the envelope. */
  function TryBlock(ctx: Context, engine: Engine, query: Option<string>, limit: Int32, offset: Int32): Attempt {
    match NotEmpty(query)
    case Err(f) => Attempt(Err(f), [])
    case Ok(q) =>
      match ValidateQueryParams(ctx.config, limit, offset)
      case Err(f) => Attempt(Err(f), [])
      case Ok(p) =>
        var call := CallFor(engine, q, p);
        match Answer(ctx.services, call)
        case Err(f) => Attempt(Err(f), [call])
        case Ok(node) => Attempt(Shape(engine, q, node, ctx.requestId), [call])
  }

  /** An endpoint's catch clauses: the status of the WebApplicationException
      thrown for a failure of the try block. */
  function StatusOf(f: Failure): int {
    match f
    case IllegalArgument(_) => BAD_REQUEST
    case WebApplication(status) => status
    case NullPointer => INTERNAL_SERVER_ERROR
    case OtherThrowable => INTERNAL_SERVER_ERROR
  }

  /** The query is accepted and the paging resolves: only then is the
      discovery service called. */
  predicate Admissible(ctx: Context, query: Option<string>, limit: Int32, offset: Int32) {
    query.Some? && !Blank(query.value) && ValidateQueryParams(ctx.config, limit, offset).Ok?
  }

  /** The body shared by searchUsingQueryDSL and searchUsingFullText. An
      empty query or bad paging is a bad request and calls nothing; otherwise
      the service is called exactly once with the resolved paging. A service
      answer becomes an OK response; a service failure becomes BAD_REQUEST for
      an illegal argument, keeps its own status for a web error, and is an
      internal server error otherwise. */
  function Endpoint(ctx: Context, engine: Engine, query: Option<string>, limit: Int32, offset: Int32): (r: Run)
    ensures !Admissible(ctx, query, limit, offset) ==> r == Run(Raised(BAD_REQUEST), [])
    ensures Admissible(ctx, query, limit, offset) ==>
      r.calls == [CallFor(engine, query.value, ValidateQueryParams(ctx.config, limit, offset).value)]
    ensures r.calls != [] ==>
      match Answer(ctx.services, r.calls[0])
      case Ok(node) =>
        r.reply.Returned? && r.reply.response == Response(OK, Shape(engine, query.value, node, ctx.requestId).value)
      case Err(f) =>
        r.reply.Raised? &&
        (f.IllegalArgument? ==> r.reply.status == BAD_REQUEST) &&
        (f.WebApplication? ==> r.reply.status == f.status) &&
        (f.NullPointer? || f.OtherThrowable? ==> r.reply.status == INTERNAL_SERVER_ERROR)
  {
    var attempt := TryBlock(ctx, engine, query, limit, offset);
    match attempt.outcome
    case Ok(envelope) => Run(Returned(Response(OK, envelope)), attempt.calls)
    case Err(f) => Run(Raised(StatusOf(f)), attempt.calls)
  }

  /** searchUsingQueryDSL: strict, never falls back; it asks only the DSL
      service, and an envelope it returns is tagged "dsl", carries a datatype
      entry and counts its rows. */
  function SearchUsingQueryDsl(ctx: Context, query: Option<string>, limit: Int32, offset: Int32): (r: Run)
    ensures forall c :: c in r.calls ==> c.DslCall?
    ensures r.reply.Returned? ==>
      var e := r.reply.response.entity;
      && r.reply.response.status == OK
      && QueryTypeOf(e) == Some(QUERY_TYPE_DSL)
      && DataType in e
      && RowsOf(e).Some? && CountOf(e) == Some(|RowsOf(e).value|)
  {
    Endpoint(ctx, DslEngine, query, limit, offset)
  }

  /** searchUsingFullText: strict; it asks only the full-text service, never
      excluding deleted entities, and an envelope it returns is tagged
      "full-text", has no datatype entry and counts its rows. */
  function SearchUsingFullText(ctx: Context, query: Option<string>, limit: Int32, offset: Int32): (r: Run)
    ensures forall c :: c in r.calls ==> c.FullTextCall? && !c.excludeDeletedEntities
    ensures r.reply.Returned? ==>
      var e := r.reply.response.entity;
      && r.reply.response.status == OK
      && QueryTypeOf(e) == Some(QUERY_TYPE_FULLTEXT)
      && DataType !in e
      && RowsOf(e).Some? && CountOf(e) == Some(|RowsOf(e).value|)
  {
    Endpoint(ctx, FullTextEngine, query, limit, offset)
  }

  /** search: run the DSL endpoint; if it throws or answers with a status other
      than OK, run the full-text endpoint with the same raw parameters and
      return whatever that does. */
  function Search(ctx: Context, query: Option<string>, limit: Int32, offset: Int32): (r: Run)
    ensures |r.calls| <= 2
    ensures r.calls != [] ==> r.calls[0].DslCall?
    ensures |r.calls| == 2 ==>
      r.calls[1] == FullTextCall(r.calls[0].query, false, r.calls[0].limit, r.calls[0].offset)
    ensures |r.calls| == 2 <==> r.calls != [] && Answer(ctx.services, r.calls[0]).Err?
    ensures !Admissible(ctx, query, limit, offset) ==> r == Run(Raised(BAD_REQUEST), [])
    ensures r.reply.Returned? ==> r.reply.response.status == OK
    ensures r.reply.Returned? && QueryTypeOf(r.reply.response.entity) == Some(QUERY_TYPE_FULLTEXT) ==>
      |r.calls| == 2
  {
    var dsl := SearchUsingQueryDsl(ctx, query, limit, offset);
    if dsl.reply.Returned? && dsl.reply.response.status == OK then
      assert QUERY_TYPE_DSL != QUERY_TYPE_FULLTEXT;
      dsl
    else
      var fullText := SearchUsingFullText(ctx, query, limit, offset);
      assert fullText.calls != [] ==>
        var p := ValidateQueryParams(ctx.config, limit, offset).value;
        && dsl.calls == [DslCall(query.value, p.limit, p.offset)]
        && fullText.calls == [FullTextCall(query.value, false, p.limit, p.offset)];
      Run(fullText.reply, dsl.calls + fullText.calls)
  }

  /** When the DSL service answers, search returns the DSL envelope and never
      asks the full-text service. */
  lemma SearchPrefersDsl(ctx: Context, query: string, limit: Int32, offset: Int32, node: ArrayNode)
    requires Admissible(ctx, Some(query), limit, offset)
    requires var p := ValidateQueryParams(ctx.config, limit, offset).value;
             ctx.services.dsl(query, p.limit, p.offset) == Ok(node)
    ensures var p := ValidateQueryParams(ctx.config, limit, offset).value;
            Search(ctx, Some(query), limit, offset) ==
            Run(Returned(Response(OK, BuildDsl(Some(query), Some(node), ctx.requestId).value)),
                [DslCall(query, p.limit, p.offset)])
  {
  }

  /** When the DSL endpoint fails for any reason, search gives exactly the
      full-text endpoint's reply for the same raw parameters, after the
      DSL endpoint's calls. */
  lemma SearchFallsBack(ctx: Context, query: Option<string>, limit: Int32, offset: Int32)
    requires SearchUsingQueryDsl(ctx, query, limit, offset).reply.Raised?
    ensures var r := Search(ctx, query, limit, offset);
            var fullText := SearchUsingFullText(ctx, query, limit, offset);
            && r.reply == fullText.reply
            && r.calls == SearchUsingQueryDsl(ctx, query, limit, offset).calls + fullText.calls
  {
  }

  /** When the DSL service fails but the full-text service answers, search
      returns the full-text envelope after asking both services with the same
      resolved paging. */
  lemma SearchRecoversWithFullText(ctx: Context, query: string, limit: Int32, offset: Int32, f: Failure, node: ArrayNode)
    requires Admissible(ctx, Some(query), limit, offset)
    requires var p := ValidateQueryParams(ctx.config, limit, offset).value;
             && ctx.services.dsl(query, p.limit, p.offset) == Err(f)
             && ctx.services.fullText(query, false, p.limit, p.offset) == Ok(node)
    ensures var p := ValidateQueryParams(ctx.config, limit, offset).value;
            var r := Search(ctx, Some(query), limit, offset);
            && r.reply == Returned(Response(OK, BuildFullText(Some(query), Some(node), ctx.requestId).value))
            && r.calls == [DslCall(query, p.limit, p.offset), FullTextCall(query, false, p.limit, p.offset)]
            && DataType !in r.reply.response.entity
  {
    var p := ValidateQueryParams(ctx.config, limit, offset).value;
    var dsl := SearchUsingQueryDsl(ctx, Some(query), limit, offset);
    assert dsl.calls == [DslCall(query, p.limit, p.offset)];
    assert Answer(ctx.services, dsl.calls[0]) == Err(f);
    SearchFallsBack(ctx, Some(query), limit, offset);
    var fullText := SearchUsingFullText(ctx, Some(query), limit, offset);
    assert fullText.calls == [FullTextCall(query, false, p.limit, p.offset)];
    assert Answer(ctx.services, fullText.calls[0]) == Ok(node);
  }

  /** An empty query or bad paging makes search a bad request, and neither
      service is asked. */
  lemma SearchRejectsWithoutCalling(ctx: Context, query: Option<string>, limit: Int32, offset: Int32)
    requires !Admissible(ctx, query, limit, offset)
    ensures Search(ctx, query, limit, offset) == Run(Raised(BAD_REQUEST), [])
  {
  }

  /** search throws only when the full-text endpoint throws the same status,
      after the DSL endpoint failed too. */
  lemma SearchFailureIsFullTextFailure(ctx: Context, query: Option<string>, limit: Int32, offset: Int32)
    requires Search(ctx, query, limit, offset).reply.Raised?
    ensures SearchUsingQueryDsl(ctx, query, limit, offset).reply.Raised?
    ensures SearchUsingFullText(ctx, query, limit, offset).reply == Search(ctx, query, limit, offset).reply
  {
  }

  /** The endpoints only ever return OK responses, so the status test in
      search never fires on its own: whenever the DSL endpoint returns, search
      is exactly that run. */
  lemma SearchKeepsDslReply(ctx: Context, query: Option<string>, limit: Int32, offset: Int32)
    requires SearchUsingQueryDsl(ctx, query, limit, offset).reply.Returned?
    ensures Search(ctx, query, limit, offset) == SearchUsingQueryDsl(ctx, query, limit, offset)
    ensures forall c :: c in Search(ctx, query, limit, offset).calls ==> c.DslCall?
  {
  }
}
