/** The argument checks that run before the discovery service is called: the
    non-empty query check and the resolution of the raw `limit` and `offset`
    request parameters into the paging values handed to the service. */
module Params {
  import opened Lang

  /** LIMIT_OFFSET_DEFAULT: the value a missing `limit` or `offset` takes,
      meaning "not set". */
  const UNSET: Int32 := -1

  /** The configured search limits (AtlasConfiguration.SEARCH_MAX_LIMIT and
      SEARCH_DEFAULT_LIMIT), passed in rather than read from configuration. */
  datatype Config = Config(maxLimit: Int32, defaultLimit: Int32)

  /** The resolved paging values (QueryParams). */
  datatype QueryParams = QueryParams(limit: Int32, offset: Int32)

  /** Every character of `s` from index `lo` up to `hi` is one that
      String.trim removes (at or below U+0020). */
  predicate BlankBetween(s: string, lo: int, hi: int) {
    forall k :: lo <= k < hi && 0 <= k < |s| ==> s[k] <= ' '
  }

  /** Every character of `s` is one that String.trim removes. */
  predicate Blank(s: string) {
    BlankBetween(s, 0, |s|)
  }

  /** Where String.trim's kept part starts: the first index at or after `i`
      whose character is above U+0020, or `|s|` if there is none. */
  function KeptStart(s: string, i: nat): (k: nat)
    requires i <= |s|
    ensures i <= k <= |s|
    ensures BlankBetween(s, i, k)
    ensures k < |s| ==> s[k] > ' '
    decreases |s| - i
  {
    if i < |s| && s[i] <= ' ' then KeptStart(s, i + 1) else i
  }

  /** Where String.trim's kept part ends: scanning back from `j` towards
      `lo`, the index just after the last character above U+0020, or `lo`
      if there is none. */
  function KeptEnd(s: string, lo: nat, j: nat): (k: nat)
    requires lo <= j <= |s|
    ensures lo <= k <= j
    ensures BlankBetween(s, k, j)
    ensures k > lo ==> s[k - 1] > ' '
    decreases j
  {
    if j > lo && s[j - 1] <= ' ' then KeptEnd(s, lo, j - 1) else j
  }

  /** Java's String.trim: the slice of `s` left after dropping its leading
      and trailing characters at or below U+0020. Nothing is left exactly
      when `s` is blank. */
  function Trim(s: string): (t: string)
    ensures exists i :: 0 <= i <= |s| - |t| && t == s[i..i + |t|] && BlankBetween(s, 0, i) && BlankBetween(s, i + |t|, |s|)
    ensures t != [] ==> t[0] > ' ' && t[|t| - 1] > ' '
    ensures t == [] <==> Blank(s)
  {
    var i := KeptStart(s, 0);
    var j := KeptEnd(s, i, |s|);
    var t := s[i..j];
    assert t == s[i..i + |t|];
    t
  }

  /** ParamChecker.notEmpty: a `null` query, or one that trims to nothing,
      is an illegal argument; any other query is returned as given. */
  function NotEmpty(value: Option<string>): (r: Result<string>)
    ensures r.Ok? <==> value.Some? && !Blank(value.value)
    ensures r.Ok? ==> r.value == value.value
    ensures r.Err? ==> r.failure == IllegalArgument(EmptyQuery)
  {
    match value
    case None => Err(IllegalArgument(EmptyQuery))
    case Some(s) => if |Trim(s)| == 0 then Err(IllegalArgument(EmptyQuery)) else Ok(s)
  }

  /** ParamChecker.lessThan: `value` must lie strictly below `bound`. */
  function LessThan(value: int, bound: int, reason: Reason): Result<()> {
    if value < bound then Ok(()) else Err(IllegalArgument(reason))
  }

  /** ParamChecker.greaterThan: `value` must lie strictly above `bound`. */
  function GreaterThan(value: int, bound: int, reason: Reason): Result<()> {
    if value > bound then Ok(()) else Err(IllegalArgument(reason))
  }

  /** validateQueryParams. An unset limit takes the configured default, which
      is itself never range-checked; a set limit must lie strictly between 0
      and the configured maximum. An unset offset becomes 0; a set offset must
      not be negative. The limit is checked first, its upper bound before its
      lower bound, then the offset. */
  function ValidateQueryParams(cfg: Config, limitParam: Int32, offsetParam: Int32): (r: Result<QueryParams>)
    ensures r.Ok? <==>
      (limitParam == UNSET || 0 < limitParam < cfg.maxLimit) && (offsetParam == UNSET || 0 <= offsetParam)
    ensures r.Ok? ==> r.value.limit == (if limitParam == UNSET then cfg.defaultLimit else limitParam)
    ensures r.Ok? ==> r.value.offset == (if offsetParam == UNSET then 0 else offsetParam)
    ensures limitParam != UNSET && limitParam >= cfg.maxLimit ==>
      r == Err(IllegalArgument(LimitNotBelowMax))
    ensures limitParam != UNSET && limitParam < cfg.maxLimit && limitParam <= 0 ==>
      r == Err(IllegalArgument(LimitNotPositive))
    ensures (limitParam == UNSET || 0 < limitParam < cfg.maxLimit) && offsetParam < UNSET ==>
      r == Err(IllegalArgument(NegativeOffset))
  {
    var limit: Int32 :-
      if limitParam == UNSET then Ok(cfg.defaultLimit)
      else
        var _ :- LessThan(limitParam, cfg.maxLimit, LimitNotBelowMax);
        var _ :- GreaterThan(limitParam, 0, LimitNotPositive);
        Ok(limitParam);
    var offset: Int32 :-
      if offsetParam == UNSET then Ok(0)
      else
        var _ :- GreaterThan(offsetParam, -1, NegativeOffset);
        Ok(offsetParam);
    Ok(QueryParams(limit, offset))
  }

  /** Both parameters unset: the configured default limit, whatever its value,
      and offset 0. */
  lemma DefaultPaging(cfg: Config)
    ensures ValidateQueryParams(cfg, UNSET, UNSET) == Ok(QueryParams(cfg.defaultLimit, 0))
  {
  }
}
