/** The request flags (QEXEC_F_*, QEXEC_FORMAT_*, QEXEC_OPTIMIZE,
    QEXEC_AGG_LOAD_ALL) and the rules that read or set them: the
    search/aggregate mode exclusion, DIALECT, FORMAT, the API version
    of the search context, the checks that close the query arguments, and
    the decision to skip rich iterator results. */
module Flags {
  import opened Errors
  import opened Text
  import opened Args

  datatype ReqFlag =
    | IsSearch           // QEXEC_F_IS_SEARCH
    | IsAggregate        // QEXEC_F_IS_AGGREGATE
    | IsCursor           // QEXEC_F_IS_CURSOR
    | NoRows             // QEXEC_F_NOROWS: count only
    | SendNoFields       // QEXEC_F_SEND_NOFIELDS
    | SendScores         // QEXEC_F_SEND_SCORES (WITHSCORES)
    | SendScoresAsField  // QEXEC_F_SEND_SCORES_AS_FIELD (ADDSCORES)
    | SendScoreExplain   // QEXEC_F_SEND_SCOREEXPLAIN
    | SendHighlight      // QEXEC_F_SEND_HIGHLIGHT
    | SendRawIds         // QEXEC_F_SENDRAWIDS
    | Typed              // QEXEC_F_TYPED (_NUM_SSTRING)
    | RequiredFields     // QEXEC_F_REQUIRED_FIELDS
    | FormatExpand       // QEXEC_FORMAT_EXPAND
    | FormatDefault      // QEXEC_FORMAT_DEFAULT
    | Optimize           // QEXEC_OPTIMIZE
    | AggLoadAll         // QEXEC_AGG_LOAD_ALL (LOAD *)

  type ReqFlags = set<ReqFlag>

  const MIN_DIALECT_VERSION: nat := 1
  const MAX_DIALECT_VERSION: nat := 4
  /** The first API version that returns every value of a multi-value field. */
  const APIVERSION_RETURN_MULTI_CMP_FIRST: nat := 3

  /** Both modes at once is the state the mode rules exclude. */
  predicate BothModes(f: ReqFlags) {
    IsSearch in f && IsAggregate in f
  }

  /** ensureSimpleMode: refused once the request is an aggregate. */
  function SimpleMode(f: ReqFlags): (r: Option<ReqFlags>)
    ensures r.None? <==> IsAggregate in f
    ensures r.Some? ==> r.value == f + {IsSearch}
  {
    if IsAggregate in f then None else Some(f + {IsSearch})
  }

  /** ensureExtendedMode: refused once the request is a search. */
  function ExtendedMode(f: ReqFlags): (r: Option<ReqFlags>)
    ensures r.None? <==> IsSearch in f
    ensures r.Some? ==> r.value == f + {IsAggregate}
  {
    if IsSearch in f then None else Some(f + {IsAggregate})
  }

  /** One option that needs a mode: a simple (search) option such as
      RETURN, HIGHLIGHT or SUMMARIZE, or an extended one such as GROUPBY. */
  datatype ModeRequest = Simple | Extended

  function RequestMode(f: ReqFlags, m: ModeRequest): Option<ReqFlags> {
    match m
    case Simple => SimpleMode(f)
    case Extended => ExtendedMode(f)
  }

  /** The flags after a series of mode requests; None once one is refused
      (the compiler stops at the first refusal). */
  function RunModes(f: ReqFlags, ms: seq<ModeRequest>): Option<ReqFlags>
  {
    if |ms| == 0 then Some(f)
    else match RunModes(f, ms[..|ms| - 1])
      case None => None
      case Some(g) => RequestMode(g, ms[|ms| - 1])
  }

  /** No series of mode requests can bring a request into both modes. */
  lemma {:induction false} ModesStayExclusive(f: ReqFlags, ms: seq<ModeRequest>)
    requires !BothModes(f)
    ensures RunModes(f, ms).Some? ==> !BothModes(RunModes(f, ms).value)
  {
    if |ms| > 0 {
      ModesStayExclusive(f, ms[..|ms| - 1]);
    }
  }

  /** From a request in neither mode, a series of mode requests succeeds
      exactly when all of them ask for the same mode, and the request then
      ends in that mode. */
  lemma {:induction false} ModesFromNeither(f: ReqFlags, ms: seq<ModeRequest>)
    requires IsSearch !in f && IsAggregate !in f
    ensures RunModes(f, ms).Some? <==> forall i :: 0 <= i < |ms| ==> ms[i] == ms[0]
    ensures RunModes(f, ms).Some? ==>
      (IsSearch in RunModes(f, ms).value <==> |ms| > 0 && ms[0] == Simple) &&
      (IsAggregate in RunModes(f, ms).value <==> |ms| > 0 && ms[0] == Extended)
  {
    if |ms| > 0 {
      var init := ms[..|ms| - 1];
      ModesFromNeither(f, init);
      if RunModes(f, init).Some? && |init| > 0 {
        assert init[0] == ms[0];
      }
      if !(forall i :: 0 <= i < |init| ==> init[i] == init[0]) {
        var i :| 0 <= i < |init| && init[i] != init[0];
        assert ms[i] != ms[0];
      }
    }
  }

  /** parseDialect: one unsigned integer between MIN_DIALECT_VERSION and
      MAX_DIALECT_VERSION. */
  function ParseDialect(c: Cursor): (r: Result<(nat, Cursor)>)
    ensures r.Ok? <==> !IsAtEnd(c) && ParseInt(Current(c)).Some?
                       && MIN_DIALECT_VERSION <= ParseInt(Current(c)).value <= MAX_DIALECT_VERSION
    ensures r.Ok? ==> r.value.0 == ParseInt(Current(c)).value && r.value.1 == Advance(c, 1)
    ensures r.Err? ==> r.error.code == EParseArgs
  {
    if NumRemaining(c) < 1 then Fail(EParseArgs, "Need an argument for DIALECT")
    else match GetUnsigned(c, GE1)
      case Got(d, rest) =>
        if d > MAX_DIALECT_VERSION then
          Fail(EParseArgs, "DIALECT requires a non negative integer >=1 and <= 4")
        else Ok((d, rest))
      case Failed(_) => Fail(EParseArgs, "DIALECT requires a non negative integer >=1 and <= 4")
  }

  /** parseValueFormat: FORMAT EXPAND or FORMAT STRING, either spelling
      in any case; an explicit format removes the default-format mark. */
  function ParseValueFormat(f: ReqFlags, c: Cursor): (r: Result<(ReqFlags, Cursor)>)
    ensures r.Err? <==> IsAtEnd(c) || !(EqualsIgnoreCase(Current(c), "EXPAND") || EqualsIgnoreCase(Current(c), "STRING"))
    ensures r.Err? ==> r.error.code == (if IsAtEnd(c) then EBadVal else EParseArgs)
    ensures r.Ok? ==> r.value.1 == Advance(c, 1) && FormatDefault !in r.value.0
    ensures r.Ok? ==> (FormatExpand in r.value.0 <==> EqualsIgnoreCase(Current(c), "EXPAND"))
    ensures r.Ok? ==> r.value.0 - {FormatExpand} == f - {FormatExpand, FormatDefault}
  {
    match GetString(c)
    case Failed(_) => Fail(EBadVal, "Need an argument for FORMAT")
    case Got(s, rest) =>
      if EqualsIgnoreCase(s, "EXPAND") then Ok(((f + {FormatExpand}) - {FormatDefault}, rest))
      else if EqualsIgnoreCase(s, "STRING") then Ok((f - {FormatExpand, FormatDefault}, rest))
      else Fail(EParseArgs, "FORMAT " + s + " is not supported")
  }

  /** SetValueFormat: a default format becomes STRING; EXPAND needs RESP3,
      a JSON index and a RedisJSON API of version 4 or more (`japiVer`).
      The reported reason is the first missing one. */
  function SetValueFormat(isResp3: bool, isJson: bool, japiVer: int, f: ReqFlags): (r: Result<ReqFlags>)
    ensures r.Err? <==> FormatExpand in f && FormatDefault !in f && !(isResp3 && isJson && japiVer >= 4)
    ensures r.Err? ==> r.error.code == EBadVal
    ensures r.Ok? ==> FormatDefault !in r.value && r.value - {FormatExpand} == f - {FormatExpand, FormatDefault}
    ensures r.Ok? ==> (FormatExpand in r.value <==> FormatExpand in f && FormatDefault !in f)
  {
    var g := if FormatDefault in f then f - {FormatExpand, FormatDefault} else f;
    if FormatExpand in g then
      if !isResp3 then Fail(EBadVal, "EXPAND format is only supported with RESP3")
      else if !isJson then Fail(EBadVal, "EXPAND format is only supported with JSON")
      else if japiVer < 4 then Fail(EBadVal, "EXPAND format requires a newer RedisJSON (with API version RedisJSON_V4)")
      else Ok(g)
    else Ok(g)
  }

  /** The parts of the search context SetSearchCtx writes. */
  datatype SearchCtx = SearchCtx(expanded: bool, apiVersion: nat)

  /** SetSearchCtx: the API version is the dialect, raised to at least
      APIVERSION_RETURN_MULTI_CMP_FIRST when the EXPAND format is on. */
  function SetSearchCtx(ctx: SearchCtx, f: ReqFlags, dialect: nat): (r: SearchCtx)
    ensures FormatExpand in f ==> r.expanded
    ensures FormatExpand in f ==> r.apiVersion >= APIVERSION_RETURN_MULTI_CMP_FIRST && r.apiVersion >= dialect
    ensures FormatExpand in f ==> r.apiVersion == APIVERSION_RETURN_MULTI_CMP_FIRST || r.apiVersion == dialect
    ensures FormatExpand !in f ==> r == ctx.(apiVersion := dialect)
  {
    if FormatExpand in f then
      SearchCtx(true, if APIVERSION_RETURN_MULTI_CMP_FIRST > dialect then APIVERSION_RETURN_MULTI_CMP_FIRST else dialect)
    else ctx.(apiVersion := dialect)
  }

  /** The `forceLoad` of AREQ_BuildPipeline: a JSON index read under an API
      version that does not keep every value of a multi-value field. */
  predicate ForceLoad(isJson: bool, apiVersion: nat) {
    isJson && apiVersion < APIVERSION_RETURN_MULTI_CMP_FIRST
  }

  /** With EXPAND on, results never need the forced reload of JSON fields. */
  lemma ExpandNeverForcesLoad(ctx: SearchCtx, f: ReqFlags, dialect: nat, isJson: bool)
    requires FormatExpand in f
    ensures !ForceLoad(isJson, SetSearchCtx(ctx, f, dialect).apiVersion)
  {
  }

  /** The checks that close parseQueryArgs: an empty numeric or geo filter
      value is refused from dialect 2, optimisation is on by default from
      dialect 4 unless WITHCOUNT or WITHOUTCOUNT was given, EXPLAINSCORE
      needs WITHSCORES, and FT.SEARCH refuses ADDSCORES. */
  function QueryArgsEpilogue(f: ReqFlags, dialect: nat, hasEmptyFilterValue: bool,
                             optimizationSpecified: bool): (r: Result<ReqFlags>)
    ensures r.Err? <==> (dialect >= 2 && hasEmptyFilterValue)
                        || (SendScoreExplain in f && SendScores !in f)
                        || (IsSearch in f && SendScoresAsField in f)
    ensures r.Err? ==> r.error.code == EParseArgs
    ensures r.Ok? ==> r.value - {Optimize} == f - {Optimize}
    ensures r.Ok? ==> (Optimize in r.value <==> Optimize in f || (!optimizationSpecified && dialect >= 4))
  {
    if dialect >= 2 && hasEmptyFilterValue then
      Fail(EParseArgs, "Numeric/Geo filter value/s cannot be empty")
    else
      var g := if !optimizationSpecified && dialect >= 4 then f + {Optimize} else f;
      if SendScoreExplain in g && SendScores !in g then
        Fail(EParseArgs, "EXPLAINSCORE must be accompanied with WITHSCORES")
      else if IsSearch in g && SendScoresAsField in g then
        Fail(EParseArgs, "ADDSCORES is not supported on FT.SEARCH")
      else Ok(g)
  }

  /** IsScorerNeeded: scores are returned, as a column or as a field. */
  predicate ScorerNeeded(f: ReqFlags) {
    SendScores in f || SendScoresAsField in f
  }

  /** The Search_CanSkipRichResults decision at the end of AREQ_Compile. */
  function CanSkipRichResults(f: ReqFlags, hasQuerySortby: bool): (r: bool)
    ensures SendHighlight in f ==> !r
    ensures ScorerNeeded(f) ==> !r
    ensures IsSearch in f && !hasQuerySortby ==> !r
    ensures SendHighlight !in f && !ScorerNeeded(f) && (IsSearch !in f || hasQuerySortby) ==> r
  {
    SendHighlight !in f && !ScorerNeeded(f) && (IsSearch !in f || hasQuerySortby)
  }

  /** The cursor idle time after parseCursorSettings: a value of 0 or one above
      the configured maximum becomes the maximum. */
  function ClampMaxIdle(requested: nat, configured: nat): (r: nat)
    ensures r <= configured
    ensures 0 < requested <= configured ==> r == requested
    ensures !(0 < requested <= configured) ==> r == configured
  {
    if requested == 0 || requested > configured then configured else requested
  }
}
