# Aggregate request parsing and pipeline building

This is a model of how RediSearch turns an `FT.SEARCH` or `FT.AGGREGATE`
command into an aggregate request (`AREQ`) and then into a chain of result
processors. The model follows `src/aggregate/aggregate_request.c` and covers:

- the search/aggregate mode flags, which exclude each other;
- the cursor, dialect, FORMAT, LIMIT and SORTBY arguments;
- the RETURN list, with the fields it marks as explicitly returned;
- the LOAD, GROUPBY and REDUCE steps, including the generated reducer
  aliases and the key registries (`RLookup`) the steps read from and write to;
- the result processors the plan is compiled into: the loader, the grouper,
  the sorter, the pager and the counter;
- the PREFIX coherence check.

Modules follow the source's concerns:
- `Args` models the argument cursor.
- `Text` has case folding and `strtol`.
- `Flags` and `Request` model the request object.
- `Fields` models the returned fields.
- `Aliases` models `path [AS name]` lists.
- `Registry` models `RLookup`.
- `Chain` models the processor chain.
- `Arrange`, `Group`, `GroupRP`, `Load` and `Pipeline` model the plan steps and their compilation.

Objects the C code updates in place are classes:
- the request;
- the field list;
- a registry;
- the GROUPBY and LOAD steps;
- the query iterator with its linked processors.

Each mutating method is proved equal to a pure function of the old state. The lemmas state what those functions mean.

## Model

| member | source | states |
|---|---|---|
| Flags.SimpleMode | src/aggregate/aggregate_request.c:36-42 | refused exactly when the request is already an aggregate; otherwise the search flag is added and nothing else changes |
| Flags.ExtendedMode | src/aggregate/aggregate_request.c:50-59 | refused exactly when the request is already a search; otherwise the aggregate flag is added |
| Flags.ModesStayExclusive | src/aggregate/aggregate_request.c:36-59 | any sequence of mode requests that succeeds never leaves both mode flags set |
| Flags.ModesFromNeither | src/aggregate/aggregate_request.c:36-59 | starting with no mode, a sequence of mode requests succeeds exactly when every request asks for the same mode |
| Request.Request.EnsureSimpleMode | src/aggregate/aggregate_request.c:36-42 | the request's flags become those of SimpleMode on success and stay unchanged on refusal |
| Request.Request.EnsureExtendedMode | src/aggregate/aggregate_request.c:50-59 | as SimpleMode for the aggregate mode; the refusal carries the EINVAL "mutually exclusive" error naming the option |
| Flags.ParseDialect | src/aggregate/aggregate_request.c:160-174 | succeeds exactly when a number from 1 to 4 follows; it yields that number and consumes one token; otherwise EPARSEARGS |
| Flags.ParseValueFormat | src/aggregate/aggregate_request.c:177-194 | only EXPAND or STRING, in any case, are accepted; a missing value is EBADVAL and another word EPARSEARGS; EXPAND is set exactly for EXPAND; the default flag is cleared and no other flag changes |
| Flags.SetValueFormat | src/aggregate/aggregate_request.c:212-233 | a default format drops EXPAND; an explicit EXPAND is refused with EBADVAL unless RESP3, JSON and JSON API version 4 or later all hold |
| Flags.SetSearchCtx | src/aggregate/aggregate_request.c:235-242 | with EXPAND the context is marked expanded and its API version is the larger of 3 and the dialect; otherwise its API version is the dialect |
| Flags.ExpandNeverForcesLoad | src/aggregate/aggregate_request.c:1575 | with EXPAND the API version is never below 3, so force-loading of JSON fields is never chosen |
| Flags.QueryArgsEpilogue | src/aggregate/aggregate_request.c:582-601 | refused, with EPARSEARGS, exactly for an empty filter value from dialect 2, EXPLAINSCORE without WITHSCORES, or ADDSCORES on a search; returns optimize on by default from dialect 4 when not specified; no other flag changes |
| Flags.CanSkipRichResults | src/aggregate/aggregate_request.c:984-990 | the three conditions of the source: no highlight, no scores, and no implicit sort by score (not a search, or a search with SORTBY); Pipeline.SkipRichResultsNoScoreSort and Pipeline.ScoreSortKeepsRichResults tie the third to the arrangement |
| Flags.ClampMaxIdle | src/aggregate/aggregate_request.c:125-127 | the idle time is the requested one when it is positive and within the configured one, otherwise the configured one |
| Request.CursorValue | src/aggregate/aggregate_request.c:107-123 | a MAXIDLE/COUNT value is read exactly when a number follows; otherwise the error is "Bad arguments for" the option |
| Request.CursorArgsMeaning | src/aggregate/aggregate_request.c:107-123 | the settings read are positive 32-bit values or the previous ones; the cursor stops at the end or at a token that is neither option |
| Request.CursorArgsRoundTrip | src/aggregate/aggregate_request.c:107-123 | `MAXIDLE i COUNT n` followed by anything else reads back i and n and stops after them |
| Request.Request.ParseCursorSettings | src/aggregate/aggregate_request.c:107-130 | on success the chunk size is the value read, the idle time is clamped, and the cursor flag is set; on error nothing changes |
| Load.ParseLoad | src/aggregate/aggregate_request.c:860-880 | errors are EPARSEARGS; on success only the load-all flag may be added, the step loads all exactly when that flag is set, and the cursor moves forward |
| Load.ParseLoadAccepts | src/aggregate/aggregate_request.c:860-880 | LOAD is accepted exactly when `*` follows, or a 32-bit count no larger than the number of remaining tokens |
| Load.ParseLoadRoundTrip | src/aggregate/aggregate_request.c:860-880 | `LOAD n e1..en` reads back exactly the n entries and keeps the previous load-all flag |
| Load.ParseLoadCount | src/aggregate/aggregate_request.c:860-880 | when a counted list can be read, LOAD takes exactly that list |
| Load.ParseLoadStar | src/aggregate/aggregate_request.c:863-876 | `LOAD *` sets the load-all flag, with no entries, and consumes one token |
| Request.Request.HandleLoad | src/aggregate/aggregate_request.c:860-895 | on success a fresh, empty LOAD step holding the parsed entries, with the flags of ParseLoad; on error no step and no flag change |
| Load.LoadStep.constructor | src/aggregate/aggregate_request.c:882-891 | the step holds its entries from their start and no loaded key |
| Load.LoadFromKeeps | src/aggregate/aggregate_request.c:1645-1671 | keys already in the registry are kept unchanged; keys loaded earlier stay first; each newly loaded key was absent before and is in the registry after; newly loaded keys are distinct |
| Load.LoadFromList | src/aggregate/aggregate_request.c:1645-1671 | the entries fail exactly where the `path [AS name]` list fails, with the same error; on success every entry's name is in the registry |
| Load.LoadEntries | src/aggregate/aggregate_request.c:1645-1671 | the registry and the step's loaded keys become exactly those of the LOAD loop function over the old state |
| Load.PushLoader | src/aggregate/aggregate_request.c:1673-1680 | a loader is pushed exactly when keys were loaded or everything is loaded; on JSON the registry stops claiming all fields are loaded |
| Load.LoadRP | src/aggregate/aggregate_request.c:1635-1682 | LOAD after a projection is refused with EINVAL and nothing changes; otherwise the registry and the loaded keys follow the loop; an entry's error is returned; else the loader stages are appended to the chain |
| Arrange.Uniform | src/aggregate/aggregate_request.c:378-380 | the initial direction map has 64 entries, all ascending |
| Arrange.ParseLimit | src/aggregate/aggregate_request.c:252-291 | accepted exactly when two unsigned numbers follow and the limits for the mode hold; bad arguments are EPARSEARGS and out-of-range values ELIMIT; on success the step is limited with that offset and limit; limit 0 adds the no-rows and no-fields flags; two tokens are consumed |
| Arrange.SortFieldsMeaning | src/aggregate/aggregate_request.c:410-437 | the sort keys are the `@` tokens without their `@`, and each key's direction is that of the ASC/DESC that follows it |
| Arrange.SortFieldsAccepted | src/aggregate/aggregate_request.c:410-437 | the sort list is accepted exactly when it is well formed: each token is a key or a direction after a key, with at most 64 keys |
| Arrange.StepEncodes | src/aggregate/aggregate_request.c:425-430 | each accepted token keeps the direction map in step with the keys read so far |
| Arrange.StepAccepted | src/aggregate/aggregate_request.c:413-435 | a single token is accepted exactly when it is a key within the 64-key bound, or a direction after a key |
| Arrange.SortFieldsErrorSticks | src/aggregate/aggregate_request.c:410-437 | once a sort list is refused, adding tokens does not make it accepted |
| Arrange.ParseSortFields | src/aggregate/aggregate_request.c:410-437 | a refused sort list fails with EPARSEARGS or, for more than 64 keys, ELIMIT |
| Arrange.WalkSortFields | src/aggregate/aggregate_request.c:410-437 | the loop over the sort tokens computes the sort-list function |
| Arrange.LegacySortFields | src/aggregate/aggregate_request.c:384-413 | legacy SORTBY succeeds exactly when a token follows, else EPARSEARGS; that token is the single key; only a DESC after it makes key 0 descending and every other key stays ascending; a following ASC or DESC is consumed |
| Arrange.ReadLegacySortFields | src/aggregate/aggregate_request.c:384-413 | computes LegacySortFields, so it has the single key, the DESC-only descending bit and the consumed direction stated there |
| Arrange.ReadCountedSortFields | src/aggregate/aggregate_request.c:396-437 | computes the counted SORTBY reading |
| Arrange.CountedSortbyMeaning | src/aggregate/aggregate_request.c:396-458 | a counted SORTBY succeeds exactly when its list is well formed and any MAX has an unsigned number; it stores the keys and directions the list spells; the limit becomes MAX's number, or stays without MAX |
| Arrange.SortMax | src/aggregate/aggregate_request.c:439-458 | without MAX the limit and the cursor stay; `MAX n` with n an unsigned int sets the limit to n and consumes two tokens; MAX on FT.SEARCH or with a bad number is EPARSEARGS; only limit, directions and keys of the step change |
| Arrange.ApplySortMax | src/aggregate/aggregate_request.c:439-458 | computes SortMax, so MAX sets the limit to its number, is refused on FT.SEARCH or a bad number, and its absence keeps the limit and cursor |
| Arrange.Sortby | src/aggregate/aggregate_request.c:362-465 | a second SORTBY is EPARSEARGS and every error is EPARSEARGS or ELIMIT; legacy SORTBY succeeds exactly when a field follows and no MAX comes after it, storing that one key, key 0 descending exactly after DESC, the rest ascending, and the limit unchanged; only limit, directions and keys of the step change; the counted form is stated by Arrange.CountedSortbyMeaning |
| Arrange.ParseSortby | src/aggregate/aggregate_request.c:362-465 | computes Sortby, so it has the legacy behaviour, the error codes and the frame stated there, and the counted list and MAX stated by Arrange.CountedSortbyMeaning |
| Arrange.AsWrittenKeysOnly | src/aggregate/aggregate_request.c:425-430 | as written, adding keys without directions is accepted and leaves the direction map alone |
| Arrange.LeadingDirectionAsWritten | src/aggregate/aggregate_request.c:425-430 | as written, `DESC` before 64 keys is accepted and turns the 64th key descending; the corrected parser refuses it |
| Fields.FindField | src/aggregate/aggregate_request.c:77-83 | finds the first field of that name, or reports that no field has it |
| Fields.FieldList.GetCreateField | src/aggregate/aggregate_request.c:77-91 | an existing field keeps its index and its contents; a new name appends a field with that name and path |
| Fields.FieldList.RestrictReturn | src/aggregate/aggregate_request.c:93-105 | the list keeps exactly its explicitly returned fields, in order |
| Fields.ExplicitMembers | src/aggregate/aggregate_request.c:93-105 | the restricted list is no longer, and holds exactly the explicitly returned fields |
| Fields.ExplicitIdempotent | src/aggregate/aggregate_request.c:93-105 | restricting twice is restricting once |
| Fields.ExplicitAppend | src/aggregate/aggregate_request.c:93-105 | restriction distributes over concatenation |
| Fields.FieldList.MarkExplicit | src/aggregate/aggregate_request.c:641 | only that field changes, and it becomes explicitly returned |
| Fields.FieldList.ReturnOne | src/aggregate/aggregate_request.c:626-641 | the list becomes that of marking one RETURN entry |
| Fields.MarkReturned | src/aggregate/aggregate_request.c:626-641 | the entry's name is returned afterwards; other fields are unchanged; names stay distinct; only fields of that name are appended |
| Fields.MarkAllDistinct | src/aggregate/aggregate_request.c:626-642 | marking a RETURN list keeps field names distinct |
| Fields.MarkAllReturnsListed | src/aggregate/aggregate_request.c:626-642 | every listed name is returned |
| Fields.MarkAllOnlyListed | src/aggregate/aggregate_request.c:626-642 | a returned field was returned before or is listed |
| Fields.MarkedStays | src/aggregate/aggregate_request.c:626-642 | a field already returned stays returned |
| Fields.FieldList.ReturnFields | src/aggregate/aggregate_request.c:617-644 | the list is flagged as an explicit RETURN; the call succeeds exactly when the RETURN list reads, and otherwise fails with its error; on success the fields are the old ones marked by the list and restricted to the returned ones |
| Aliases.NextAlias | src/aggregate/aggregate_request.c:628-638 | reads `path [AS name]`: the path maybe without its `@`, a name that is never `AS`, the cursor moving forward; fails with EPARSEARGS exactly when AS has no name after it |
| Aliases.AliasListRoundTrip | src/aggregate/aggregate_request.c:626-642 | any list of entries whose names are not `AS`, once spelled, reads back exactly |
| Registry.ReadKey | src/aggregate/aggregate_request.c:1210 | a key is read exactly when the registry has it |
| Registry.WriteKey | src/aggregate/aggregate_request.c:1224-1227 | a write is refused exactly when the name exists and may not be overridden; otherwise that one key is set |
| Registry.Lookup.GetKeyWrite | src/aggregate/aggregate_request.c:1224-1227 | the registry changes as WriteKey says and only on success |
| Registry.LoadKey | src/aggregate/aggregate_request.c:1666-1671 | a load yields nothing exactly when the name exists; otherwise it adds the key, marked as a schema source when the path is in the schema |
| Registry.Lookup.GetKeyLoad | src/aggregate/aggregate_request.c:1666-1671 | the registry changes as LoadKey says and the new key is returned |
| Group.GetReducerAlias | src/aggregate/aggregate_request.c:647-675 | the generated alias is `__generated_alias` followed by the lower-cased function and arguments, without their `@`, joined by commas |
| Group.AppendArgs | src/aggregate/aggregate_request.c:653-667 | appends the remaining arguments without their `@`, comma separated |
| Group.SkipAts | src/aggregate/aggregate_request.c:658-662 | drops every leading `@` |
| Group.ReducerAliasShape | src/aggregate/aggregate_request.c:647-675 | the alias starts with the generated prefix and is entirely lower case |
| Group.ReducerAliasIgnoresCase | src/aggregate/aggregate_request.c:647-675 | function names that differ only in case give the same alias |
| Group.ReducerAliasIgnoresAts | src/aggregate/aggregate_request.c:658-662 | arguments that differ only by a leading `@` give the same alias |
| Group.StrippedArgsIgnoreAts | src/aggregate/aggregate_request.c:658-662 | stripping `@` from arguments with and without it gives the same list |
| Group.ReadReducer | src/aggregate/aggregate_request.c:712-744 | a reducer keeps its name, starts visible with its argument list at its start, and the cursor moves forward; errors are EPARSEARGS |
| Group.ReadAlias | src/aggregate/aggregate_request.c:726-739 | an optional `AS name` sets only the alias; a missing name is EPARSEARGS |
| Group.ReadReducerRoundTrip | src/aggregate/aggregate_request.c:712-744 | `n args [AS alias]` reads back the arguments and the alias, or the generated alias when none is given |
| Group.GroupStep.constructor | src/aggregate/aggregate_request.c:750-758 | a step with those properties, no reducers and a fresh empty registry |
| Group.GroupStep.AddReducer | src/aggregate/aggregate_request.c:712-744 | on success exactly the reducer read is appended; on error the reducers are unchanged (the tentative one is popped) |
| Group.GroupStep.ReduceClause | src/aggregate/aggregate_request.c:783-791 | computes one REDUCE clause and appends its reducer only when it is well formed |
| Group.GroupStep.ReduceAll | src/aggregate/aggregate_request.c:783-791 | appends exactly the reducers of the REDUCE clauses and returns their outcome |
| Group.NextClause | src/aggregate/aggregate_request.c:783-791 | a well-formed clause moves the cursor forward |
| Group.FirstMatchMeaning | src/aggregate/aggregate_request.c:697-710 | finds the first reducer with that name and those arguments, or none |
| Group.FindReducer | src/aggregate/aggregate_request.c:697-710 | nothing is found when the count cannot be read; otherwise the first match after reading the count |
| Group.FirstWithoutAt | src/aggregate/aggregate_request.c:770-776 | the first property without a leading `@`, or none when all have it |
| Group.GroupbyProperties | src/aggregate/aggregate_request.c:760-776 | properties are accepted exactly when a counted list reads and each property starts with `@`; errors are EPARSEARGS |
| Group.ParseGroupby | src/aggregate/aggregate_request.c:760-796 | no step exactly when the properties are refused; otherwise a fresh step with those properties and exactly the reducers of the REDUCE clauses |
| GroupRP.GroupFields | src/aggregate/aggregate_request.c:1208 | each field is its property without the leading `@` |
| GroupRP.ResolveFieldsMeaning | src/aggregate/aggregate_request.c:1207-1229 | the properties resolve exactly when each one is readable or loadable and they are distinct and new to the step's registry |
| GroupRP.ResolveFieldsKeeps | src/aggregate/aggregate_request.c:1207-1229 | no key of either registry and no earlier load is lost or changed |
| GroupRP.ResolveFieldsLoads | src/aggregate/aggregate_request.c:1207-1229 | only missing schema fields are loaded, only when loading is allowed; every property ends up in the step's registry |
| GroupRP.ResolveFieldsDst | src/aggregate/aggregate_request.c:1224-1227 | on success the step's registry holds exactly its old keys and the properties |
| GroupRP.ResolveFieldKeys | src/aggregate/aggregate_request.c:1207-1229 | the loop over the properties computes the property-resolution function on both registries |
| GroupRP.ResolveReducersMeaning | src/aggregate/aggregate_request.c:1233-1259 | the reducers resolve exactly when every function exists and the aliases are distinct and new |
| GroupRP.ResolveReducersKeep | src/aggregate/aggregate_request.c:1233-1259 | resolving reducers neither loads nor changes the source registry |
| GroupRP.ResolveReducerKeys | src/aggregate/aggregate_request.c:1233-1259 | the loop over the reducers computes the reducer-resolution function |
| GroupRP.GroupPlanMeaning | src/aggregate/aggregate_request.c:1204-1262 | GROUPBY compiles exactly when the properties resolve, every reducer exists, and properties and aliases together are distinct and new |
| GroupRP.GroupPlanLoads | src/aggregate/aggregate_request.c:1283-1300 | a loader comes before the grouper only when loading is allowed, and it loads only schema fields the registry lacked |
| GroupRP.PushGroup | src/aggregate/aggregate_request.c:1292-1299 | the loader, when there are keys to load, then the grouper are appended to the chain |
| GroupRP.GetGroupRP | src/aggregate/aggregate_request.c:1279-1300 | the outcome and both registries are those of the group plan, loading allowed only on the first registry with a schema cache; the stages are appended on success |
| Chain.QueryIter.PushRP | src/aggregate/aggregate_request.c:1272-1277 | the processor becomes the end of the chain, linked to the old end and owned by the iterator |
| Chain.QueryIter.Push | src/aggregate/aggregate_request.c:1272-1277 | a fresh processor with that stage is appended |
| Chain.QueryIter.FreeChain | src/aggregate/aggregate_request.c:1728-1735 | the chain is walked from its end to its root |
| Chain.TailFirstAt | src/aggregate/aggregate_request.c:1728-1735 | the i-th visited processor is the i-th from the end |
| Chain.TailFirstLength | src/aggregate/aggregate_request.c:1728-1735 | every processor is visited once |
| Pipeline.MaxResults | src/aggregate/aggregate_request.c:1341-1348 | the cap is the 64-bit sum of offset and limit, or the default limit when that sum is 0, and never more than the mode's maximum |
| Pipeline.MaxResultsZero | src/aggregate/aggregate_request.c:1341-1350 | the cap is 0 only when the mode's maximum is 0 |
| Pipeline.ResolveFromKeeps | src/aggregate/aggregate_request.c:1365-1382 | resolving sort keys keeps the registry's keys; new loads are distinct schema fields the registry did not have |
| Pipeline.ResolveFromCovers | src/aggregate/aggregate_request.c:1365-1382 | on success every sort key is readable or loaded |
| Pipeline.ResolveFromFails | src/aggregate/aggregate_request.c:1365-1382 | resolution fails exactly when some sort key is neither readable nor in the schema, naming such a key |
| Pipeline.ResolveFromMeaning | src/aggregate/aggregate_request.c:1365-1382 | the three lemmas above together |
| Pipeline.LoadSortKeys | src/aggregate/aggregate_request.c:1365-1382 | the loop over the sort keys computes the resolution and leaves the registry as it says |
| Pipeline.ArrangePlan | src/aggregate/aggregate_request.c:1341-1354 | a counting request or a cap of 0 gives only the counter |
| Pipeline.ArrangeCountOnly | src/aggregate/aggregate_request.c:1350-1354 | the counter is present exactly when the request counts or the cap is 0 |
| Pipeline.SorterDecision | src/aggregate/aggregate_request.c:1356-1395 | the sorter part fails exactly when a sort key is neither readable nor in the schema; it sorts exactly when the optimizer keeps sorters and there are sort keys or a non-optimized or scored search; it ends with the sorter |
| Pipeline.PagerDecision | src/aggregate/aggregate_request.c:1398-1404 | the step's own pager exactly for an offset, or a limit without a sorter; otherwise an optimized unsorted search is paged to the cap |
| Pipeline.ArrangeDecisions | src/aggregate/aggregate_request.c:1341-1404 | outside the count-only case, the arrangement fails, sorts and pages exactly as the two decisions say, and holds no counter |
| Pipeline.PushSorter | src/aggregate/aggregate_request.c:1356-1395 | appends the sorter part and leaves the registry as it says |
| Pipeline.PushPager | src/aggregate/aggregate_request.c:1397-1404 | appends the pager part |
| Pipeline.GetArrangeRP | src/aggregate/aggregate_request.c:1328-1409 | the outcome and the registry are those of the arrange plan, with the stages appended on success |
| Pipeline.LimitZeroCountsOnly | src/aggregate/aggregate_request.c:270-275 | after `LIMIT o 0`, with the no-rows flag making the request count-only, the arrangement is just the counter |
| Pipeline.SkipRichResultsNoScoreSort | src/aggregate/aggregate_request.c:984-990 | when rich results are skipped, with `hasQuerySortby` read off the arrange step, the arrangement never has a sorter by score |
| Pipeline.ScoreSortKeepsRichResults | src/aggregate/aggregate_request.c:984-990 | a search without SORTBY that is not optimized, with the sorter kept, is sorted by score and never skips rich results |
| Request.IsIndexCoherent | src/aggregate/aggregate_request.c:1070-1098 | true exactly when there are no prefixes, or the strtol count and the listed prefixes equal the index's, in order |
| Request.CoherentOfSpelled | src/aggregate/aggregate_request.c:1070-1098 | `PREFIX n p1..pn` is coherent exactly when p1..pn are the index prefixes |
| Text.StrtolAgreesWithParseInt | src/aggregate/aggregate_request.c:1078 | strtol and the strict number reader agree on every well-formed number |

## Left out

- The `Args` module models the argument cursor of rmutil (`AC_GetString`, `AC_GetVarArgs`, `AC_GetUnsigned`, `AC_AdvanceIfMatch`, `AC_ParseArgSpec`). It states the behaviour the model assumes of those functions, and rmutil is not part of this model. In particular, `AC_ParseArgSpec` is taken to read MAXIDLE/COUNT options until the first other token.
- Error texts from `AC_Strerror` are not reproduced; where the source appends them, only the error code and the fixed part are modelled.
- `redisearch_api.h` and `reply.h` are not part of this model, and neither is the plan list of `aggregate_plan.c`. That covers `AGPLN_AddStep`, `AGPLN_GetLookup` and `AGPLN_GetOrCreateArrangeStep`. The arrange step is a value passed in and returned, and the registries a step sees are parameters.
- Grouping and reducers:
  - The reducer factory is a set of known function names, matched exactly.
  - A factory that fails for other reasons, and the keys a reducer asks to load, are not modelled.
- Forced loading:
  - `forceLoad` and `RLOOKUP_F_FORCE_LOAD` only decide how a loader fetches values, so loaders carry just their keys.
  - Flags.ExpandNeverForcesLoad states the one fact about it that the request parsing decides.
- Constants not defined in this file take RediSearch's own values: `DEFAULT_LIMIT` = 10, 64 sort directions, dialects 1 to 4, and API version 3 for `APIVERSION_RETURN_MULTI_CMP_FIRST`.
- `HasScoreInPipeline` and `IsScorerNeeded` are defined elsewhere. They are taken to be the ADDSCORES flag, and "scores or ADDSCORES requested".
- Other parts of `handleCommonArgs` are not modelled:
  - TIMEOUT, PARAMS, `_REQUIRED_FIELDS` and the scorer options;
  - the dialect condition on EXPAND.
- Query parsing, scoring, timeouts, execution, memory management, threads and replies are not modelled.
- Fields.FieldList.ReturnFields: on error the contents of the field list are not stated. The search-mode check and the SEND_NOFIELDS flag for an empty RETURN, at the head of the RETURN handling, are not modelled; the `explicitReturn` flag of the list is.
- Load.LoadRP: on an entry's error the position reached in the step's arguments is not stated.
- Pipeline.GetArrangeRP: when nothing is pushed the source returns NULL and the caller treats that as a failure. The model returns `Ok([])`, because the caller is not modelled.
- Pipeline.LoadSortKeys: when a sort key cannot be resolved, the keys loaded before it stay in the registry, as in the source.
- Registry.ReadKey: a key is readable only when the registry already has it. In the source, a registry with a schema cache can also read a sortable schema field that it does not have yet, taking it from the sorting vector. So for `SORTBY @f` or `GROUPBY 1 @f` with such a field, the model pushes `Loader([f])` (Pipeline.SorterStages, GroupRP.FieldStep) where the source pushes no loader.
- Chain.QueryIter.PushRP requires that the new processor's upstream is the current end of the chain. Every caller in this file passes it that way.
- Pipeline.PagerDecision requires a positive cap; a cap of 0 is the count-only case.
- LOAD after APPLY or FILTER is described as refused, but the code only compares the current registry with the first one, and only GROUPBY creates a new registry. The model follows the code (Load.LoadRP).

## Findings

| source | as written | input that shows it | evidently intended | confidence | as-written member | corrected member |
|---|---|---|---|---|---|---|
| src/aggregate/aggregate_request.c:425-430 | an ASC or DESC before any `@field` calls `SORTASCMAP_SET*` with `array_len(keys) - 1`, which wraps to the largest value of array_len's unsigned type; the shift is undefined and the SORTBY is accepted | `SORTBY 65 DESC @k0 ... @k63`: accepted, and on x86, where only the low six bits of the shift count are used, the 64th key becomes descending | refuse a direction that follows no key | not executed | Arrange.LeadingDirectionAsWritten | Arrange.SortFieldsAccepted |
