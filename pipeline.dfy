/** The ARRANGE part of pipeline assembly (getArrangeRP): the result cap,
    the count-only shortcut, the sorter with the keys it must load first,
    and the pager. */
module Pipeline {
  import opened Errors
  import opened Args
  import opened Flags
  import opened Arrange
  import opened Registry
  import opened Chain

  const DEFAULT_LIMIT: nat := 10
  const U64_MODULUS: nat := 0x1_0000_0000_0000_0000

  /** What getArrangeRP reads from the request besides the step: the mode,
      IsCount (NOROWS), whether the query is optimized and has a scorer,
      whether the optimizer dropped the sorter (Q_OPT_NO_SORTER), and the
      configured result maxima. */
  datatype ArrangeCtx = ArrangeCtx(isSearch: bool, isCount: bool, optimized: bool, hasScorer: bool,
                                   noSorter: bool, maxSearch: nat, maxAggregate: nat)

  /** The cap of a sorter: `offset + limit` as a `size_t` sum, the default
      limit when that is 0, and never more than the mode's maximum. */
  function MaxResults(offset: nat, limit: nat, isSearch: bool, maxSearch: nat, maxAggregate: nat): (r: nat)
    ensures var modeMax := if isSearch then maxSearch else maxAggregate;
      var sum := (offset + limit) % U64_MODULUS;
      && r <= modeMax
      && r <= (if sum == 0 then DEFAULT_LIMIT else sum)
      && (r == modeMax || r == (if sum == 0 then DEFAULT_LIMIT else sum))
  {
    var sum := (offset + limit) % U64_MODULUS;
    var m := if sum == 0 then DEFAULT_LIMIT else sum;
    var modeMax := if isSearch then maxSearch else maxAggregate;
    if m < modeMax then m else modeMax
  }

  /** The cap is 0 exactly when the mode's maximum is 0. */
  lemma MaxResultsZero(offset: nat, limit: nat, isSearch: bool, maxSearch: nat, maxAggregate: nat)
    ensures MaxResults(offset, limit, isSearch, maxSearch, maxAggregate) == 0
        <==> (if isSearch then maxSearch else maxAggregate) == 0
  {
  }

  // ---------------------------------------------------------------
  // The sort keys: read, or else load when the schema has them
  // ---------------------------------------------------------------

  /** The registry after resolving sort keys, the keys that had to be
      loaded, in order, and the first one that could not be resolved. */
  datatype Resolution = Resolution(keys: Keys, loads: seq<string>, missing: Option<string>)

  /** Each sort key is read; a key that cannot be read is loaded, and
      must then come from the schema, which stops at the first that does
      not (the registry keeps that key). */
  function ResolveFrom(keys: Keys, schema: set<string>, loads: seq<string>, sk: seq<string>): Resolution
    decreases |sk|
  {
    if |sk| == 0 then Resolution(keys, loads, None)
    else if ReadKey(keys, sk[0]).Some? then ResolveFrom(keys, schema, loads, sk[1..])
    else
      var keys' := LoadKey(keys, schema, sk[0], sk[0]).value;
      if !keys'[sk[0]].schemaSrc then Resolution(keys', loads, Some(sk[0]))
      else ResolveFrom(keys', schema, loads + [sk[0]], sk[1..])
  }

  function ResolveSortKeys(keys: Keys, schema: set<string>, sk: seq<string>): Resolution {
    ResolveFrom(keys, schema, [], sk)
  }

  /** Every key can be read or comes from the schema. */
  predicate Resolvable(keys: Keys, schema: set<string>, sk: seq<string>) {
    forall i :: 0 <= i < |sk| ==> sk[i] in keys || sk[i] in schema
  }

  /** The resolution only adds keys; it loads exactly keys the registry
      lacked and the schema holds, each once, after those loaded before. */
  lemma {:induction false} ResolveFromKeeps(keys: Keys, schema: set<string>, loads: seq<string>, sk: seq<string>)
    requires forall x :: x in loads ==> x in keys
    ensures var r := ResolveFrom(keys, schema, loads, sk);
      && keys.Keys <= r.keys.Keys
      && (forall x :: x in keys ==> r.keys[x] == keys[x])
      && |loads| <= |r.loads| && r.loads[..|loads|] == loads
      && (forall j :: |loads| <= j < |r.loads| ==> r.loads[j] !in keys && r.loads[j] in schema)
      && (forall j, m :: |loads| <= j < m < |r.loads| ==> r.loads[j] != r.loads[m])
    decreases |sk|
  {
    if |sk| > 0 {
      var k := sk[0];
      if k in keys {
        ResolveFromKeeps(keys, schema, loads, sk[1..]);
      } else if k in schema {
        var keys' := keys[k := LookupKey(k, true, false)];
        ResolveFromKeeps(keys', schema, loads + [k], sk[1..]);
        var r := ResolveFrom(keys, schema, loads, sk);
        assert r == ResolveFrom(keys', schema, loads + [k], sk[1..]);
        assert r.loads[..|loads| + 1] == loads + [k];
        assert r.loads[..|loads|] == (loads + [k])[..|loads|];
        forall j | |loads| <= j < |r.loads| ensures r.loads[j] !in keys && r.loads[j] in schema {
          if j == |loads| { assert r.loads[j] == (loads + [k])[j]; }
        }
        forall j, m | |loads| <= j < m < |r.loads| ensures r.loads[j] != r.loads[m] {
          if j == |loads| {
            assert r.loads[j] == (loads + [k])[j] == k;
            assert k in keys';
          }
        }
      }
    }
  }

  /** Every key of a resolution that succeeds was in the registry or has
      been loaded. */
  lemma {:induction false} ResolveFromCovers(keys: Keys, schema: set<string>, loads: seq<string>, sk: seq<string>)
    requires forall x :: x in loads ==> x in keys
    ensures var r := ResolveFrom(keys, schema, loads, sk);
      r.missing.None? ==> forall i :: 0 <= i < |sk| ==> sk[i] in keys || sk[i] in r.loads
    decreases |sk|
  {
    if |sk| > 0 {
      var k := sk[0];
      var r := ResolveFrom(keys, schema, loads, sk);
      if k in keys {
        ResolveFromCovers(keys, schema, loads, sk[1..]);
      } else if k in schema {
        var keys' := keys[k := LookupKey(k, true, false)];
        ResolveFromCovers(keys', schema, loads + [k], sk[1..]);
        ResolveFromKeeps(keys', schema, loads + [k], sk[1..]);
        assert r == ResolveFrom(keys', schema, loads + [k], sk[1..]);
        if r.missing.None? {
          assert r.loads[|loads|] == (loads + [k])[|loads|];
          assert k in r.loads;
        }
      }
      if r.missing.None? {
        forall i | 0 <= i < |sk| ensures sk[i] in keys || sk[i] in r.loads {
          if i > 0 { assert sk[i] == sk[1..][i - 1]; }
        }
      }
    }
  }

  /** The resolution fails exactly when some key is neither in the
      registry nor in the schema, and names the first such key. */
  lemma {:induction false} ResolveFromFails(keys: Keys, schema: set<string>, loads: seq<string>, sk: seq<string>)
    ensures var r := ResolveFrom(keys, schema, loads, sk);
      && (r.missing.None? <==> Resolvable(keys, schema, sk))
      && (r.missing.Some? ==> r.missing.value !in keys && r.missing.value !in schema)
    decreases |sk|
  {
    if |sk| > 0 {
      var k := sk[0];
      if k in keys || k in schema {
        var keys' := if k in keys then keys else keys[k := LookupKey(k, true, false)];
        var loads' := if k in keys then loads else loads + [k];
        ResolveFromFails(keys', schema, loads', sk[1..]);
        assert ResolveFrom(keys, schema, loads, sk) == ResolveFrom(keys', schema, loads', sk[1..]);
        assert Resolvable(keys, schema, sk) <==> Resolvable(keys', schema, sk[1..]) by {
          if Resolvable(keys', schema, sk[1..]) {
            forall i | 0 <= i < |sk| ensures sk[i] in keys || sk[i] in schema {
              if i > 0 { assert sk[i] == sk[1..][i - 1]; }
            }
          }
        }
      } else {
        assert !Resolvable(keys, schema, sk) by {
          assert sk[0] !in keys && sk[0] !in schema;
        }
      }
    }
  }

  /** What the resolution does: it fails exactly when some key is neither
      in the registry nor in the schema; it loads exactly the keys the
      registry lacked, each once and in order of first use; and it only
      adds keys. */
  lemma ResolveFromMeaning(keys: Keys, schema: set<string>, loads: seq<string>, sk: seq<string>)
    requires forall x :: x in loads ==> x in keys
    ensures var r := ResolveFrom(keys, schema, loads, sk);
      && (r.missing.None? <==> Resolvable(keys, schema, sk))
      && (r.missing.Some? ==> r.missing.value !in keys && r.missing.value !in schema)
      && keys.Keys <= r.keys.Keys
      && (forall x :: x in keys ==> r.keys[x] == keys[x])
      && |loads| <= |r.loads| && r.loads[..|loads|] == loads
      && (forall j :: |loads| <= j < |r.loads| ==> r.loads[j] !in keys && r.loads[j] in schema)
      && (forall j, m :: |loads| <= j < m < |r.loads| ==> r.loads[j] != r.loads[m])
      && (r.missing.None? ==> forall i :: 0 <= i < |sk| ==> sk[i] in keys || sk[i] in r.loads)
  {
    ResolveFromKeeps(keys, schema, loads, sk);
    ResolveFromCovers(keys, schema, loads, sk);
    ResolveFromFails(keys, schema, loads, sk);
  }

  // ---------------------------------------------------------------
  // The stages of an ARRANGE step
  // ---------------------------------------------------------------

  /** The outcome of getArrangeRP: the stages pushed, in order (an error
      pushes none), and the registry after the sort keys were resolved. */
  datatype ArrangeOutcome = ArrangeOutcome(stages: Result<seq<Stage>>, keys: Keys)

  predicate IsSorter(s: Stage) {
    s.SorterByFields? || s.SorterByScore?
  }

  predicate HasSorter(stages: seq<Stage>) {
    exists i :: 0 <= i < |stages| && IsSorter(stages[i])
  }

  /** The sorter part: a Loader for the keys that must be loaded and a
      sorter on the keys when the step sorts; otherwise a sorter by score
      for a search that is not optimized or that has a scorer. */
  function SorterStages(ctx: ArrangeCtx, a: ArrangeStep, cap: nat, keys: Keys, schema: set<string>): ArrangeOutcome {
    if ctx.noSorter then ArrangeOutcome(Ok([]), keys)
    else if a.sortKeys.Some? then
      var res := ResolveSortKeys(keys, schema, a.sortKeys.value);
      if res.missing.Some? then
        ArrangeOutcome(Fail(ENoPropKey, "Property `" + res.missing.value + "` not loaded nor in schema"), res.keys)
      else
        ArrangeOutcome(Ok((if |res.loads| > 0 then [Loader(res.loads)] else [])
                          + [SorterByFields(cap, a.sortKeys.value, a.sortAscMap)]), res.keys)
    else if ctx.isSearch && (!ctx.optimized || ctx.hasScorer) then ArrangeOutcome(Ok([SorterByScore(cap)]), keys)
    else ArrangeOutcome(Ok([]), keys)
  }

  /** The pager: the step's own when it has an offset, or a limit and no
      sorter took it; otherwise an optimized search without a sorter is
      paged to the cap. */
  function PagerStages(ctx: ArrangeCtx, a: ArrangeStep, cap: nat, sorted: bool): seq<Stage> {
    if a.offset > 0 || (a.limit > 0 && !sorted) then [Pager(a.offset, a.limit)]
    else if ctx.isSearch && ctx.optimized && !sorted then [Pager(0, cap)]
    else []
  }

  /** getArrangeRP as a function of the step, the request and the
      registry the step reads (the previous step's). */
  function ArrangePlan(ctx: ArrangeCtx, a: ArrangeStep, keys: Keys, schema: set<string>): (r: ArrangeOutcome)
    ensures var cap := MaxResults(a.offset, a.limit, ctx.isSearch, ctx.maxSearch, ctx.maxAggregate);
      (ctx.isCount || cap == 0) ==> r == ArrangeOutcome(Ok([Counter]), keys)
  {
    var cap := MaxResults(a.offset, a.limit, ctx.isSearch, ctx.maxSearch, ctx.maxAggregate);
    if ctx.isCount || cap == 0 then ArrangeOutcome(Ok([Counter]), keys)
    else
      var s := SorterStages(ctx, a, cap, keys, schema);
      match s.stages
      case Err(e) => s
      case Ok(st) => ArrangeOutcome(Ok(st + PagerStages(ctx, a, cap, |st| > 0)), s.keys)
  }

  /** The count-only processor is the whole arrangement exactly when the
      request counts only or the cap is 0. */
  lemma ArrangeCountOnly(ctx: ArrangeCtx, a: ArrangeStep, keys: Keys, schema: set<string>)
    ensures var cap := MaxResults(a.offset, a.limit, ctx.isSearch, ctx.maxSearch, ctx.maxAggregate);
      var r := ArrangePlan(ctx, a, keys, schema);
      (r.stages.Ok? && Counter in r.stages.value) <==> ctx.isCount || cap == 0
  {
  }

  /** The sorter part fails exactly when it sorts by a key that is neither
      readable nor in the schema, and otherwise is empty exactly when no
      sorter is wanted; it never holds a pager or the counter. */
  lemma SorterDecision(ctx: ArrangeCtx, a: ArrangeStep, cap: nat, keys: Keys, schema: set<string>)
    ensures var s := SorterStages(ctx, a, cap, keys, schema);
      s.stages.Err? <==> !ctx.noSorter && a.sortKeys.Some? && !Resolvable(keys, schema, a.sortKeys.value)
    ensures var s := SorterStages(ctx, a, cap, keys, schema);
      s.stages.Ok? ==>
        && (|s.stages.value| > 0 <==> !ctx.noSorter && (a.sortKeys.Some? || (ctx.isSearch && (!ctx.optimized || ctx.hasScorer))))
        && (|s.stages.value| > 0 ==> IsSorter(s.stages.value[|s.stages.value| - 1]))
        && (forall i :: 0 <= i < |s.stages.value| ==> !s.stages.value[i].Pager? && !s.stages.value[i].Counter?)
  {
    if !ctx.noSorter && a.sortKeys.Some? {
      ResolveFromMeaning(keys, schema, [], a.sortKeys.value);
    }
  }

  /** The step's own pager is used when it has an offset, or a limit and
      no sorter; otherwise an optimized search without a sorter is paged
      to the cap, and nothing else is. */
  lemma PagerDecision(ctx: ArrangeCtx, a: ArrangeStep, cap: nat, sorted: bool)
    requires cap > 0
    ensures var pg := PagerStages(ctx, a, cap, sorted);
      && (forall i :: 0 <= i < |pg| ==> pg[i].Pager?)
      && (Pager(a.offset, a.limit) in pg <==> a.offset > 0 || (a.limit > 0 && !sorted))
      && (!(a.offset > 0 || (a.limit > 0 && !sorted)) ==>
            (Pager(0, cap) in pg <==> ctx.isSearch && ctx.optimized && !sorted))
  {
  }

  /** Apart from the count-only case, the arrangement fails exactly when
      it sorts by a key that is neither readable nor in the schema; it has
      a sorter exactly when the optimizer kept one and the step sorts or
      the request is a search that is not optimized or has a scorer; it
      has the step's own pager exactly when the step has an offset, or a
      limit and no sorter; and otherwise an optimized search without a
      sorter is paged up to the cap. */
  lemma ArrangeDecisions(ctx: ArrangeCtx, a: ArrangeStep, keys: Keys, schema: set<string>)
    requires !ctx.isCount && MaxResults(a.offset, a.limit, ctx.isSearch, ctx.maxSearch, ctx.maxAggregate) > 0
    ensures var r := ArrangePlan(ctx, a, keys, schema);
      r.stages.Err? <==> !ctx.noSorter && a.sortKeys.Some? && !Resolvable(keys, schema, a.sortKeys.value)
    ensures var r := ArrangePlan(ctx, a, keys, schema);
      var sorted := !ctx.noSorter && (a.sortKeys.Some? || (ctx.isSearch && (!ctx.optimized || ctx.hasScorer)));
      var cap := MaxResults(a.offset, a.limit, ctx.isSearch, ctx.maxSearch, ctx.maxAggregate);
      r.stages.Ok? ==>
        && (HasSorter(r.stages.value) <==> sorted)
        && (Pager(a.offset, a.limit) in r.stages.value <==> a.offset > 0 || (a.limit > 0 && !sorted))
        && (!(a.offset > 0 || (a.limit > 0 && !sorted)) ==>
              (Pager(0, cap) in r.stages.value <==> ctx.isSearch && ctx.optimized && !sorted))
        && Counter !in r.stages.value
  {
    var cap := MaxResults(a.offset, a.limit, ctx.isSearch, ctx.maxSearch, ctx.maxAggregate);
    var s := SorterStages(ctx, a, cap, keys, schema);
    SorterDecision(ctx, a, cap, keys, schema);
    if s.stages.Ok? {
      var st := s.stages.value;
      var sorted := |st| > 0;
      var pg := PagerStages(ctx, a, cap, sorted);
      PagerDecision(ctx, a, cap, sorted);
      var all := st + pg;
      assert ArrangePlan(ctx, a, keys, schema).stages == Ok(all);
      if sorted {
        assert all[|st| - 1] == st[|st| - 1];
        assert IsSorter(all[|st| - 1]);
      }
      if HasSorter(all) {
        var i :| 0 <= i < |all| && IsSorter(all[i]);
        if i >= |st| {
          assert all[i] == pg[i - |st|];
        }
      }
      assert forall x :: x in all <==> x in st || x in pg;
      assert forall x :: x in st ==> !x.Pager? && !x.Counter?;
    }
  }

  /** LIMIT 0 0 makes the request count only, and its arrangement is then
      the count-only processor alone. */
  lemma LimitZeroCountsOnly(a: ArrangeStep, c: Cursor, f: ReqFlags, maxSearch: nat, maxAggregate: nat,
                            ctx: ArrangeCtx, keys: Keys, schema: set<string>)
    requires ParseLimit(a, c, f, maxSearch, maxAggregate).Ok?
    requires ParseLimit(a, c, f, maxSearch, maxAggregate).value.0.limit == 0
    requires ctx.isCount == (NoRows in ParseLimit(a, c, f, maxSearch, maxAggregate).value.1)
    ensures ArrangePlan(ctx, ParseLimit(a, c, f, maxSearch, maxAggregate).value.0, keys, schema).stages == Ok([Counter])
  {
  }

  predicate SortsByScore(stages: seq<Stage>) {
    exists i :: 0 <= i < |stages| && stages[i].SorterByScore?
  }

  /** Search_CanSkipRichResults against the arrangement: `a` is the arrange
      step before any GROUPBY (hasQuerySortby).  When rich results are
      skipped, the arrangement never sorts by score, which needs them. */
  lemma SkipRichResultsNoScoreSort(f: ReqFlags, ctx: ArrangeCtx, a: ArrangeStep, keys: Keys, schema: set<string>)
    requires ctx.isSearch == (IsSearch in f)
    requires CanSkipRichResults(f, a.sortKeys.Some?)
    ensures var r := ArrangePlan(ctx, a, keys, schema);
      r.stages.Ok? ==> !SortsByScore(r.stages.value)
  {
  }

  /** Conversely, a search without SORTBY whose plan sorts by score (it is
      not optimized and the optimizer kept the sorter) never skips rich
      results. */
  lemma ScoreSortKeepsRichResults(f: ReqFlags, ctx: ArrangeCtx, a: ArrangeStep, keys: Keys, schema: set<string>)
    requires ctx.isSearch && IsSearch in f && a.sortKeys.None?
    requires !ctx.noSorter && !ctx.optimized && !ctx.isCount
    requires MaxResults(a.offset, a.limit, ctx.isSearch, ctx.maxSearch, ctx.maxAggregate) > 0
    ensures var r := ArrangePlan(ctx, a, keys, schema);
      r.stages.Ok? && SortsByScore(r.stages.value)
    ensures !CanSkipRichResults(f, a.sortKeys.Some?)
  {
    var cap := MaxResults(a.offset, a.limit, ctx.isSearch, ctx.maxSearch, ctx.maxAggregate);
    var r := ArrangePlan(ctx, a, keys, schema);
    assert r.stages.value[0] == SorterByScore(cap);
  }

  // ---------------------------------------------------------------
  // getArrangeRP on the chain and the registry
  // ---------------------------------------------------------------

  /** The loop of getArrangeRP over the sort keys: each is read, or else
      loaded into the registry and then required to come from the schema. */
  method LoadSortKeys(lk: Lookup, sk: seq<string>) returns (res: Resolution)
    modifies lk`keys
    ensures res == ResolveSortKeys(old(lk.keys), lk.schema, sk) && lk.keys == res.keys
  {
    var loads: seq<string> := [];
    var ii := 0;
    while ii < |sk|
      invariant 0 <= ii <= |sk|
      invariant ResolveSortKeys(old(lk.keys), lk.schema, sk) == ResolveFrom(lk.keys, lk.schema, loads, sk[ii..])
    {
      assert sk[ii..][1..] == sk[ii + 1..];
      var keystr := sk[ii];
      if ReadKey(lk.keys, keystr).None? {
        var kk := lk.GetKeyLoad(keystr, keystr);
        if !kk.value.schemaSrc {
          res := Resolution(lk.keys, loads, Some(keystr));
          return;
        }
        loads := loads + [keystr];
      }
      ii := ii + 1;
    }
    res := Resolution(lk.keys, loads, None);
  }

  /** The sorter part of getArrangeRP on the chain and the registry. */
  method PushSorter(q: QueryIter, lk: Lookup, ctx: ArrangeCtx, a: ArrangeStep, cap: nat) returns (r: Result<seq<Stage>>)
    requires q.Valid()
    modifies q, lk`keys
    ensures q.Valid()
    ensures r == SorterStages(ctx, a, cap, old(lk.keys), lk.schema).stages
    ensures lk.keys == SorterStages(ctx, a, cap, old(lk.keys), lk.schema).keys
    ensures q.Stages() == old(q.Stages()) + (if r.Ok? then r.value else [])
  {
    r := Ok([]);
    if ctx.noSorter {
      return;
    }
    if a.sortKeys.Some? {
      var res := LoadSortKeys(lk, a.sortKeys.value);
      if res.missing.Some? {
        r := Fail(ENoPropKey, "Property `" + res.missing.value + "` not loaded nor in schema");
        return;
      }
      var pushed: seq<Stage> := [];
      if |res.loads| > 0 {
        q.Push(Loader(res.loads));
        pushed := [Loader(res.loads)];
      }
      q.Push(SorterByFields(cap, a.sortKeys.value, a.sortAscMap));
      r := Ok(pushed + [SorterByFields(cap, a.sortKeys.value, a.sortAscMap)]);
    } else if ctx.isSearch && (!ctx.optimized || ctx.hasScorer) {
      q.Push(SorterByScore(cap));
      r := Ok([SorterByScore(cap)]);
    }
  }

  /** The pager part of getArrangeRP on the chain. */
  method PushPager(q: QueryIter, ctx: ArrangeCtx, a: ArrangeStep, cap: nat, sorted: bool) returns (pg: seq<Stage>)
    requires q.Valid()
    modifies q
    ensures q.Valid()
    ensures pg == PagerStages(ctx, a, cap, sorted)
    ensures q.Stages() == old(q.Stages()) + pg
  {
    pg := [];
    if a.offset > 0 || (a.limit > 0 && !sorted) {
      q.Push(Pager(a.offset, a.limit));
      pg := [Pager(a.offset, a.limit)];
    } else if ctx.isSearch && ctx.optimized && !sorted {
      q.Push(Pager(0, cap));
      pg := [Pager(0, cap)];
    }
  }

  /** getArrangeRP: the sort keys are resolved against the registry one by
      one, then the stages are pushed onto the chain.  `Ok([])` is the NULL
      that the caller also treats as a failure. */
  method GetArrangeRP(q: QueryIter, lk: Lookup, ctx: ArrangeCtx, a: ArrangeStep) returns (r: Result<seq<Stage>>)
    requires q.Valid()
    modifies q, lk`keys
    ensures q.Valid()
    ensures r == ArrangePlan(ctx, a, old(lk.keys), lk.schema).stages
    ensures lk.keys == ArrangePlan(ctx, a, old(lk.keys), lk.schema).keys
    ensures q.Stages() == old(q.Stages()) + (if r.Ok? then r.value else [])
  {
    var cap := MaxResults(a.offset, a.limit, ctx.isSearch, ctx.maxSearch, ctx.maxAggregate);
    if ctx.isCount || cap == 0 {
      q.Push(Counter);
      r := Ok([Counter]);
      return;
    }
    r := PushSorter(q, lk, ctx, a, cap);
    if r.Err? {
      return;
    }
    ghost var mid := q.Stages();
    var pg := PushPager(q, ctx, a, cap, |r.value| > 0);
    assert q.Stages() == mid + pg;
    r := Ok(r.value + pg);
  }
}
