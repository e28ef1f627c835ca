/** Compiling a GROUPBY step (buildGroupRP / getGroupRP): every grouped
    property must be readable from the registry before the step, or be a
    schema field the first registry may still load; each one and each
    reducer's alias is written into the step's own registry, and a name
    written twice is an error.  On success a Loader for the loaded fields
    (if any) and the Grouper are pushed onto the chain. */
module GroupRP {
  import opened Errors
  import opened Registry
  import opened Chain
  import opened Group
  import opened Seqs

  /** The names the properties are grouped by: each without its '@'. */
  function GroupFields(props: seq<string>): (r: seq<string>)
    requires forall i :: 0 <= i < |props| ==> |props[i]| > 0
    ensures |r| == |props| && forall i :: 0 <= i < |props| ==> r[i] == props[i][1..]
  {
    seq(|props|, i requires 0 <= i < |props| => props[i][1..])
  }

  /** The aliases of the reducers, in order. */
  function Aliases(rs: seq<Reducer>): (r: seq<string>)
    ensures |r| == |rs| && forall i :: 0 <= i < |rs| ==> r[i] == rs[i].alias
  {
    seq(|rs|, i requires 0 <= i < |rs| => rs[i].alias)
  }

  /** What resolving has done so far: the registry read from, the step's
      registry, the fields queued for loading, and the error that stopped it. */
  datatype KeyState = KeyState(src: Keys, dst: Keys, loads: seq<string>, error: Option<QueryError>)

  function DupError(name: string): QueryError {
    QueryError(EDupField, "Property `" + name + "` specified more than once")
  }

  /** The destination half of one property or reducer: `name` is written
      into the step's registry, which fails if it is already there. */
  function WriteStep(st: KeyState, name: string, hidden: bool): KeyState {
    match WriteKey(st.dst, name, hidden, false)
    case None => st.(error := Some(DupError(name)))
    case Some(d) => st.(dst := d)
  }

  /** One grouped property `f`: read as it is, or loaded when loading is
      allowed (a load that cannot come from the schema is refused all the
      same), then written. */
  function FieldStep(st: KeyState, f: string, schema: set<string>, allowLoad: bool): KeyState {
    var missing := QueryError(ENoPropKey, "No such property `" + f + "`");
    if f in st.src then WriteStep(st, f, false)
    else if !allowLoad then st.(error := Some(missing))
    else
      var k := LookupKey(f, f in schema, false);
      var st1 := st.(src := st.src[f := k], loads := st.loads + [f]);
      if !k.schemaSrc then st1.(error := Some(missing))
      else WriteStep(st1, f, false)
  }

  /** The properties in order, stopping at the first error. */
  function ResolveFields(st: KeyState, fs: seq<string>, schema: set<string>, allowLoad: bool): KeyState
    decreases |fs|
  {
    if |fs| == 0 || st.error.Some? then st
    else ResolveFields(FieldStep(st, fs[0], schema, allowLoad), fs[1..], schema, allowLoad)
  }

  /** One reducer: its function must exist, then its alias is written
      (hidden if the reducer is). */
  function ReducerStep(st: KeyState, r: Reducer, known: set<string>): KeyState {
    if r.name !in known then st.(error := Some(QueryError(ENoReducer, "No such reducer: " + r.name)))
    else WriteStep(st, r.alias, r.isHidden)
  }

  function ResolveReducers(st: KeyState, rs: seq<Reducer>, known: set<string>): KeyState
    decreases |rs|
  {
    if |rs| == 0 || st.error.Some? then st
    else ResolveReducers(ReducerStep(st, rs[0], known), rs[1..], known)
  }

  /** The stages getGroupRP pushes, and the registries afterwards. */
  datatype GroupOutcome = GroupOutcome(stages: Result<seq<Stage>>, src: Keys, dst: Keys)

  function GroupPlan(src: Keys, dst: Keys, schema: set<string>, allowLoad: bool,
                     fs: seq<string>, rs: seq<Reducer>, known: set<string>): GroupOutcome
  {
    var a := ResolveFields(KeyState(src, dst, [], None), fs, schema, allowLoad);
    var b := ResolveReducers(a, rs, known);
    match b.error
    case Some(e) => GroupOutcome(Err(e), b.src, b.dst)
    case None =>
      GroupOutcome(Ok((if |b.loads| > 0 then [Loader(b.loads)] else []) + [Grouper(fs, fs, Aliases(rs))]),
                   b.src, b.dst)
  }

  // ---------------------------------------------------------------
  // What makes a GROUPBY step compile

  /** Every property is readable, or a schema field that may be loaded. */
  predicate Resolvable(src: Keys, fs: seq<string>, schema: set<string>, allowLoad: bool) {
    forall i :: 0 <= i < |fs| ==> fs[i] in src || (allowLoad && fs[i] in schema)
  }

  /** None of the names is in the registry, and no two are equal. */
  predicate FreshNames(dst: Keys, ns: seq<string>) {
    && (forall i :: 0 <= i < |ns| ==> ns[i] !in dst)
    && (forall i, j :: 0 <= i < j < |ns| ==> ns[i] != ns[j])
  }

  lemma FreshNamesCons(dst: Keys, ns: seq<string>, v: LookupKey)
    requires |ns| > 0
    ensures FreshNames(dst, ns) <==> ns[0] !in dst && FreshNames(dst[ns[0] := v], ns[1..])
  {
    if ns[0] !in dst && FreshNames(dst[ns[0] := v], ns[1..]) {
      forall i, j | 0 <= i < j < |ns| ensures ns[i] != ns[j] {
        if i > 0 {
          assert ns[i] == ns[1..][i - 1] && ns[j] == ns[1..][j - 1];
        } else {
          assert ns[j] == ns[1..][j - 1];
        }
      }
    }
    if FreshNames(dst, ns) {
      forall i | 0 <= i < |ns| - 1 ensures ns[1..][i] !in dst[ns[0] := v] {
        assert ns[1..][i] == ns[i + 1];
      }
    }
  }

  lemma ResolvableCons(src: Keys, fs: seq<string>, schema: set<string>, allowLoad: bool, src': Keys)
    requires |fs| > 0 && (fs[0] in src || (allowLoad && fs[0] in schema)) && fs[0] in src'
    requires forall x :: x != fs[0] ==> (x in src' <==> x in src)
    ensures Resolvable(src, fs, schema, allowLoad) <==> Resolvable(src', fs[1..], schema, allowLoad)
  {
    if Resolvable(src', fs[1..], schema, allowLoad) {
      forall i | 0 <= i < |fs| ensures fs[i] in src || (allowLoad && fs[i] in schema) {
        if i > 0 {
          assert fs[i] == fs[1..][i - 1];
        }
      }
    }
    if Resolvable(src, fs, schema, allowLoad) {
      forall i | 0 <= i < |fs| - 1 ensures fs[1..][i] in src' || (allowLoad && fs[1..][i] in schema) {
        assert fs[1..][i] == fs[i + 1];
      }
    }
  }

  /** The properties resolve exactly when each is readable or loadable and
      none is already in the step's registry or given twice. */
  lemma {:induction false} ResolveFieldsMeaning(st: KeyState, fs: seq<string>, schema: set<string>, allowLoad: bool)
    requires st.error.None?
    ensures ResolveFields(st, fs, schema, allowLoad).error.None? <==>
              Resolvable(st.src, fs, schema, allowLoad) && FreshNames(st.dst, fs)
    decreases |fs|
  {
    if |fs| > 0 {
      var f := fs[0];
      var st' := FieldStep(st, f, schema, allowLoad);
      FreshNamesCons(st.dst, fs, LookupKey(f, false, false));
      if f in st.src || (allowLoad && f in schema) {
        if st'.error.None? {
          ResolveFieldsMeaning(st', fs[1..], schema, allowLoad);
          ResolvableCons(st.src, fs, schema, allowLoad, st'.src);
        }
      } else {
        assert !Resolvable(st.src, fs, schema, allowLoad) by {
          assert !(fs[0] in st.src || (allowLoad && fs[0] in schema));
        }
      }
    }
  }

  /** Resolving never drops or replaces a key of either registry. */
  lemma {:induction false} ResolveFieldsKeeps(st: KeyState, fs: seq<string>, schema: set<string>, allowLoad: bool)
    ensures var r := ResolveFields(st, fs, schema, allowLoad);
      && (forall x :: x in st.src ==> x in r.src && r.src[x] == st.src[x])
      && (forall x :: x in st.dst ==> x in r.dst && r.dst[x] == st.dst[x])
      && (forall x :: x in st.loads ==> x in r.loads)
    decreases |fs|
  {
    if |fs| > 0 && st.error.None? {
      ResolveFieldsKeeps(FieldStep(st, fs[0], schema, allowLoad), fs[1..], schema, allowLoad);
    }
  }

  /** Only fields missing from the registry are loaded, only when loading
      is allowed, and each comes from the schema; on success every
      missing field is loaded and every property is in the step's registry. */
  lemma {:induction false} ResolveFieldsLoads(st: KeyState, fs: seq<string>, schema: set<string>, allowLoad: bool)
    ensures var r := ResolveFields(st, fs, schema, allowLoad);
      r.error.None? ==>
      && (forall x :: x in r.loads ==> x in st.loads || (allowLoad && x in fs && x !in st.src && x in schema))
      && (forall i :: 0 <= i < |fs| ==> fs[i] in r.dst && (fs[i] in st.src || fs[i] in r.loads))
    decreases |fs|
  {
    if |fs| > 0 && st.error.None? {
      var st' := FieldStep(st, fs[0], schema, allowLoad);
      ResolveFieldsLoads(st', fs[1..], schema, allowLoad);
      ResolveFieldsKeeps(st', fs[1..], schema, allowLoad);
      var r := ResolveFields(st, fs, schema, allowLoad);
      if r.error.None? {
        forall i | 0 <= i < |fs| ensures fs[i] in r.dst && (fs[i] in st.src || fs[i] in r.loads) {
          if i > 0 {
            assert fs[i] == fs[1..][i - 1];
          }
        }
      }
    }
  }

  /** The reducers resolve exactly when each function exists and no alias
      is already in the step's registry or given twice. */
  lemma {:induction false} ResolveReducersMeaning(st: KeyState, rs: seq<Reducer>, known: set<string>)
    requires st.error.None?
    ensures ResolveReducers(st, rs, known).error.None? <==>
              (forall i :: 0 <= i < |rs| ==> rs[i].name in known) && FreshNames(st.dst, Aliases(rs))
    decreases |rs|
  {
    if |rs| > 0 {
      var r := rs[0];
      var st' := ReducerStep(st, r, known);
      FreshNamesCons(st.dst, Aliases(rs), LookupKey(r.alias, false, r.isHidden));
      assert Aliases(rs)[1..] == Aliases(rs[1..]);
      if st'.error.None? {
        ResolveReducersMeaning(st', rs[1..], known);
        if forall i :: 0 <= i < |rs| - 1 ==> rs[1..][i].name in known {
          forall i | 0 <= i < |rs| ensures rs[i].name in known {
            if i > 0 {
              assert rs[i] == rs[1..][i - 1];
            }
          }
        }
      }
    }
  }

  lemma FreshNamesAppend(dst: Keys, dst': Keys, a: seq<string>, b: seq<string>)
    requires forall x :: x in dst' <==> x in dst || x in a
    ensures FreshNames(dst, a + b) <==> FreshNames(dst, a) && FreshNames(dst', b)
  {
    var ab := a + b;
    if FreshNames(dst, a) && FreshNames(dst', b) {
      forall i, j | 0 <= i < j < |ab| ensures ab[i] != ab[j] {
        if j >= |a| && i < |a| {
          assert ab[j] == b[j - |a|] && ab[i] == a[i];
        } else if i >= |a| {
          assert ab[j] == b[j - |a|] && ab[i] == b[i - |a|];
        } else {
          assert ab[j] == a[j] && ab[i] == a[i];
        }
      }
      forall i | 0 <= i < |ab| ensures ab[i] !in dst {
        if i >= |a| {
          assert ab[i] == b[i - |a|];
        } else {
          assert ab[i] == a[i];
        }
      }
    }
    if FreshNames(dst, ab) {
      forall i | 0 <= i < |a| ensures a[i] !in dst {
        assert a[i] == ab[i];
      }
      forall i, j | 0 <= i < j < |a| ensures a[i] != a[j] {
        assert a[i] == ab[i] && a[j] == ab[j];
      }
      forall i | 0 <= i < |b| ensures b[i] !in dst' {
        assert b[i] == ab[|a| + i];
        forall k | 0 <= k < |a| ensures a[k] != b[i] {
          assert a[k] == ab[k];
        }
      }
      forall i, j | 0 <= i < j < |b| ensures b[i] != b[j] {
        assert b[i] == ab[|a| + i] && b[j] == ab[|a| + j];
      }
    }
  }

  /** On success the step's registry holds exactly what it held before and
      the properties. */
  lemma {:induction false} ResolveFieldsDst(st: KeyState, fs: seq<string>, schema: set<string>, allowLoad: bool)
    ensures var r := ResolveFields(st, fs, schema, allowLoad);
      r.error.None? ==> forall x :: x in r.dst <==> x in st.dst || x in fs
    decreases |fs|
  {
    if |fs| > 0 && st.error.None? {
      var st' := FieldStep(st, fs[0], schema, allowLoad);
      ResolveFieldsDst(st', fs[1..], schema, allowLoad);
      assert fs == [fs[0]] + fs[1..];
    }
  }

  /** A GROUPBY step compiles exactly when every property is readable or
      a loadable schema field, every reducer function exists, and the
      properties and aliases together are new to the step's registry and
      pairwise distinct. */
  lemma GroupPlanMeaning(src: Keys, dst: Keys, schema: set<string>, allowLoad: bool,
                         fs: seq<string>, rs: seq<Reducer>, known: set<string>)
    ensures GroupPlan(src, dst, schema, allowLoad, fs, rs, known).stages.Ok? <==>
              && Resolvable(src, fs, schema, allowLoad)
              && (forall i :: 0 <= i < |rs| ==> rs[i].name in known)
              && FreshNames(dst, fs + Aliases(rs))
  {
    var st := KeyState(src, dst, [], None);
    var a := ResolveFields(st, fs, schema, allowLoad);
    ResolveFieldsMeaning(st, fs, schema, allowLoad);
    if a.error.None? {
      ResolveReducersMeaning(a, rs, known);
      ResolveFieldsDst(st, fs, schema, allowLoad);
      FreshNamesAppend(dst, a.dst, fs, Aliases(rs));
    } else {
      FreshNamesAppend(dst, dst + map x | x in fs :: LookupKey(x, false, false), fs, Aliases(rs));
    }
  }

  /** Nothing is loaded unless the step may load, and what is loaded is a
      schema field the registry did not have. */
  lemma GroupPlanLoads(src: Keys, dst: Keys, schema: set<string>, allowLoad: bool,
                       fs: seq<string>, rs: seq<Reducer>, known: set<string>)
    ensures var o := GroupPlan(src, dst, schema, allowLoad, fs, rs, known);
      o.stages.Ok? && |o.stages.value| == 2 ==>
        && o.stages.value[0].Loader? && allowLoad
        && forall x :: x in o.stages.value[0].keys ==> x in fs && x !in src && x in schema
  {
    var st := KeyState(src, dst, [], None);
    ResolveFieldsLoads(st, fs, schema, allowLoad);
    var a := ResolveFields(st, fs, schema, allowLoad);
    ResolveReducersKeep(a, rs, known);
    var b := ResolveReducers(a, rs, known);
    if b.error.None? && |b.loads| > 0 {
      assert a.error.None?;
      assert b.loads[0] in a.loads;
    }
  }

  lemma {:induction false} ResolveReducersKeep(st: KeyState, rs: seq<Reducer>, known: set<string>)
    ensures ResolveReducers(st, rs, known).loads == st.loads && ResolveReducers(st, rs, known).src == st.src
    decreases |rs|
  {
    if |rs| > 0 && st.error.None? {
      ResolveReducersKeep(ReducerStep(st, rs[0], known), rs[1..], known);
    }
  }

  // ---------------------------------------------------------------
  // The compiler

  /** buildGroupRP's first loop: each property is read from `src` or, when
      `allowLoad`, loaded into it, then written into `dst`. */
  method ResolveFieldKeys(src: Lookup, dst: Lookup, fs: seq<string>, allowLoad: bool)
    returns (loads: seq<string>, error: Option<QueryError>)
    requires src != dst
    modifies src`keys, dst`keys
    ensures KeyState(src.keys, dst.keys, loads, error)
            == ResolveFields(KeyState(old(src.keys), old(dst.keys), [], None), fs, src.schema, allowLoad)
  {
    loads := [];
    error := None;
    var ii := 0;
    while ii < |fs| && error.None?
      invariant ii <= |fs|
      invariant ResolveFields(KeyState(src.keys, dst.keys, loads, error), fs[ii..], src.schema, allowLoad)
                == ResolveFields(KeyState(old(src.keys), old(dst.keys), [], None), fs, src.schema, allowLoad)
    {
      var f := fs[ii];
      ghost var st := KeyState(src.keys, dst.keys, loads, error);
      assert fs[ii..][0] == f && fs[ii..][1..] == fs[ii + 1..];
      var write := true;
      if ReadKey(src.keys, f).None? {
        if allowLoad {
          var k := src.GetKeyLoad(f, f);
          loads := loads + [f];
          if !k.value.schemaSrc {
            error := Some(QueryError(ENoPropKey, "No such property `" + f + "`"));
            write := false;
          }
        } else {
          error := Some(QueryError(ENoPropKey, "No such property `" + f + "`"));
          write := false;
        }
      }
      if write {
        var ok := dst.GetKeyWrite(f, false, false);
        if !ok {
          error := Some(DupError(f));
        }
      }
      assert KeyState(src.keys, dst.keys, loads, error) == FieldStep(st, f, src.schema, allowLoad);
      ii := ii + 1;
    }
  }

  /** buildGroupRP's second loop: each reducer's function is looked up in
      `known` and its alias written into `dst`. */
  method ResolveReducerKeys(dst: Lookup, rs: seq<Reducer>, known: set<string>, ghost st0: KeyState)
    returns (error: Option<QueryError>)
    requires st0.error.None? && st0.dst == dst.keys
    modifies dst`keys
    ensures KeyState(st0.src, dst.keys, st0.loads, error) == ResolveReducers(st0, rs, known)
  {
    error := None;
    var ii := 0;
    while ii < |rs| && error.None?
      invariant ii <= |rs|
      invariant ResolveReducers(KeyState(st0.src, dst.keys, st0.loads, error), rs[ii..], known)
                == ResolveReducers(st0, rs, known)
    {
      var r := rs[ii];
      ghost var st := KeyState(st0.src, dst.keys, st0.loads, error);
      assert rs[ii..][0] == r && rs[ii..][1..] == rs[ii + 1..];
      if r.name !in known {
        error := Some(QueryError(ENoReducer, "No such reducer: " + r.name));
      } else {
        var ok := dst.GetKeyWrite(r.alias, r.isHidden, false);
        if !ok {
          error := Some(DupError(r.alias));
        }
      }
      assert KeyState(st0.src, dst.keys, st0.loads, error) == ReducerStep(st, r, known);
      ii := ii + 1;
    }
  }

  /** The stages pushed on success: the loader when something is loaded,
      then the grouper. */
  method PushGroup(q: QueryIter, loads: seq<string>, grouper: Stage) returns (pushed: seq<Stage>)
    requires q.Valid()
    modifies q
    ensures q.Valid() && pushed == (if |loads| > 0 then [Loader(loads)] else []) + [grouper]
    ensures q.Stages() == old(q.Stages()) + pushed
  {
    var pre: seq<Stage> := [];
    if |loads| > 0 {
      q.Push(Loader(loads));
      pre := [Loader(loads)];
    }
    q.Push(grouper);
    Assoc(old(q.Stages()), pre, [grouper]);
    pushed := pre + [grouper];
  }

  /** getGroupRP: `lk` is the registry before the step and `first` the
      first registry of the plan; loading is allowed only when they are
      the same and it has a spec cache.  On success the loader (when
      something was loaded) and the grouper are pushed onto the chain. */
  method GetGroupRP(q: QueryIter, lk: Lookup, first: Lookup, g: GroupStep, known: set<string>)
    returns (r: Result<seq<Stage>>)
    requires q.Valid() && lk != g.lookup
    requires forall i :: 0 <= i < |g.properties| ==> |g.properties[i]| > 0
    modifies q, lk`keys, g.lookup`keys
    ensures q.Valid()
    ensures var o := GroupPlan(old(lk.keys), old(g.lookup.keys), lk.schema, first == lk && first.hasSpecCache,
                               GroupFields(g.properties), g.reducers, known);
      r == o.stages && lk.keys == o.src && g.lookup.keys == o.dst
    ensures q.Stages() == old(q.Stages()) + (if r.Ok? then r.value else [])
  {
    var fs := GroupFields(g.properties);
    var allowLoad := first == lk && first.hasSpecCache;
    ghost var st := KeyState(lk.keys, g.lookup.keys, [], None);
    var loads, error := ResolveFieldKeys(lk, g.lookup, fs, allowLoad);
    ghost var a := KeyState(lk.keys, g.lookup.keys, loads, error);
    assert a == ResolveFields(st, fs, lk.schema, allowLoad);
    if error.None? {
      error := ResolveReducerKeys(g.lookup, g.reducers, known, a);
    }
    ghost var b := KeyState(lk.keys, g.lookup.keys, loads, error);
    assert b == ResolveReducers(a, g.reducers, known);
    if error.Some? {
      r := Err(error.value);
      return;
    }
    var pushed := PushGroup(q, loads, Grouper(fs, fs, Aliases(g.reducers)));
    r := Ok(pushed);
  }
}
