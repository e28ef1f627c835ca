/** LOAD: the argument parse (handleLoad) and the step's compilation in
    AREQ_BuildPipeline.  LOAD takes either a count followed by that many
    `path [AS name]` entries, or `*` for every field of the document; it
    may only read into the root registry, and each entry becomes a key
    loaded from the document unless the registry already has one. */
module Load {
  import opened Errors
  import opened Text
  import opened Args
  import opened Flags
  import opened Aliases
  import opened Registry
  import opened Chain
  import opened Seqs

  /** What handleLoad records in the plan: the entries, and whether every
      field is loaded (PLN_F_LOAD_ALL). */
  datatype LoadArgs = LoadArgs(fields: Cursor, loadAll: bool)

  /** handleLoad: a count and its tokens, or `*`, which also marks the
      request QEXEC_AGG_LOAD_ALL.  Any step of a request so marked loads
      every field, even when it was given a count.  The texts of the
      argument reader's statuses are not part of this model. */
  function ParseLoad(c: Cursor, f: ReqFlags): (r: Result<(LoadArgs, ReqFlags, Cursor)>)
    ensures r.Err? ==> r.error.code == EParseArgs
    ensures r.Ok? ==> r.value.1 == f || r.value.1 == f + {AggLoadAll}
    ensures r.Ok? ==> (r.value.0.loadAll <==> AggLoadAll in r.value.1)
    ensures r.Ok? ==> NumRemaining(r.value.2) < NumRemaining(c) && r.value.2.objs == c.objs
  {
    match GetVarArgs(c)
    case Failed(AcErrParse) =>
      (match GetString(c)
       case Failed(_) => Fail(EParseArgs, "Bad arguments for LOAD")
       case Got(s, rest) =>
         if s != "*" then Fail(EParseArgs, "Bad arguments for LOAD: Expected number of fields or `*`")
         else Ok((LoadArgs(Init([]), true), f + {AggLoadAll}, rest)))
    case Failed(_) => Fail(EParseArgs, "Bad arguments for LOAD")
    case Got(fields, rest) => Ok((LoadArgs(fields, AggLoadAll in f), f, rest))
  }

  /** LOAD is accepted exactly when it is followed by `*` or by a count
      that is not negative and has that many tokens after it. */
  lemma ParseLoadAccepts(c: Cursor, f: ReqFlags)
    ensures ParseLoad(c, f).Ok? <==>
      !IsAtEnd(c) &&
      (Current(c) == "*" ||
       (ParseInt(Current(c)).Some? && 0 <= ParseInt(Current(c)).value <= UINT_MAX
        && ParseInt(Current(c)).value < NumRemaining(c)))
  {
    if !IsAtEnd(c) && Current(c) == "*" {
      assert ParseInt("*").None? by {
        assert !IsDigit('*');
      }
    }
  }

  /** `LOAD n e1 .. en` reads back exactly the n entries. */
  lemma ParseLoadRoundTrip(pre: seq<string>, xs: seq<string>, post: seq<string>, f: ReqFlags)
    requires |xs| <= UINT_MAX
    ensures var toks := pre + [DecimalString(|xs|)] + xs + post;
      ParseLoad(ArgsCursor(toks, |pre|), f)
        == Ok((LoadArgs(Init(xs), AggLoadAll in f), f, ArgsCursor(toks, |pre| + 1 + |xs|)))
  {
    var toks := pre + [DecimalString(|xs|)] + xs + post;
    ParseIntOfDecimal(|xs|);
    assert toks[|pre|] == DecimalString(|xs|);
    assert toks[|pre| + 1..|pre| + 1 + |xs|] == xs;
    GetVarArgsOfCount(toks, |pre|, |xs|);
    var c: Cursor := ArgsCursor(toks, |pre|);
    var g := GetVarArgs(c);
    assert g.Got? && g.value == Init(xs) && g.rest == ArgsCursor(toks, |pre| + 1 + |xs|);
    ParseLoadCount(c, f);
  }

  lemma ParseLoadCount(c: Cursor, f: ReqFlags)
    requires GetVarArgs(c).Got?
    ensures ParseLoad(c, f) == Ok((LoadArgs(GetVarArgs(c).value, AggLoadAll in f), f, GetVarArgs(c).rest))
  {
  }

  /** `LOAD *` loads every field and has no entries. */
  lemma ParseLoadStar(pre: seq<string>, post: seq<string>, f: ReqFlags)
    ensures ParseLoad(ArgsCursor(pre + ["*"] + post, |pre|), f)
        == Ok((LoadArgs(Init([]), true), f + {AggLoadAll}, ArgsCursor(pre + ["*"] + post, |pre| + 1)))
  {
    var star := pre + ["*"] + post;
    assert star[|pre|] == "*";
    assert ParseInt("*").None? by {
      assert !IsDigit('*');
    }
  }

  // ---------------------------------------------------------------
  // Compiling the step

  /** A PLN_LoadStep: its entries (consumed as they are compiled), the
      keys it loads (`keys[..nkeys]`, each known by its name) and whether
      it loads every field. */
  class LoadStep {
    var args: Cursor
    const keys: array<string>
    var nkeys: nat
    const loadAll: bool

    /** The key array has a slot per token, and every key took at least
        one of the tokens read so far. */
    predicate Valid()
      reads this
    {
      keys.Length == |args.objs| && nkeys <= args.offset
    }

    constructor (a: LoadArgs)
      requires a.fields.offset == 0
      ensures Valid() && args == a.fields && loadAll == a.loadAll && nkeys == 0
    {
      args := a.fields;
      keys := new string[|a.fields.objs|](_ => "");
      nkeys := 0;
      loadAll := a.loadAll;
    }

    /** The keys loaded so far. */
    function Loaded(): seq<string>
      reads this, keys
      requires Valid()
    {
      keys[..nkeys]
    }
  }

  /** What the LOAD loop leaves: the error that stopped it, the registry,
      and the names of the keys it loaded. */
  datatype LoadOutcome = LoadOutcome(error: Option<QueryError>, keys: Keys, loaded: seq<string>)

  /** The entries from the cursor on, each loaded under its name from its
      path unless the registry already has the name. */
  function LoadFrom(c: Cursor, keys: Keys, schema: set<string>, acc: seq<string>): LoadOutcome
    decreases NumRemaining(c)
  {
    if IsAtEnd(c) then LoadOutcome(None, keys, acc)
    else match NextAlias(c, "LOAD", true)
      case Err(e) => LoadOutcome(Some(e), keys, acc)
      case Ok((a, rest)) =>
        match LoadKey(keys, schema, a.name, a.path)
        case None => LoadFrom(rest, keys, schema, acc)
        case Some(k2) => LoadFrom(rest, k2, schema, acc + [a.name])
  }

  /** One entry of the loop. */
  lemma LoadFromStep(c: Cursor, keys: Keys, schema: set<string>, acc: seq<string>)
    requires !IsAtEnd(c)
    ensures var na := NextAlias(c, "LOAD", true);
      && (na.Err? ==> LoadFrom(c, keys, schema, acc) == LoadOutcome(Some(na.error), keys, acc))
      && (na.Ok? ==>
            LoadFrom(c, keys, schema, acc) ==
            (if na.value.0.name in keys then LoadFrom(na.value.1, keys, schema, acc)
             else LoadFrom(na.value.1, keys[na.value.0.name := LookupKey(na.value.0.path, na.value.0.path in schema, false)],
                           schema, acc + [na.value.0.name])))
  {
  }

  /** An existing key is never replaced, and the names loaded are ones the
      registry lacked, each loaded once. */
  lemma {:induction false} LoadFromKeeps(c: Cursor, keys: Keys, schema: set<string>, acc: seq<string>)
    ensures var o := LoadFrom(c, keys, schema, acc);
      && (forall x :: x in keys ==> x in o.keys && o.keys[x] == keys[x])
      && |acc| <= |o.loaded| && o.loaded[..|acc|] == acc
      && (forall i :: |acc| <= i < |o.loaded| ==> o.loaded[i] !in keys && o.loaded[i] in o.keys)
      && (forall i, j :: |acc| <= i < j < |o.loaded| ==> o.loaded[i] != o.loaded[j])
    decreases NumRemaining(c)
  {
    if !IsAtEnd(c) {
      LoadFromStep(c, keys, schema, acc);
      var na := NextAlias(c, "LOAD", true);
      if na.Ok? {
        var (a, rest) := na.value;
        var isNew := a.name !in keys;
        var keys' := if isNew then keys[a.name := LookupKey(a.path, a.path in schema, false)] else keys;
        var acc' := if isNew then acc + [a.name] else acc;
        LoadFromKeeps(rest, keys', schema, acc');
        var o := LoadFrom(c, keys, schema, acc);
        assert o.loaded[..|acc'|] == acc';
        assert o.loaded[..|acc|] == acc by {
          assert acc'[..|acc|] == acc;
        }
        if isNew {
          forall i | |acc| <= i < |o.loaded| ensures o.loaded[i] !in keys && o.loaded[i] in o.keys {
            if i == |acc| {
              assert o.loaded[i] == acc'[i];
            }
          }
          forall i, j | |acc| <= i < j < |o.loaded| ensures o.loaded[i] != o.loaded[j] {
            if i == |acc| {
              assert o.loaded[i] == acc'[i] == a.name;
            }
          }
        }
      }
    }
  }

  /** The loop fails exactly when the entries do not read as a list, with
      the list's error, and on success every listed name is in the
      registry. */
  lemma {:induction false} LoadFromList(c: Cursor, keys: Keys, schema: set<string>, acc: seq<string>)
    ensures var o := LoadFrom(c, keys, schema, acc);
      && (o.error.None? <==> AliasList(c, "LOAD", true).Ok?)
      && (o.error.Some? ==> o.error == Some(AliasList(c, "LOAD", true).error))
      && (o.error.None? ==> forall i :: 0 <= i < |AliasList(c, "LOAD", true).value| ==>
                              AliasList(c, "LOAD", true).value[i].name in o.keys)
    decreases NumRemaining(c)
  {
    if !IsAtEnd(c) {
      AliasListStep(c, "LOAD", true);
      LoadFromStep(c, keys, schema, acc);
      var na := NextAlias(c, "LOAD", true);
      if na.Ok? {
        var (a, rest) := na.value;
        var isNew := a.name !in keys;
        var keys' := if isNew then keys[a.name := LookupKey(a.path, a.path in schema, false)] else keys;
        var acc' := if isNew then acc + [a.name] else acc;
        LoadFromList(rest, keys', schema, acc');
        LoadFromKeeps(rest, keys', schema, acc');
        var o := LoadFrom(c, keys, schema, acc);
        if o.error.None? {
          var xs := AliasList(c, "LOAD", true).value;
          assert xs == [a] + AliasList(rest, "LOAD", true).value;
          forall i | 0 <= i < |xs| ensures xs[i].name in o.keys {
            if i > 0 {
              assert xs[i] == AliasList(rest, "LOAD", true).value[i - 1];
            }
          }
        }
      }
    }
  }

  const LOAD_AFTER_PROJECTION: string := "LOAD cannot be applied after projectors or reducers"

  /** The stages the LOAD case pushes: a loader when it has keys or loads
      every field, nothing otherwise. */
  function LoadStages(loaded: seq<string>, loadAll: bool): seq<Stage> {
    if |loaded| > 0 || loadAll then [Loader(loaded)] else []
  }

  /** The loop of the LOAD case: each entry is read, loaded into `cur`
      unless `cur` already has its name, and the loaded key recorded in
      the step; it stops at the first malformed entry. */
  method LoadEntries(step: LoadStep, cur: Lookup) returns (error: Option<QueryError>)
    requires step.Valid()
    modifies step, step.keys, cur`keys
    ensures step.Valid()
    ensures LoadOutcome(error, cur.keys, step.Loaded())
            == LoadFrom(old(step.args), old(cur.keys), cur.schema, old(step.Loaded()))
  {
    var c := step.args;
    var nk := step.nkeys;
    ghost var loaded := step.keys[..nk];
    ghost var goal := LoadFrom(c, cur.keys, cur.schema, loaded);
    while !IsAtEnd(c)
      invariant step.args == old(step.args) && step.nkeys == old(step.nkeys)
      invariant c.objs == step.args.objs && nk <= c.offset
      invariant loaded == step.keys[..nk]
      invariant LoadFrom(c, cur.keys, cur.schema, loaded) == goal
      decreases NumRemaining(c)
    {
      var na := NextAlias(c, "LOAD", true);
      LoadFromStep(c, cur.keys, cur.schema, loaded);
      if na.Err? {
        step.args := c;
        step.nkeys := nk;
        return Some(na.error);
      }
      var (a, rest) := na.value;
      var k := cur.GetKeyLoad(a.name, a.path);
      if k.Some? {
        step.keys[nk] := a.name;
        nk := nk + 1;
        assert step.keys[..nk] == loaded + [a.name];
        loaded := loaded + [a.name];
      }
      c := rest;
    }
    step.args := c;
    step.nkeys := nk;
    return None;
  }

  /** The end of the LOAD case: a loader is pushed when there is
      something to load, and on a JSON index loading every field yields
      the serialized document, so the fields are no longer all available. */
  method PushLoader(q: QueryIter, cur: Lookup, loaded: seq<string>, loadAll: bool, isJson: bool)
    returns (stages: seq<Stage>)
    requires q.Valid()
    modifies q, cur`allLoaded
    ensures q.Valid() && stages == LoadStages(loaded, loadAll)
    ensures cur.allLoaded == if |stages| > 0 && isJson then false else old(cur.allLoaded)
    ensures q.Stages() == old(q.Stages()) + stages
  {
    stages := LoadStages(loaded, loadAll);
    if |stages| > 0 {
      q.Push(Loader(loaded));
      if isJson {
        cur.allLoaded := false;
      }
    }
  }

  /** The LOAD case of AREQ_BuildPipeline.  `cur` is the registry before
      the step and `root` the plan's first one; a LOAD anywhere else is
      refused.  Each entry is loaded into `cur` and its key recorded, then
      the loader is pushed. */
  method LoadRP(q: QueryIter, step: LoadStep, cur: Lookup, root: Lookup, isJson: bool)
    returns (r: Result<seq<Stage>>)
    requires q.Valid() && step.Valid()
    modifies q, step, step.keys, cur`keys, cur`allLoaded
    ensures q.Valid() && step.Valid()
    ensures cur != root ==> r == Fail(EInval, LOAD_AFTER_PROJECTION)
                            && cur.keys == old(cur.keys) && step.Loaded() == old(step.Loaded())
    ensures cur == root ==>
      var o := LoadFrom(old(step.args), old(cur.keys), cur.schema, old(step.Loaded()));
      && cur.keys == o.keys && step.Loaded() == o.loaded
      && (o.error.Some? ==> r == Err(o.error.value))
      && (o.error.None? ==> r == Ok(LoadStages(o.loaded, step.loadAll)))
    ensures cur.allLoaded == if r.Ok? && |r.value| > 0 && isJson then false else old(cur.allLoaded)
    ensures q.Stages() == old(q.Stages()) + (if r.Ok? then r.value else [])
  {
    if cur != root {
      r := Fail(EInval, LOAD_AFTER_PROJECTION);
      return;
    }
    var error := LoadEntries(step, cur);
    if error.Some? {
      r := Err(error.value);
      return;
    }
    var stages := PushLoader(q, cur, step.Loaded(), step.loadAll, isJson);
    r := Ok(stages);
  }
}
