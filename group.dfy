/** The GROUPBY step of the plan: its properties, its reducers with the
    aliases they are returned as, and the parsing of
    `GROUPBY n @p... [REDUCE f m arg... [AS alias]]...`. */
module Group {
  import opened Errors
  import opened Text
  import opened Args
  import opened Registry
  import opened Seqs

  const GENERATED_ALIAS_PREFIX: string := "__generated_alias"

  /** A PLN_Reducer: the function name, its arguments (a cursor of their
      own, as AC_GetVarArgs hands them out), the alias it is returned as,
      and whether that alias is hidden from the reply. */
  datatype Reducer = Reducer(name: string, args: Cursor, alias: string, isHidden: bool)

  // ---------------------------------------------------------------
  // getReducerAlias
  // ---------------------------------------------------------------

  /** Each argument with its leading '@'s removed. */
  function StrippedArgs(xs: seq<string>): seq<string> {
    if |xs| == 0 then [] else StrippedArgs(xs[..|xs| - 1]) + [StripAts(xs[|xs| - 1])]
  }

  /** The generated alias of a reducer: the prefix, the function name and
      the arguments without their leading '@'s joined by ",", all folded
      to lower case. */
  function ReducerAlias(func: string, args: seq<string>): string {
    LowerStr(GENERATED_ALIAS_PREFIX + func + Joined(StrippedArgs(args)))
  }

  lemma JoinedSnoc(xs: seq<string>, x: string)
    ensures Joined(xs + [x]) == if |xs| == 0 then x else Joined(xs) + "," + x
  {
    assert (xs + [x])[..|xs|] == xs;
  }

  lemma StrippedArgsSnoc(xs: seq<string>, lo: nat, k: nat)
    requires lo <= k < |xs|
    ensures StrippedArgs(xs[lo..k + 1]) == StrippedArgs(xs[lo..k]) + [StripAts(xs[k])]
  {
    assert xs[lo..k + 1][..k - lo] == xs[lo..k];
  }

  /** The inner loop of getReducerAlias: skip every leading '@'. */
  method SkipAts(s: string) returns (r: string)
    ensures r == StripAts(s)
  {
    r := s;
    while StartsWithAt(r)
      invariant StripAts(r) == StripAts(s)
      decreases |r|
    {
      r := r[1..];
    }
  }

  /** The arguments before `k` as getReducerAlias has appended them: a ","
      follows them unless `k` is the last. */
  function JoinedSoFar(xs: seq<string>, lo: nat, k: nat): string
    requires lo <= k <= |xs|
  {
    Joined(StrippedArgs(xs[lo..k])) + (if lo < k < |xs| then "," else "")
  }

  lemma JoinedSoFarStep(xs: seq<string>, lo: nat, k: nat)
    requires lo <= k < |xs|
    ensures JoinedSoFar(xs, lo, k + 1) == JoinedSoFar(xs, lo, k) + StripAts(xs[k]) + (if k + 1 < |xs| then "," else "")
  {
    var a := StripAts(xs[k]);
    var j0 := Joined(StrippedArgs(xs[lo..k]));
    StrippedArgsSnoc(xs, lo, k);
    JoinedSnoc(StrippedArgs(xs[lo..k]), a);
    if lo == k {
      assert xs[lo..k] == [];
      assert j0 == "";
    }
  }

  /** The loop of getReducerAlias: the arguments are walked on a copy of
      their cursor, each appended to `pf` without its leading '@'s and
      followed by "," unless it is the last. */
  method AppendArgs(pf: string, args: Cursor) returns (out: string)
    ensures out == pf + Joined(StrippedArgs(Remaining(args)))
  {
    out := pf;
    var tmp := args;
    ghost var xs := args.objs;
    ghost var lo := args.offset;
    assert xs[lo..lo] == [];
    while !IsAtEnd(tmp)
      invariant tmp.objs == xs && lo <= tmp.offset <= |xs|
      invariant out == pf + JoinedSoFar(xs, lo, tmp.offset)
      decreases NumRemaining(tmp)
    {
      var k := tmp.offset;
      var s := Current(tmp);
      tmp := Advance(tmp, 1);
      s := SkipAts(s);
      var sep := if !IsAtEnd(tmp) then "," else "";
      AppendArgsStep(pf, out, xs, lo, k, s, sep);
      out := out + s + sep;
    }
    assert xs[lo..tmp.offset] == Remaining(args);
    assert JoinedSoFar(xs, lo, tmp.offset) == Joined(StrippedArgs(Remaining(args))) + "";
  }

  lemma AppendArgsStep(pf: string, out: string, xs: seq<string>, lo: nat, k: nat, s: string, sep: string)
    requires lo <= k < |xs| && out == pf + JoinedSoFar(xs, lo, k)
    requires s == StripAts(xs[k]) && sep == (if k + 1 < |xs| then "," else "")
    ensures out + s + sep == pf + JoinedSoFar(xs, lo, k + 1)
  {
    JoinedSoFarStep(xs, lo, k);
    assert pf + (JoinedSoFar(xs, lo, k) + s + sep) == out + s + sep;
  }

  /** getReducerAlias: the prefix, the function name and the arguments,
      folded to lower case. */
  method GetReducerAlias(func: string, args: Cursor) returns (alias: string)
    ensures alias == ReducerAlias(func, Remaining(args))
  {
    var out := AppendArgs(GENERATED_ALIAS_PREFIX + func, args);
    alias := LowerStr(out);
  }

  lemma PrefixIsLower()
    ensures LowerStr(GENERATED_ALIAS_PREFIX) == GENERATED_ALIAS_PREFIX
  {
    forall i | 0 <= i < |GENERATED_ALIAS_PREFIX|
      ensures Lower(GENERATED_ALIAS_PREFIX[i]) == GENERATED_ALIAS_PREFIX[i]
    {
    }
  }

  /** The generated alias is in lower case and starts with the prefix. */
  lemma ReducerAliasShape(func: string, args: seq<string>)
    ensures var r := ReducerAlias(func, args);
      |GENERATED_ALIAS_PREFIX| <= |r| && r[..|GENERATED_ALIAS_PREFIX|] == GENERATED_ALIAS_PREFIX
      && LowerStr(r) == r
  {
    var rest := func + Joined(StrippedArgs(args));
    assert GENERATED_ALIAS_PREFIX + func + Joined(StrippedArgs(args)) == GENERATED_ALIAS_PREFIX + rest;
    LowerStrAppend(GENERATED_ALIAS_PREFIX, rest);
    PrefixIsLower();
    LowerStrIdempotent(GENERATED_ALIAS_PREFIX + rest);
  }

  /** The generated alias does not depend on the case of the function
      name: COUNT and count are returned under the same name. */
  lemma ReducerAliasIgnoresCase(f: string, g: string, args: seq<string>)
    requires EqualsIgnoreCase(f, g)
    ensures ReducerAlias(f, args) == ReducerAlias(g, args)
  {
    EqualsIgnoreCaseFolds(f, g);
    var j := Joined(StrippedArgs(args));
    LowerStrAppend(GENERATED_ALIAS_PREFIX + f, j);
    LowerStrAppend(GENERATED_ALIAS_PREFIX + g, j);
    LowerStrAppend(GENERATED_ALIAS_PREFIX, f);
    LowerStrAppend(GENERATED_ALIAS_PREFIX, g);
  }

  lemma StripAtsOfAt(s: string)
    ensures StripAts("@" + s) == StripAts(s)
  {
    assert ("@" + s)[1..] == s;
  }

  /** The generated alias does not depend on '@' prefixes: an argument
      written with one more leading '@' gives the same alias. */
  lemma ReducerAliasIgnoresAts(func: string, xs: seq<string>, ys: seq<string>)
    requires |xs| == |ys|
    requires forall i :: 0 <= i < |xs| ==> ys[i] == xs[i] || ys[i] == "@" + xs[i]
    ensures ReducerAlias(func, xs) == ReducerAlias(func, ys)
  {
    StrippedArgsIgnoreAts(xs, ys);
  }

  lemma {:induction false} StrippedArgsIgnoreAts(xs: seq<string>, ys: seq<string>)
    requires |xs| == |ys|
    requires forall i :: 0 <= i < |xs| ==> ys[i] == xs[i] || ys[i] == "@" + xs[i]
    ensures StrippedArgs(xs) == StrippedArgs(ys)
  {
    if |xs| > 0 {
      var n := |xs| - 1;
      StrippedArgsIgnoreAts(xs[..n], ys[..n]);
      StripAtsOfAt(xs[n]);
    }
  }

  // ---------------------------------------------------------------
  // PLNGroupStep_AddReducer
  // ---------------------------------------------------------------

  /** What PLNGroupStep_AddReducer reads after the function name: its
      arguments (`m arg...`), then `AS alias` if the next token is AS.  A
      user alias is kept as written; otherwise the alias is generated. */
  function ReadReducer(name: string, c: Cursor): (r: Result<(Reducer, Cursor)>)
    ensures r.Err? ==> r.error.code == EParseArgs
    ensures r.Ok? ==> r.value.0.name == name && !r.value.0.isHidden && r.value.0.args.offset == 0
    ensures r.Ok? ==> NumRemaining(r.value.1) < NumRemaining(c) && r.value.1.objs == c.objs
  {
    match GetVarArgs(c)
    case Failed(_) => Fail(EParseArgs, "Bad arguments for " + name)
    case Got(args, c1) => ReadAlias(name, args, c1)
  }

  /** The optional `AS alias` after a reducer's arguments. */
  function ReadAlias(name: string, args: Cursor, c1: Cursor): (r: Result<(Reducer, Cursor)>)
    ensures r.Err? ==> r.error.code == EParseArgs
    ensures r.Ok? ==> r.value.0 == Reducer(name, args, r.value.0.alias, false)
    ensures r.Ok? ==> NumRemaining(r.value.1) <= NumRemaining(c1) && r.value.1.objs == c1.objs
  {
    var (hasAs, c2) := AdvanceIfMatch(c1, "AS");
    if !hasAs then Ok((Reducer(name, args, ReducerAlias(name, args.objs), false), c1))
    else match GetString(c2)
      case Failed(_) => Fail(EParseArgs, "Bad arguments for AS")
      case Got(alias, c3) => Ok((Reducer(name, args, alias, false), c3))
  }

  /** The tokens of one reducer's arguments and optional alias. */
  function RenderReducerArgs(args: seq<string>, alias: Option<string>): seq<string> {
    [DecimalString(|args|)] + args + (if alias.Some? then ["AS", alias.value] else [])
  }

  /** Reading a spelled reducer gives its arguments back, with the alias
      given after AS, or else the generated one when what follows is not
      AS. */
  lemma ReadReducerRoundTrip(name: string, args: seq<string>, alias: Option<string>,
                             pre: seq<string>, post: seq<string>)
    requires |args| <= UINT_MAX
    requires alias.None? && |post| > 0 ==> !EqualsIgnoreCase(post[0], "AS")
    ensures var toks := pre + RenderReducerArgs(args, alias) + post;
      var r := ReadReducer(name, ArgsCursor(toks, |pre|));
      && r.Ok?
      && Remaining(r.value.0.args) == args
      && r.value.0.alias == (if alias.Some? then alias.value else ReducerAlias(name, args))
      && r.value.1 == ArgsCursor(toks, |pre| + |RenderReducerArgs(args, alias)|)
  {
    var d := DecimalString(|args|);
    var tail := if alias.Some? then ["AS", alias.value] else [];
    var toks := pre + RenderReducerArgs(args, alias) + post;
    var p2 := pre + [d] + args;
    Assoc([d], args, tail);
    Assoc(pre, [d] + args, tail);
    Assoc(pre, [d], args);
    assert toks == p2 + tail + post;
    assert |p2| == |pre| + 1 + |args|;
    assert toks[|pre|] == d;
    assert toks[|pre| + 1..|pre| + 1 + |args|] == args;
    ParseIntOfDecimal(|args|);
    GetVarArgsOfCount(toks, |pre|, |args|);
    ReadAliasOfRender(name, Init(args), alias, p2, post);
  }

  lemma ReadAliasOfRender(name: string, args: Cursor, alias: Option<string>, pre: seq<string>, post: seq<string>)
    requires alias.None? && |post| > 0 ==> !EqualsIgnoreCase(post[0], "AS")
    ensures var toks := pre + (if alias.Some? then ["AS", alias.value] else []) + post;
      var n := if alias.Some? then 2 else 0;
      ReadAlias(name, args, ArgsCursor(toks, |pre|))
        == Ok((Reducer(name, args, if alias.Some? then alias.value else ReducerAlias(name, args.objs), false),
               ArgsCursor(toks, |pre| + n)))
  {
    var toks := pre + (if alias.Some? then ["AS", alias.value] else []) + post;
    var c1: Cursor := ArgsCursor(toks, |pre|);
    if alias.Some? {
      assert Current(c1) == "AS";
      assert Current(Advance(c1, 1)) == alias.value;
    } else if |post| > 0 {
      assert Current(c1) == post[0];
    } else {
      assert IsAtEnd(c1);
    }
  }

  // ---------------------------------------------------------------
  // The step
  // ---------------------------------------------------------------

  /** A PLN_GroupStep: the properties it groups by (each written with its
      '@'), its reducers, and the registry of what it outputs. */
  class GroupStep {
    const properties: seq<string>
    var reducers: seq<Reducer>
    const lookup: Lookup

    /** PLNGroupStep_New: no reducers yet, and an empty registry of its own. */
    constructor (properties: seq<string>)
      ensures this.properties == properties && reducers == []
      ensures fresh(lookup) && lookup.keys == map[] && !lookup.hasSpecCache
    {
      this.properties := properties;
      reducers := [];
      lookup := new Lookup(false, {});
    }

    /** PLNGroupStep_AddReducer: a reducer is appended at the tail, filled
        from the cursor, and popped again if the arguments are malformed. */
    method AddReducer(name: string, c: Cursor) returns (r: Result<Cursor>)
      modifies this`reducers
      ensures r.Ok? <==> ReadReducer(name, c).Ok?
      ensures r.Ok? ==> r.value == ReadReducer(name, c).value.1
                        && reducers == old(reducers) + [ReadReducer(name, c).value.0]
      ensures r.Err? ==> r.error == ReadReducer(name, c).error && reducers == old(reducers)
    {
      reducers := reducers + [Reducer(name, Init([]), "", false)];
      match GetVarArgs(c) {
        case Failed(_) =>
          reducers := reducers[..|reducers| - 1];
          r := Fail(EParseArgs, "Bad arguments for " + name);
          return;
        case Got(args, c1) =>
          var alias: Option<string> := None;
          var rest := c1;
          var (hasAs, c2) := AdvanceIfMatch(c1, "AS");
          if hasAs {
            match GetString(c2) {
              case Failed(_) =>
                reducers := reducers[..|reducers| - 1];
                r := Fail(EParseArgs, "Bad arguments for AS");
                return;
              case Got(a, c3) =>
                alias := Some(a);
                rest := c3;
            }
          }
          var finalAlias: string;
          if alias.None? {
            finalAlias := GetReducerAlias(name, args);
            assert Remaining(args) == args.objs;
          } else {
            finalAlias := alias.value;
          }
          reducers := reducers[..|reducers| - 1] + [Reducer(name, args, finalAlias, false)];
          r := Ok(rest);
      }
    }

    /** One pass of parseGroupby's REDUCE loop: nothing when there is no
        further REDUCE clause or it is malformed, otherwise the reducer is
        appended and the cursor moves past it. */
    method ReduceClause(cur: Cursor) returns (r: Clause)
      modifies this`reducers
      ensures r == NextClause(cur)
      ensures reducers == old(reducers) + (if r.GoodClause? then [r.reducer] else [])
    {
      var (more, c2) := AdvanceIfMatch(cur, "REDUCE");
      if !more {
        return NoClause;
      }
      match GetString(c2) {
        case Failed(_) =>
          return BadClause(QueryError(EParseArgs, "Bad arguments for REDUCE"));
        case Got(name, c3) =>
          var added := AddReducer(name, c3);
          if added.Err? {
            return BadClause(added.error);
          }
          return GoodClause(ReadReducer(name, c3).value.0, added.value);
      }
    }

    /** parseGroupby's REDUCE loop: clauses are read until one is missing
        or malformed, each appending its reducer. */
    method ReduceAll(c1: Cursor) returns (r: Result<Cursor>)
      modifies this`reducers
      ensures reducers == old(reducers) + ReduceClauses(c1).0
      ensures r == ReduceClauses(c1).1
    {
      var cur := c1;
      while true
        invariant old(reducers) + ReduceClauses(c1).0 == reducers + ReduceClauses(cur).0
        invariant ReduceClauses(c1).1 == ReduceClauses(cur).1
        decreases NumRemaining(cur)
      {
        ghost var before := reducers;
        var cl := ReduceClause(cur);
        ReduceClausesUnfold(cur);
        if !cl.GoodClause? {
          assert reducers + [] == reducers;
          return if cl.NoClause? then Ok(cur) else Err(cl.error);
        }
        Assoc(before, [cl.reducer], ReduceClauses(cl.rest).0);
        cur := cl.rest;
      }
    }
  }

  /** AC_Equals: the two cursors have the same tokens left. */
  predicate AcEquals(a: Cursor, b: Cursor) {
    Remaining(a) == Remaining(b)
  }

  /** A reducer matches a query when the function names agree ignoring
      case and the arguments agree in number and, token by token, exactly. */
  predicate Matches(gr: Reducer, name: string, nvars: int, ac: Cursor) {
    nvars == |gr.args.objs| && EqualsIgnoreCase(gr.name, name) && AcEquals(ac, gr.args)
  }

  /** The first reducer from index `i` on that matches. */
  function FirstMatch(rs: seq<Reducer>, i: nat, name: string, nvars: int, ac: Cursor): Option<nat>
    decreases |rs| - i
  {
    if i >= |rs| then None
    else if Matches(rs[i], name, nvars, ac) then Some(i)
    else FirstMatch(rs, i + 1, name, nvars, ac)
  }

  /** What is found is a matching reducer with none matching before it,
      and nothing is found only when none matches. */
  lemma {:induction false} FirstMatchMeaning(rs: seq<Reducer>, i: nat, name: string, nvars: int, ac: Cursor)
    ensures var r := FirstMatch(rs, i, name, nvars, ac);
      && (r.Some? ==> i <= r.value < |rs| && Matches(rs[r.value], name, nvars, ac)
                      && forall j :: i <= j < r.value ==> !Matches(rs[j], name, nvars, ac))
      && (r.None? ==> forall j :: i <= j < |rs| ==> !Matches(rs[j], name, nvars, ac))
    decreases |rs| - i
  {
    if i < |rs| && !Matches(rs[i], name, nvars, ac) {
      FirstMatchMeaning(rs, i + 1, name, nvars, ac);
    }
  }

  /** PLNGroupStep_FindReducer: the argument count is read from the
      cursor, then the first reducer that matches is found; nothing is
      found when the count cannot be read or no reducer matches. */
  method FindReducer(g: GroupStep, name: string, c: Cursor) returns (found: Option<nat>, rest: Cursor)
    ensures var n := GetLongLong(c, AnyValue);
      && (n.Failed? ==> found.None? && rest == c)
      && (n.Got? ==> rest == n.rest && found == FirstMatch(g.reducers, 0, name, n.value, rest))
  {
    var n := GetLongLong(c, AnyValue);
    if n.Failed? {
      return None, c;
    }
    var nvars := n.value;
    rest := n.rest;
    var ii := 0;
    while ii < |g.reducers|
      invariant 0 <= ii <= |g.reducers|
      invariant FirstMatch(g.reducers, ii, name, nvars, rest) == FirstMatch(g.reducers, 0, name, nvars, rest)
      decreases |g.reducers| - ii
    {
      if Matches(g.reducers[ii], name, nvars, rest) {
        return Some(ii), rest;
      }
      ii := ii + 1;
    }
    found := None;
  }

  // ---------------------------------------------------------------
  // parseGroupby
  // ---------------------------------------------------------------

  /** The first property not written with its '@'. */
  function FirstWithoutAt(ps: seq<string>): (r: Option<nat>)
    ensures r.None? <==> forall i :: 0 <= i < |ps| ==> StartsWithAt(ps[i])
    ensures r.Some? ==> r.value < |ps| && !StartsWithAt(ps[r.value])
                        && forall i :: 0 <= i < r.value ==> StartsWithAt(ps[i])
  {
    if |ps| == 0 then None
    else if !StartsWithAt(ps[0]) then Some(0)
    else match FirstWithoutAt(ps[1..])
      case None => None
      case Some(k) => Some(k + 1)
  }

  /** The properties of GROUPBY: a count and that many tokens, every one
      of which must be a property written with '@'. */
  function GroupbyProperties(c: Cursor): (r: Result<(seq<string>, Cursor)>)
    ensures r.Ok? ==> forall i :: 0 <= i < |r.value.0| ==> StartsWithAt(r.value.0[i])
    ensures r.Ok? ==> GetVarArgs(c).Got? && r.value.0 == GetVarArgs(c).value.objs
                      && r.value.1 == GetVarArgs(c).rest
    ensures GetVarArgs(c).Got? && r.Err? ==> !forall i :: 0 <= i < |GetVarArgs(c).value.objs| ==> StartsWithAt(GetVarArgs(c).value.objs[i])
    ensures r.Err? ==> r.error.code == EParseArgs
  {
    match GetVarArgs(c)
    case Failed(_) => Fail(EParseArgs, "Bad arguments for GROUPBY")
    case Got(ga, rest) =>
      match FirstWithoutAt(ga.objs)
      case Some(k) =>
        Fail(EParseArgs, "Bad arguments for GROUPBY: Unknown property `" + ga.objs[k]
                         + "`. Did you mean `@" + ga.objs[k] + "`?")
      case None => Ok((ga.objs, rest))
  }

  /** What one pass of the REDUCE loop finds: no further clause, a
      malformed one, or a reducer and the cursor after it. */
  datatype Clause = NoClause | BadClause(error: QueryError) | GoodClause(reducer: Reducer, rest: Cursor)

  function NextClause(c: Cursor): (r: Clause)
    ensures r.GoodClause? ==> r.rest.objs == c.objs && NumRemaining(r.rest) < NumRemaining(c)
  {
    var (more, c1) := AdvanceIfMatch(c, "REDUCE");
    if !more then NoClause
    else match GetString(c1)
      case Failed(_) => BadClause(QueryError(EParseArgs, "Bad arguments for REDUCE"))
      case Got(name, c2) =>
        match ReadReducer(name, c2)
        case Err(e) => BadClause(e)
        case Ok((gr, c3)) => GoodClause(gr, c3)
  }

  /** The REDUCE clauses after the properties: the reducers read, in
      order, and the cursor after the last clause, or the error that
      stopped them (the reducers read before it stay in the step). */
  function ReduceClauses(c: Cursor): (r: (seq<Reducer>, Result<Cursor>))
    decreases NumRemaining(c)
  {
    match NextClause(c)
    case NoClause => ([], Ok(c))
    case BadClause(e) => ([], Err(e))
    case GoodClause(gr, rest) =>
      var (rs, res) := ReduceClauses(rest);
      ([gr] + rs, res)
  }

  lemma ReduceClausesUnfold(c: Cursor)
    ensures NextClause(c).NoClause? ==> ReduceClauses(c) == ([], Ok(c))
    ensures NextClause(c).BadClause? ==> ReduceClauses(c) == ([], Err(NextClause(c).error))
    ensures NextClause(c).GoodClause? ==>
      ReduceClauses(c) == ([NextClause(c).reducer] + ReduceClauses(NextClause(c).rest).0,
                           ReduceClauses(NextClause(c).rest).1)
  {
  }

  /** parseGroupby: the step is created once its properties are read and
      checked, before its reducers are; a reducer error leaves the step in
      place with the reducers read so far. */
  method ParseGroupby(c: Cursor) returns (g: GroupStep?, r: Result<Cursor>)
    ensures g == null <==> GroupbyProperties(c).Err?
    ensures g == null ==> r == Err(GroupbyProperties(c).error)
    ensures g != null ==>
      && fresh(g) && fresh(g.lookup) && g.lookup.keys == map[]
      && g.properties == GroupbyProperties(c).value.0
      && g.reducers == ReduceClauses(GroupbyProperties(c).value.1).0
      && r == ReduceClauses(GroupbyProperties(c).value.1).1
  {
    var props := GroupbyProperties(c);
    if props.Err? {
      return null, Err(props.error);
    }
    var (ps, c1) := props.value;
    g := new GroupStep(ps);
    r := g.ReduceAll(c1);
  }
}
