/** The ARRANGE step of the plan (PLN_ArrangeStep) and the two clauses
    that fill it: LIMIT offset num, and SORTBY with its ascending bitmap
    and optional MAX. */
module Arrange {
  import opened Errors
  import opened Text
  import opened Args
  import opened Flags

  const SORTASCMAP_MAXFIELDS: nat := 64

  /** The `uint64_t` ascending bitmap of a sort, bit i as element i:
      true is ascending, false descending. */
  type AscMap = m: seq<bool> | |m| == 64 witness Uniform(false)

  /** 64 copies of one bit. */
  function Uniform(b: bool): (m: seq<bool>)
    ensures |m| == 64 && forall i :: 0 <= i < 64 ==> m[i] == b
  {
    seq(64, i => b)
  }

  /** SORTASCMAP_INIT: every key ascending. */
  const SORTASCMAP_INIT: AscMap := Uniform(true)

  /** offset and limit are `uint64_t`; sortKeys is NULL until a SORTBY. */
  datatype ArrangeStep = ArrangeStep(isLimited: bool, offset: nat, limit: nat,
                                     sortKeys: Option<seq<string>>, sortAscMap: AscMap)

  /** A freshly allocated (zeroed) arrange step. */
  const NewArrangeStep: ArrangeStep := ArrangeStep(false, 0, 0, None, Uniform(false))

  // ---------------------------------------------------------------
  // The ascending bitmap (SORTASCMAP_SETASC / SETDESC / GETASC)
  // ---------------------------------------------------------------

  function SetAsc(m: AscMap, i: nat): AscMap
    requires i < 64
  {
    m[i := true]
  }

  function SetDesc(m: AscMap, i: nat): AscMap
    requires i < 64
  {
    m[i := false]
  }

  predicate IsAsc(m: AscMap, i: nat)
    requires i < 64
  {
    m[i]
  }

  // ---------------------------------------------------------------
  // LIMIT offset num
  // ---------------------------------------------------------------

  /** Two `uint64_t` arguments follow. */
  predicate TwoU64(c: Cursor) {
    NumRemaining(c) >= 2
    && ParseInt(c.objs[c.offset]).Some? && 0 <= ParseInt(c.objs[c.offset]).value <= U64_MAX
    && ParseInt(c.objs[c.offset + 1]).Some? && 0 <= ParseInt(c.objs[c.offset + 1]).value <= U64_MAX
  }

  /** The limits LIMIT must respect, in the order the compiler checks them. */
  predicate LimitAccepted(offset: nat, limit: nat, isSearch: bool, maxSearch: nat, maxAggregate: nat) {
    !(limit == 0 && offset != 0)
    && (limit == 0 || (limit <= (if isSearch then maxSearch else maxAggregate) && offset <= maxSearch))
  }

  /** The LIMIT branch of handleCommonArgs.  LIMIT 0 0 asks for the count
      only and sets NOROWS and SEND_NOFIELDS. */
  function ParseLimit(a: ArrangeStep, c: Cursor, f: ReqFlags, maxSearch: nat, maxAggregate: nat)
    : (r: Result<(ArrangeStep, ReqFlags, Cursor)>)
    ensures r.Ok? <==> TwoU64(c) && LimitAccepted(ParseInt(c.objs[c.offset]).value, ParseInt(c.objs[c.offset + 1]).value,
                                                  IsSearch in f, maxSearch, maxAggregate)
    ensures r.Err? ==> r.error.code == (if TwoU64(c) then ELimit else EParseArgs)
    ensures r.Ok? ==> r.value.0 == a.(isLimited := true, offset := ParseInt(c.objs[c.offset]).value,
                                      limit := ParseInt(c.objs[c.offset + 1]).value)
    ensures r.Ok? ==> r.value.2 == Advance(c, 2)
    ensures r.Ok? ==> r.value.1 == if r.value.0.limit == 0 then f + {NoRows, SendNoFields} else f
  {
    var a := a.(isLimited := true);
    if NumRemaining(c) < 2 then Fail(EParseArgs, "LIMIT requires two arguments")
    else match GetU64(c, AnyValue)
      case Failed(_) => Fail(EParseArgs, "LIMIT needs two numeric arguments")
      case Got(offset, c1) =>
        match GetU64(c1, AnyValue)
        case Failed(_) => Fail(EParseArgs, "LIMIT needs two numeric arguments")
        case Got(limit, c2) =>
          if limit == 0 && offset != 0 then
            Fail(ELimit, "The `offset` of the LIMIT must be 0 when `num` is 0")
          else if limit == 0 then
            Ok((a.(offset := offset, limit := limit), f + {NoRows, SendNoFields}, c2))
          else if limit > maxSearch && IsSearch in f then
            Fail(ELimit, "LIMIT exceeds maximum of " + DecimalString(maxSearch))
          else if limit > maxAggregate && IsSearch !in f then
            Fail(ELimit, "LIMIT exceeds maximum of " + DecimalString(maxAggregate))
          else if offset > maxSearch then
            Fail(ELimit, "OFFSET exceeds maximum of " + DecimalString(maxSearch))
          else Ok((a.(offset := offset, limit := limit), f, c2))
  }

  // ---------------------------------------------------------------
  // SORTBY: the field list
  // ---------------------------------------------------------------

  /** The keys read so far and their ascending bitmap. */
  datatype SortSpec = SortSpec(keys: seq<string>, ascMap: AscMap)

  /** What the loop keeps: never more than SORTASCMAP_MAXFIELDS keys. */
  type SortState = st: SortSpec | |st.keys| <= SORTASCMAP_MAXFIELDS witness SortSpec([], Uniform(true))

  predicate IsDirection(s: string) {
    EqualsIgnoreCase(s, "ASC") || EqualsIgnoreCase(s, "DESC")
  }

  /** One token of a non-legacy SORTBY list: `@name` adds a key (at most
      SORTASCMAP_MAXFIELDS of them), ASC or DESC sets the direction of the
      key before it, anything else is an error.  A direction with no key
      before it is refused (the source's behaviour there is the finding
      that SortFieldStepAsWritten records). */
  function SortFieldStep(st: SortState, s: string): Result<SortState> {
    if StartsWithAt(s) then
      if |st.keys| >= SORTASCMAP_MAXFIELDS then Fail(ELimit, "Cannot sort by more than 64 fields")
      else Ok(st.(keys := st.keys + [s[1..]]))
    else if IsDirection(s) && |st.keys| == 0 then
      Fail(EParseArgs, "ASC or DESC must follow a sort field")
    else if EqualsIgnoreCase(s, "ASC") then Ok(st.(ascMap := SetAsc(st.ascMap, |st.keys| - 1)))
    else if EqualsIgnoreCase(s, "DESC") then Ok(st.(ascMap := SetDesc(st.ascMap, |st.keys| - 1)))
    else Fail(EParseArgs, "MISSING ASC or DESC after sort field (" + s + ")")
  }

  /** The tokens of a SORTBY list read from the left, stopping at the first error. */
  function ParseSortFields(toks: seq<string>): (r: Result<SortState>)
    ensures r.Err? ==> r.error.code == EParseArgs || r.error.code == ELimit
  {
    if |toks| == 0 then Ok(SortSpec([], SORTASCMAP_INIT))
    else match ParseSortFields(toks[..|toks| - 1])
      case Err(e) => Err(e)
      case Ok(st) => SortFieldStep(st, toks[|toks| - 1])
  }

  lemma {:induction false} SortFieldsErrorSticks(p: seq<string>, q: seq<string>)
    requires ParseSortFields(p).Err?
    ensures ParseSortFields(p + q) == ParseSortFields(p)
  {
    if |q| > 0 {
      assert (p + q)[..|p + q| - 1] == p + q[..|q| - 1];
      SortFieldsErrorSticks(p, q[..|q| - 1]);
    } else {
      assert p + q == p;
    }
  }

  // ---------------------------------------------------------------
  // What a SORTBY list means: independent reference definitions
  // ---------------------------------------------------------------

  /** The `@` tokens with the `@` removed, in order. */
  function AtNames(toks: seq<string>): seq<string> {
    if |toks| == 0 then []
    else AtNames(toks[..|toks| - 1]) + (if StartsWithAt(toks[|toks| - 1]) then [toks[|toks| - 1][1..]] else [])
  }

  /** A sort key with its direction. */
  datatype SortKey = SortKey(name: string, asc: bool)

  function SortKeyStep(ks: seq<SortKey>, s: string): seq<SortKey> {
    if StartsWithAt(s) then ks + [SortKey(s[1..], true)]
    else if |ks| > 0 && EqualsIgnoreCase(s, "ASC") then ks[..|ks| - 1] + [ks[|ks| - 1].(asc := true)]
    else if |ks| > 0 && EqualsIgnoreCase(s, "DESC") then ks[..|ks| - 1] + [ks[|ks| - 1].(asc := false)]
    else ks
  }

  /** The sort keys a list asks for: each `@name` ascending unless an ASC
      or DESC after it, and before the next key, says otherwise; the last
      such token wins. */
  function SortKeysOf(toks: seq<string>): seq<SortKey> {
    if |toks| == 0 then [] else SortKeyStep(SortKeysOf(toks[..|toks| - 1]), toks[|toks| - 1])
  }

  /** A well-formed list: only `@name`, ASC and DESC tokens, a key first,
      and at most SORTASCMAP_MAXFIELDS keys. */
  predicate ValidSortTokens(toks: seq<string>) {
    (forall i :: 0 <= i < |toks| ==> StartsWithAt(toks[i]) || IsDirection(toks[i]))
    && (|toks| > 0 ==> StartsWithAt(toks[0]))
    && |AtNames(toks)| <= SORTASCMAP_MAXFIELDS
  }

  /** The bitmap agrees with a list of keys and directions: key i is
      ascending exactly when bit i is set, and the bits past the last key
      are set. */
  predicate Encodes(st: SortState, ks: seq<SortKey>) {
    && |ks| == |st.keys|
    && (forall i :: 0 <= i < |ks| ==> ks[i] == SortKey(st.keys[i], IsAsc(st.ascMap, i)))
    && (forall i :: |ks| <= i < 64 ==> IsAsc(st.ascMap, i))
  }

  lemma StepEncodes(st: SortState, ks: seq<SortKey>, s: string)
    requires Encodes(st, ks) && SortFieldStep(st, s).Ok?
    ensures Encodes(SortFieldStep(st, s).value, SortKeyStep(ks, s))
  {
    var sp := SortFieldStep(st, s).value;
    var n := |st.keys|;
    if StartsWithAt(s) {
      assert sp == st.(keys := st.keys + [s[1..]]);
    } else if EqualsIgnoreCase(s, "ASC") {
      assert sp == st.(ascMap := SetAsc(st.ascMap, n - 1));
      var ks' := ks[..n - 1] + [ks[n - 1].(asc := true)];
      assert SortKeyStep(ks, s) == ks';
      forall i | 0 <= i < n ensures ks'[i] == SortKey(sp.keys[i], IsAsc(sp.ascMap, i)) {
        if i < n - 1 {
          assert ks'[i] == ks[i];
        }
      }
      forall i | n <= i < 64 ensures IsAsc(sp.ascMap, i) {
        assert IsAsc(st.ascMap, i);
      }
    } else {
      assert sp == st.(ascMap := SetDesc(st.ascMap, n - 1));
      var ks' := ks[..n - 1] + [ks[n - 1].(asc := false)];
      assert SortKeyStep(ks, s) == ks';
      forall i | 0 <= i < n ensures ks'[i] == SortKey(sp.keys[i], IsAsc(sp.ascMap, i)) {
        if i < n - 1 {
          assert ks'[i] == ks[i];
        }
      }
      forall i | n <= i < 64 ensures IsAsc(sp.ascMap, i) {
        assert IsAsc(st.ascMap, i);
      }
    }
  }

  /** The accepted key list and bitmap mean what the reference reading
      says: the keys are the `@` tokens without their `@`, in order, and
      the bitmap holds the direction of each. */
  lemma {:induction false} SortFieldsMeaning(toks: seq<string>)
    ensures ParseSortFields(toks).Ok? ==> ParseSortFields(toks).value.keys == AtNames(toks)
    ensures ParseSortFields(toks).Ok? ==> Encodes(ParseSortFields(toks).value, SortKeysOf(toks))
  {
    if |toks| > 0 {
      var p := toks[..|toks| - 1];
      var s := toks[|toks| - 1];
      SortFieldsMeaning(p);
      if ParseSortFields(toks).Ok? {
        var st := ParseSortFields(p).value;
        assert ParseSortFields(toks) == SortFieldStep(st, s);
        StepEncodes(st, SortKeysOf(p), s);
        assert SortKeysOf(toks) == SortKeyStep(SortKeysOf(p), s);
        assert AtNames(toks) == AtNames(p) + (if StartsWithAt(s) then [s[1..]] else []);
      }
    }
  }

  lemma {:induction false} FirstKeyCounts(toks: seq<string>)
    requires |toks| > 0 && StartsWithAt(toks[0])
    ensures |AtNames(toks)| >= 1
  {
    if |toks| > 1 {
      assert toks[..|toks| - 1][0] == toks[0];
      FirstKeyCounts(toks[..|toks| - 1]);
    }
  }

  lemma StepAccepted(st: SortState, s: string)
    ensures SortFieldStep(st, s).Ok? <==>
      (StartsWithAt(s) && |st.keys| < SORTASCMAP_MAXFIELDS) || (!StartsWithAt(s) && IsDirection(s) && |st.keys| > 0)
  {
  }

  /** A SORTBY list is accepted exactly when it is well formed. */
  lemma {:induction false} SortFieldsAccepted(toks: seq<string>)
    ensures ParseSortFields(toks).Ok? <==> ValidSortTokens(toks)
  {
    if |toks| > 0 {
      var p := toks[..|toks| - 1];
      var s := toks[|toks| - 1];
      SortFieldsAccepted(p);
      SortFieldsMeaning(p);
      assert forall i :: 0 <= i < |p| ==> p[i] == toks[i];
      assert AtNames(toks) == AtNames(p) + (if StartsWithAt(s) then [s[1..]] else []);
      if |p| > 0 && StartsWithAt(p[0]) {
        FirstKeyCounts(p);
      }
      if ParseSortFields(p).Ok? {
        StepAccepted(ParseSortFields(p).value, s);
      }
      if ValidSortTokens(toks) {
        assert ValidSortTokens(p);
      }
    }
  }

  // ---------------------------------------------------------------
  // SORTBY: the whole clause
  // ---------------------------------------------------------------

  /** The next token is `s`, ignoring case. */
  predicate NextIs(c: Cursor, s: string) {
    !IsAtEnd(c) && EqualsIgnoreCase(Current(c), s)
  }

  /** Where the legacy form stops: after the field, and after the ASC or
      DESC that follows it, if any. */
  function LegacyRest(c: Cursor): Cursor
    requires NumRemaining(c) > 0
  {
    var c1 := Advance(c, 1);
    if NextIs(c1, "DESC") || NextIs(c1, "ASC") then Advance(c1, 1) else c1
  }

  /** The legacy (FT.SEARCH) form: one field, taken as written, and an
      optional ASC or DESC.  Only a DESC makes the key descending. */
  function LegacySortFields(c: Cursor): (r: Result<(SortSpec, Cursor)>)
    ensures r.Ok? <==> NumRemaining(c) > 0
    ensures r.Err? ==> r.error.code == EParseArgs
    ensures r.Ok? ==> r.value.0.keys == [Current(c)] && r.value.1 == LegacyRest(c)
    ensures r.Ok? ==> (IsAsc(r.value.0.ascMap, 0) <==> !NextIs(Advance(c, 1), "DESC"))
    ensures r.Ok? ==> forall i :: 0 < i < 64 ==> IsAsc(r.value.0.ascMap, i)
  {
    if NumRemaining(c) == 0 then Fail(EParseArgs, "Bad SORTBY arguments")
    else
      var (sub, c1) := GetSlice(c, 1);
      var (desc, c2) := AdvanceIfMatch(c1, "DESC");
      var c3 := if desc then c2 else AdvanceIfMatch(c1, "ASC").1;
      Ok((SortSpec([sub.objs[0]], if desc then SetDesc(SORTASCMAP_INIT, 0) else SORTASCMAP_INIT), c3))
  }

  /** The non-legacy form: a counted list of tokens. */
  function CountedSortFields(c: Cursor): Result<(SortSpec, Cursor)> {
    match GetVarArgs(c)
    case Failed(_) => Fail(EParseArgs, "Bad arguments for SORTBY")
    case Got(sub, rest) =>
      match ParseSortFields(sub.objs)
      case Err(e) => Err(e)
      case Ok(sp) => Ok((sp, rest))
  }

  /** The argument of MAX is an `unsigned int`. */
  predicate MaxValueOk(c: Cursor) {
    NumRemaining(c) > 1 && ParseInt(c.objs[c.offset + 1]).Some?
    && 0 <= ParseInt(c.objs[c.offset + 1]).value <= UINT_MAX
  }

  /** The optional MAX after the list, then the step is filled in.
      Without MAX the limit and the cursor stay; `MAX n` sets the limit to
      n; FT.SEARCH and a bad number refuse it. */
  function SortMax(a: ArrangeStep, sp: SortSpec, c: Cursor, isLegacy: bool): (r: Result<(ArrangeStep, Cursor)>)
    ensures r.Ok? ==> r.value.0 == a.(limit := r.value.0.limit, sortAscMap := sp.ascMap, sortKeys := Some(sp.keys))
    ensures r.Err? ==> r.error.code == EParseArgs
    ensures r.Ok? <==> !NextIs(c, "MAX") || (!isLegacy && MaxValueOk(c))
    ensures r.Ok? && !NextIs(c, "MAX") ==> r.value.0.limit == a.limit && r.value.1 == c
    ensures r.Ok? && NextIs(c, "MAX") ==>
      r.value.0.limit == ParseInt(c.objs[c.offset + 1]).value && r.value.1 == Advance(c, 2)
  {
    var (mx, c1) := AdvanceIfMatch(c, "MAX");
    if !mx then Ok((a.(sortAscMap := sp.ascMap, sortKeys := Some(sp.keys)), c))
    else if isLegacy then Fail(EParseArgs, "SORTBY MAX is not supported by FT.SEARCH")
    else match GetUnsigned(c1, AnyValue)
      case Failed(_) => Fail(EParseArgs, "Bad arguments for MAX")
      case Got(m, c2) => Ok((a.(limit := m, sortAscMap := sp.ascMap, sortKeys := Some(sp.keys)), c2))
  }

  /** parseSortby.  A second SORTBY on the same step is refused; on
      success the keys and bitmap are stored in the step and nothing else
      changes but the limit, which MAX sets. */
  function Sortby(a: ArrangeStep, c: Cursor, isLegacy: bool): (r: Result<(ArrangeStep, Cursor)>)
    ensures a.sortKeys.Some? ==> r.Err? && r.error.code == EParseArgs
    ensures r.Ok? ==> r.value.0.sortKeys.Some?
    ensures r.Ok? ==> r.value.0 == a.(limit := r.value.0.limit, sortAscMap := r.value.0.sortAscMap,
                                      sortKeys := r.value.0.sortKeys)
    ensures r.Ok? && isLegacy ==> r.value.0.limit == a.limit
    ensures r.Err? ==> r.error.code == EParseArgs || r.error.code == ELimit
    ensures isLegacy && a.sortKeys.None? ==>
      (r.Ok? <==> NumRemaining(c) > 0 && !NextIs(LegacyRest(c), "MAX"))
    ensures r.Ok? && isLegacy ==>
      && r.value.0.sortKeys == Some([Current(c)]) && r.value.1 == LegacyRest(c)
      && (IsAsc(r.value.0.sortAscMap, 0) <==> !NextIs(Advance(c, 1), "DESC"))
      && forall i :: 0 < i < 64 ==> IsAsc(r.value.0.sortAscMap, i)
  {
    if a.sortKeys.Some? then
      Fail(EParseArgs, if isLegacy then "Multiple SORTBY steps are not allowed"
                       else "Multiple SORTBY steps are not allowed. Sort multiple fields in a single step")
    else
      match (if isLegacy then LegacySortFields(c) else CountedSortFields(c))
      case Err(e) => Err(e)
      case Ok((sp, rest)) => SortMax(a, sp, rest, isLegacy)
  }

  /** SORTBY in FT.AGGREGATE stores exactly the keys and directions its
      list names, and is refused exactly when the list is malformed. */
  lemma CountedSortbyMeaning(a: ArrangeStep, c: Cursor, sub: Cursor, rest: Cursor)
    requires a.sortKeys.None? && GetVarArgs(c) == Got(sub, rest)
    ensures ParseSortFields(sub.objs).Err? <==> !ValidSortTokens(sub.objs)
    ensures Sortby(a, c, false).Ok? <==> ValidSortTokens(sub.objs) && (NextIs(rest, "MAX") ==> MaxValueOk(rest))
    ensures Sortby(a, c, false).Ok? ==>
      var st := Sortby(a, c, false).value.0;
      && st.sortKeys == Some(AtNames(sub.objs))
      && Encodes(SortSpec(st.sortKeys.value, st.sortAscMap), SortKeysOf(sub.objs))
    ensures Sortby(a, c, false).Ok? ==>
      var (st, after) := Sortby(a, c, false).value;
      if NextIs(rest, "MAX") then st.limit == ParseInt(rest.objs[rest.offset + 1]).value && after == Advance(rest, 2)
      else st.limit == a.limit && after == rest
  {
    SortFieldsAccepted(sub.objs);
    SortFieldsMeaning(sub.objs);
  }

  /** The loop of parseSortby over a counted list, updating the key list
      and the bitmap in place as each token is read. */
  method WalkSortFields(toks: seq<string>) returns (r: Result<SortState>)
    ensures r == ParseSortFields(toks)
  {
    var keys: seq<string> := [];
    var ascMap := SORTASCMAP_INIT;
    var i := 0;
    while i < |toks|
      invariant 0 <= i <= |toks| && |keys| <= SORTASCMAP_MAXFIELDS
      invariant ParseSortFields(toks[..i]) == Ok(SortSpec(keys, ascMap))
    {
      var s := toks[i];
      assert toks[..i + 1][..i] == toks[..i];
      var st: SortState := SortSpec(keys, ascMap);
      if StartsWithAt(s) {
        if |keys| >= SORTASCMAP_MAXFIELDS {
          r := Fail(ELimit, "Cannot sort by more than 64 fields");
          assert ParseSortFields(toks[..i + 1]) == r;
          SortFieldsErrorSticks(toks[..i + 1], toks[i + 1..]);
          assert toks[..i + 1] + toks[i + 1..] == toks;
          return;
        }
        keys := keys + [s[1..]];
      } else if IsDirection(s) && |keys| == 0 {
        r := Fail(EParseArgs, "ASC or DESC must follow a sort field");
        assert ParseSortFields(toks[..i + 1]) == r;
        SortFieldsErrorSticks(toks[..i + 1], toks[i + 1..]);
        assert toks[..i + 1] + toks[i + 1..] == toks;
        return;
      } else if EqualsIgnoreCase(s, "ASC") {
        ascMap := SetAsc(ascMap, |keys| - 1);
      } else if EqualsIgnoreCase(s, "DESC") {
        ascMap := SetDesc(ascMap, |keys| - 1);
      } else {
        r := Fail(EParseArgs, "MISSING ASC or DESC after sort field (" + s + ")");
        assert ParseSortFields(toks[..i + 1]) == r;
        SortFieldsErrorSticks(toks[..i + 1], toks[i + 1..]);
        assert toks[..i + 1] + toks[i + 1..] == toks;
        return;
      }
      assert ParseSortFields(toks[..i + 1]) == SortFieldStep(st, s);
      i := i + 1;
    }
    assert toks[..i] == toks;
    r := Ok(SortSpec(keys, ascMap));
  }

  /** The legacy list of parseSortby: one field and an optional
      direction. */
  method ReadLegacySortFields(c: Cursor) returns (r: Result<(SortSpec, Cursor)>)
    ensures r == LegacySortFields(c)
  {
    if NumRemaining(c) == 0 {
      return Fail(EParseArgs, "Bad SORTBY arguments");
    }
    var (sub, c1) := GetSlice(c, 1);
    var ascMap := SORTASCMAP_INIT;
    var (desc, c2) := AdvanceIfMatch(c1, "DESC");
    var ac := c2;
    if desc {
      ascMap := SetDesc(ascMap, 0);
    } else {
      var (_, c3) := AdvanceIfMatch(c1, "ASC");
      ac := c3;
    }
    r := Ok((SortSpec([sub.objs[0]], ascMap), ac));
  }

  /** The counted list of parseSortby. */
  method ReadCountedSortFields(c: Cursor) returns (r: Result<(SortSpec, Cursor)>)
    ensures r == CountedSortFields(c)
  {
    var got := GetVarArgs(c);
    if got.Failed? {
      return Fail(EParseArgs, "Bad arguments for SORTBY");
    }
    var fields := WalkSortFields(got.value.objs);
    if fields.Err? {
      return Err(fields.error);
    }
    r := Ok((fields.value, got.rest));
  }

  /** parseSortby as the compiler runs it. */
  method ParseSortby(a: ArrangeStep, c: Cursor, isLegacy: bool) returns (r: Result<(ArrangeStep, Cursor)>)
    ensures r == Sortby(a, c, isLegacy)
  {
    if a.sortKeys.Some? {
      r := Fail(EParseArgs, if isLegacy then "Multiple SORTBY steps are not allowed"
                            else "Multiple SORTBY steps are not allowed. Sort multiple fields in a single step");
      return;
    }
    var fields;
    if isLegacy {
      fields := ReadLegacySortFields(c);
    } else {
      fields := ReadCountedSortFields(c);
    }
    if fields.Err? {
      return Err(fields.error);
    }
    var (sp, ac) := fields.value;
    r := ApplySortMax(a, sp, ac, isLegacy);
  }

  /** The optional MAX of parseSortby, then the step is filled in. */
  method ApplySortMax(a: ArrangeStep, sp: SortSpec, c: Cursor, isLegacy: bool) returns (r: Result<(ArrangeStep, Cursor)>)
    ensures r == SortMax(a, sp, c, isLegacy)
  {
    var (mx, c1) := AdvanceIfMatch(c, "MAX");
    if !mx {
      return Ok((a.(sortAscMap := sp.ascMap, sortKeys := Some(sp.keys)), c));
    }
    if isLegacy {
      return Fail(EParseArgs, "SORTBY MAX is not supported by FT.SEARCH");
    }
    var got := GetUnsigned(c1, AnyValue);
    if got.Failed? {
      return Fail(EParseArgs, "Bad arguments for MAX");
    }
    r := Ok((a.(limit := got.value, sortAscMap := sp.ascMap, sortKeys := Some(sp.keys)), got.rest));
  }

  // ---------------------------------------------------------------
  // The source as written: a direction before any key
  // ---------------------------------------------------------------

  /** The source's step: a direction with no key before it updates bit
      `array_len(keys) - 1`, which wraps to the largest value of
      array_len's unsigned type; the shift by that amount is undefined in
      C, and x86-64 masks the count to its low six bits, which gives bit 63. */
  function SortFieldStepAsWritten(st: SortState, s: string): Result<SortState> {
    if !StartsWithAt(s) && |st.keys| == 0 && EqualsIgnoreCase(s, "ASC") then
      Ok(st.(ascMap := SetAsc(st.ascMap, 63)))
    else if !StartsWithAt(s) && |st.keys| == 0 && EqualsIgnoreCase(s, "DESC") then
      Ok(st.(ascMap := SetDesc(st.ascMap, 63)))
    else SortFieldStep(st, s)
  }

  function ParseSortFieldsAsWritten(toks: seq<string>): Result<SortState> {
    if |toks| == 0 then Ok(SortSpec([], SORTASCMAP_INIT))
    else match ParseSortFieldsAsWritten(toks[..|toks| - 1])
      case Err(e) => Err(e)
      case Ok(st) => SortFieldStepAsWritten(st, toks[|toks| - 1])
  }

  /** A key within the bound is appended, as written and as corrected. */
  lemma AsWrittenKeyStep(st: SortState, s: string)
    requires StartsWithAt(s) && |st.keys| < SORTASCMAP_MAXFIELDS
    ensures SortFieldStepAsWritten(st, s) == Ok(st.(keys := st.keys + [s[1..]]))
  {
  }

  /** Keys alone only extend the key list. */
  lemma {:induction false} AsWrittenKeysOnly(p: seq<string>, ks: seq<string>)
    requires ParseSortFieldsAsWritten(p).Ok?
    requires forall i :: 0 <= i < |ks| ==> StartsWithAt(ks[i])
    requires |ParseSortFieldsAsWritten(p).value.keys| + |ks| <= SORTASCMAP_MAXFIELDS
    ensures ParseSortFieldsAsWritten(p + ks).Ok?
    ensures ParseSortFieldsAsWritten(p + ks).value.ascMap == ParseSortFieldsAsWritten(p).value.ascMap
    ensures |ParseSortFieldsAsWritten(p + ks).value.keys| == |ParseSortFieldsAsWritten(p).value.keys| + |ks|
  {
    if |ks| == 0 {
      assert p + ks == p;
    } else {
      var q := p + ks[..|ks| - 1];
      assert (p + ks)[..|p + ks| - 1] == q;
      assert (p + ks)[|p + ks| - 1] == ks[|ks| - 1];
      AsWrittenKeysOnly(p, ks[..|ks| - 1]);
      AsWrittenKeyStep(ParseSortFieldsAsWritten(q).value, ks[|ks| - 1]);
    }
  }

  /** `SORTBY 65 DESC @k0 ... @k63` is accepted as written, and its last key
      comes out descending although no DESC follows it; the corrected
      reading refuses the list. */
  lemma LeadingDirectionAsWritten(ks: seq<string>)
    requires |ks| == SORTASCMAP_MAXFIELDS && forall i :: 0 <= i < |ks| ==> StartsWithAt(ks[i])
    ensures ParseSortFieldsAsWritten(["DESC"] + ks).Ok?
    ensures |ParseSortFieldsAsWritten(["DESC"] + ks).value.keys| == 64
    ensures !IsAsc(ParseSortFieldsAsWritten(["DESC"] + ks).value.ascMap, 63)
    ensures ParseSortFields(["DESC"] + ks).Err?
  {
    var p := ["DESC"];
    assert p[..0] == [];
    assert ParseSortFieldsAsWritten(p) == Ok(SortSpec([], SetDesc(SORTASCMAP_INIT, 63)));
    AsWrittenKeysOnly(p, ks);
    SortFieldsAccepted(["DESC"] + ks);
    assert (["DESC"] + ks)[0] == "DESC";
  }
}
