/** The request object (AREQ) as the argument parser updates it: its
    flags, its cursor settings, the LOAD steps it adds to the plan, and the
    check that the PREFIX arguments of a request agree with its index. */
module Request {
  import opened Errors
  import opened Text
  import opened Args
  import opened Flags
  import opened Load

  /** MAXIDLE and COUNT as cursor settings take a positive unsigned integer. */
  function CursorValue(name: string, c: Cursor): (r: Result<(nat, Cursor)>)
    ensures r.Ok? <==> !IsAtEnd(c) && ParseInt(Current(c)).Some?
                       && 1 <= ParseInt(Current(c)).value <= UINT_MAX
    ensures r.Ok? ==> r.value.0 as int == ParseInt(Current(c)).value && r.value.1 == Advance(c, 1)
    ensures r.Err? ==> r.error == QueryError(EParseArgs, "Bad arguments for " + name)
  {
    match GetUnsigned(c, GE1)
    case Failed(_) => Fail(EParseArgs, "Bad arguments for " + name)
    case Got(v, rest) => Ok((v, rest))
  }

  /** The options of WITHCURSOR: MAXIDLE n and COUNT n in any order and
      any number of times, the last one winning, up to the first token
      that is neither.  Gives the idle time, the chunk size and the cursor
      after them. */
  function CursorArgs(c: Cursor, maxIdle: nat, chunk: nat): Result<(nat, nat, Cursor)>
    decreases NumRemaining(c)
  {
    if IsAtEnd(c) then Ok((maxIdle, chunk, c))
    else if EqualsIgnoreCase(Current(c), "MAXIDLE") then
      match CursorValue("MAXIDLE", Advance(c, 1))
      case Err(e) => Err(e)
      case Ok((v, rest)) => CursorArgs(rest, v, chunk)
    else if EqualsIgnoreCase(Current(c), "COUNT") then
      match CursorValue("COUNT", Advance(c, 1))
      case Err(e) => Err(e)
      case Ok((v, rest)) => CursorArgs(rest, maxIdle, v)
    else Ok((maxIdle, chunk, c))
  }

  /** The settings read are positive, or the ones held before, and the
      cursor stops at the end or at a token that is neither option. */
  lemma {:induction false} CursorArgsMeaning(c: Cursor, maxIdle: nat, chunk: nat)
    ensures var r := CursorArgs(c, maxIdle, chunk);
      r.Ok? ==>
        && (r.value.0 == maxIdle || 1 <= r.value.0 <= UINT_MAX)
        && (r.value.1 == chunk || 1 <= r.value.1 <= UINT_MAX)
        && r.value.2.objs == c.objs && r.value.2.offset >= c.offset
        && (IsAtEnd(r.value.2) || !(EqualsIgnoreCase(Current(r.value.2), "MAXIDLE")
                                    || EqualsIgnoreCase(Current(r.value.2), "COUNT")))
    decreases NumRemaining(c)
  {
    if !IsAtEnd(c) {
      if EqualsIgnoreCase(Current(c), "MAXIDLE") {
        var v := CursorValue("MAXIDLE", Advance(c, 1));
        if v.Ok? {
          CursorArgsMeaning(v.value.1, v.value.0, chunk);
        }
      } else if EqualsIgnoreCase(Current(c), "COUNT") {
        var v := CursorValue("COUNT", Advance(c, 1));
        if v.Ok? {
          CursorArgsMeaning(v.value.1, maxIdle, v.value.0);
        }
      }
    }
  }

  /** `MAXIDLE i COUNT n` followed by anything that is not an option reads
      back as i and n. */
  lemma CursorArgsRoundTrip(i: nat, n: nat, post: seq<string>)
    requires 1 <= i <= UINT_MAX && 1 <= n <= UINT_MAX
    requires |post| == 0 || !(EqualsIgnoreCase(post[0], "MAXIDLE") || EqualsIgnoreCase(post[0], "COUNT"))
    ensures var toks := ["MAXIDLE", DecimalString(i), "COUNT", DecimalString(n)] + post;
      CursorArgs(Init(toks), 0, 0) == Ok((i, n, ArgsCursor(toks, 4)))
  {
    var toks := ["MAXIDLE", DecimalString(i), "COUNT", DecimalString(n)] + post;
    CursorArgsAtRest(toks, 4, i, n);
    CursorArgsOption(toks, 2, "COUNT", i, 0, n);
    CursorArgsOption(toks, 0, "MAXIDLE", 0, 0, i);
  }

  /** Reading stops, with the settings unchanged, at the end or at a token
      that is neither option. */
  lemma CursorArgsAtRest(toks: seq<string>, k: nat, maxIdle: nat, chunk: nat)
    requires k <= |toks|
    requires k == |toks| || !(EqualsIgnoreCase(toks[k], "MAXIDLE") || EqualsIgnoreCase(toks[k], "COUNT"))
    ensures CursorArgs(ArgsCursor(toks, k), maxIdle, chunk) == Ok((maxIdle, chunk, ArgsCursor(toks, k)))
  {
  }

  /** One spelled option `name v` sets its setting to v. */
  lemma CursorArgsOption(toks: seq<string>, k: nat, name: string, maxIdle: nat, chunk: nat, v: nat)
    requires k + 1 < |toks| && toks[k] == name && toks[k + 1] == DecimalString(v) && 1 <= v <= UINT_MAX
    requires name == "MAXIDLE" || name == "COUNT"
    ensures CursorArgs(ArgsCursor(toks, k), maxIdle, chunk) ==
      if name == "MAXIDLE" then CursorArgs(ArgsCursor(toks, k + 2), v, chunk)
      else CursorArgs(ArgsCursor(toks, k + 2), maxIdle, v)
  {
    ParseIntOfDecimal(v);
    EqualsIgnoreCaseRefl(name);
    if name == "COUNT" {
      assert !EqualsIgnoreCase("COUNT", "MAXIDLE") by {
        assert Lower('C') != Lower('M');
      }
    }
    assert Current(ArgsCursor(toks, k + 1)) == DecimalString(v);
  }

  lemma {:induction false} EqualsIgnoreCaseRefl(s: string)
    ensures EqualsIgnoreCase(s, s)
  {
    if |s| > 0 {
      EqualsIgnoreCaseRefl(s[1..]);
    }
  }

  class Request {
    var reqflags: ReqFlags
    var cursorMaxIdle: nat
    var cursorChunkSize: nat

    /** AREQ_New: no flags and no cursor settings. */
    constructor ()
      ensures reqflags == {} && cursorMaxIdle == 0 && cursorChunkSize == 0
    {
      reqflags := {};
      cursorMaxIdle := 0;
      cursorChunkSize := 0;
    }

    /** ensureSimpleMode: an option of a search; refused once the request
        is an aggregate, otherwise the request becomes a search. */
    method EnsureSimpleMode() returns (ok: bool)
      modifies this`reqflags
      ensures ok <==> SimpleMode(old(reqflags)).Some?
      ensures reqflags == if ok then SimpleMode(old(reqflags)).value else old(reqflags)
    {
      if IsAggregate in reqflags {
        return false;
      }
      reqflags := reqflags + {IsSearch};
      return true;
    }

    /** ensureExtendedMode: an option of an aggregate such as GROUPBY;
        refused once the request is a search, otherwise the request becomes
        an aggregate. */
    method EnsureExtendedMode(name: string) returns (r: Result<()>)
      modifies this`reqflags
      ensures r.Ok? <==> ExtendedMode(old(reqflags)).Some?
      ensures r.Err? ==> r.error == QueryError(EInval, "option `" + name + "` is mutually exclusive with simple (i.e. search) options")
      ensures reqflags == if r.Ok? then ExtendedMode(old(reqflags)).value else old(reqflags)
    {
      if IsSearch in reqflags {
        return Fail(EInval, "option `" + name + "` is mutually exclusive with simple (i.e. search) options");
      }
      reqflags := reqflags + {IsAggregate};
      return Ok(());
    }

    /** parseCursorSettings: the options are read into the request, the
        idle time is clamped to the configured maximum, and the request
        becomes a cursor request.  On an error nothing is changed. */
    method ParseCursorSettings(c: Cursor, configuredMaxIdle: nat) returns (r: Result<Cursor>)
      modifies this`reqflags, this`cursorMaxIdle, this`cursorChunkSize
      ensures var a := CursorArgs(c, old(cursorMaxIdle), old(cursorChunkSize));
        && (r.Ok? <==> a.Ok?)
        && (r.Err? ==> r.error == a.error && reqflags == old(reqflags)
                       && cursorMaxIdle == old(cursorMaxIdle) && cursorChunkSize == old(cursorChunkSize))
        && (r.Ok? ==> r.value == a.value.2 && cursorChunkSize == a.value.1
                      && cursorMaxIdle == ClampMaxIdle(a.value.0, configuredMaxIdle)
                      && reqflags == old(reqflags) + {IsCursor})
    {
      var cur := c;
      var maxIdle := cursorMaxIdle;
      var chunk := cursorChunkSize;
      while !IsAtEnd(cur)
        invariant CursorArgs(cur, maxIdle, chunk) == CursorArgs(c, old(cursorMaxIdle), old(cursorChunkSize))
        decreases NumRemaining(cur)
      {
        var isIdle := EqualsIgnoreCase(Current(cur), "MAXIDLE");
        if !isIdle && !EqualsIgnoreCase(Current(cur), "COUNT") {
          break;
        }
        var name := if isIdle then "MAXIDLE" else "COUNT";
        var v := CursorValue(name, Advance(cur, 1));
        if v.Err? {
          return Err(v.error);
        }
        if isIdle {
          maxIdle := v.value.0;
        } else {
          chunk := v.value.0;
        }
        cur := v.value.1;
      }
      cursorMaxIdle := ClampMaxIdle(maxIdle, configuredMaxIdle);
      cursorChunkSize := chunk;
      reqflags := reqflags + {IsCursor};
      r := Ok(cur);
    }

    /** handleLoad: the arguments are parsed, `*` marks the request as
        loading every field, and a new LOAD step is made for the plan. */
    method HandleLoad(c: Cursor) returns (r: Result<Cursor>, step: LoadStep?)
      modifies this`reqflags
      ensures var p := ParseLoad(c, old(reqflags));
        && (r.Ok? <==> p.Ok?)
        && (r.Err? ==> r.error == p.error && reqflags == old(reqflags) && step == null)
        && (r.Ok? ==> r.value == p.value.2 && reqflags == p.value.1
                      && step != null && fresh(step) && step.Valid() && step.nkeys == 0
                      && step.args == p.value.0.fields && step.loadAll == p.value.0.loadAll)
    {
      var p := ParseLoad(c, reqflags);
      if p.Err? {
        return Err(p.error), null;
      }
      var (a, f, rest) := p.value;
      reqflags := f;
      step := new LoadStep(a);
      r := Ok(rest);
    }
  }

  // ---------------------------------------------------------------
  // PREFIX coherence

  /** The prefixes given at `off` (PREFIX n p1 .. pn; `off` is 0 when the
      request has none) are those of the index, in the same order. */
  predicate Coherent(args: seq<string>, off: nat, prefixes: seq<string>) {
    || off == 0
    || (&& off + 2 + |prefixes| <= |args|
        && Strtol(args[off + 1]) == |prefixes|
        && args[off + 2..off + 2 + |prefixes|] == prefixes)
  }

  /** IsIndexCoherent: the count is read as strtol does and compared with
      the index's number of prefixes, then the prefixes one by one. */
  method IsIndexCoherent(args: seq<string>, off: nat, prefixes: seq<string>) returns (r: bool)
    requires off > 0 ==> off + 1 < |args| && (Strtol(args[off + 1]) == |prefixes| ==> off + 2 + |prefixes| <= |args|)
    ensures r <==> Coherent(args, off, prefixes)
  {
    if off == 0 {
      return true;
    }
    var n := Strtol(args[off + 1]);
    if n != |prefixes| {
      return false;
    }
    var base := off + 2;
    var i := 0;
    while i < n
      invariant 0 <= i <= n
      invariant args[base..base + i] == prefixes[..i]
    {
      if args[base + i] != prefixes[i] {
        assert args[base..base + n][i] != prefixes[i];
        return false;
      }
      assert args[base..base + i + 1] == args[base..base + i] + [args[base + i]];
      assert prefixes[..i + 1] == prefixes[..i] + [prefixes[i]];
      i := i + 1;
    }
    assert prefixes[..n] == prefixes;
    return true;
  }

  /** A request whose PREFIX arguments spell the index's prefixes is
      coherent; one with the same prefixes in another order, or another
      number of them, is not. */
  lemma CoherentOfSpelled(pre: seq<string>, ps: seq<string>, post: seq<string>, prefixes: seq<string>)
    requires |pre| > 1
    ensures var args := pre + [DecimalString(|ps|)] + ps + post;
      Coherent(args, |pre| - 1, prefixes) <==> ps == prefixes
  {
    var args := pre + [DecimalString(|ps|)] + ps + post;
    var off := |pre| - 1;
    DecimalStringRoundTrip(|ps|);
    StrtolAgreesWithParseInt(DecimalString(|ps|));
    assert args[off + 1] == DecimalString(|ps|);
    assert args[off + 2..off + 2 + |ps|] == ps;
  }
}
