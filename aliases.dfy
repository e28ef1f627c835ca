/** The `path [AS name]` lists of RETURN and LOAD: each entry is a path,
    optionally followed by AS and the name it is returned or loaded as.
    LOAD drops one leading '@' from the path; RETURN keeps it. */
module Aliases {
  import opened Errors
  import opened Text
  import opened Args
  import opened Seqs

  /** A path and the name it goes by. */
  datatype Alias = Alias(name: string, path: string)

  /** One entry of the list at the cursor: the path, then `AS name` if the
      next token is AS in any case.  A missing name, or a name that is
      itself AS, is an error; `verb` is RETURN or LOAD in the messages. */
  function NextAlias(c: Cursor, verb: string, stripAt: bool): (r: Result<(Alias, Cursor)>)
    requires !IsAtEnd(c)
    ensures r.Ok? ==> r.value.0.path == (if stripAt then DropAt(Current(c)) else Current(c))
    ensures r.Ok? ==> !EqualsIgnoreCase(r.value.0.name, "AS")
                      || (r.value.0.name == r.value.0.path && r.value.1 == Advance(c, 1))
    ensures r.Ok? ==> NumRemaining(r.value.1) < NumRemaining(c) && r.value.1.objs == c.objs
    ensures r.Err? ==> r.error.code == EParseArgs
    ensures r.Err? <==> !IsAtEnd(Advance(c, 1)) && EqualsIgnoreCase(Current(Advance(c, 1)), "AS")
                        && (IsAtEnd(Advance(c, 2)) || EqualsIgnoreCase(Current(Advance(c, 2)), "AS"))
  {
    var path := if stripAt then DropAt(Current(c)) else Current(c);
    var c1 := Advance(c, 1);
    var (hasAs, c2) := AdvanceIfMatch(c1, "AS");
    if !hasAs then Ok((Alias(path, path), c1))
    else match GetString(c2)
      case Failed(_) => Fail(EParseArgs, verb + " path AS name - must be accompanied with NAME")
      case Got(name, c3) =>
        if EqualsIgnoreCase(name, "AS") then Fail(EParseArgs, "Alias for " + verb + " cannot be `AS`")
        else Ok((Alias(name, path), c3))
  }

  /** The whole list from the cursor to its end, stopping at the first error. */
  function AliasList(c: Cursor, verb: string, stripAt: bool): Result<seq<Alias>>
    decreases NumRemaining(c)
  {
    if IsAtEnd(c) then Ok([])
    else match NextAlias(c, verb, stripAt)
      case Err(e) => Err(e)
      case Ok((a, rest)) =>
        match AliasList(rest, verb, stripAt)
        case Err(e) => Err(e)
        case Ok(more) => Ok([a] + more)
  }

  /** A list read so far, put before what the rest reads. */
  function Prepend(done: seq<Alias>, r: Result<seq<Alias>>): Result<seq<Alias>> {
    match r
    case Err(e) => Err(e)
    case Ok(more) => Ok(done + more)
  }

  lemma PrependSnoc(done: seq<Alias>, a: Alias, r: Result<seq<Alias>>)
    ensures Prepend(done, Prepend([a], r)) == Prepend(done + [a], r)
  {
    if r.Ok? {
      assert done + ([a] + r.value) == (done + [a]) + r.value;
    }
  }

  /** The list read from the cursor is its first entry followed by the
      list read after it. */
  lemma AliasListStep(c: Cursor, verb: string, stripAt: bool)
    requires !IsAtEnd(c)
    ensures NextAlias(c, verb, stripAt).Err? ==>
      AliasList(c, verb, stripAt) == Err(NextAlias(c, verb, stripAt).error)
    ensures NextAlias(c, verb, stripAt).Ok? ==>
      AliasList(c, verb, stripAt) ==
        Prepend([NextAlias(c, verb, stripAt).value.0], AliasList(NextAlias(c, verb, stripAt).value.1, verb, stripAt))
  {
  }

  /** The tokens that spell a list back: the path alone when it is also the
      name, `path AS name` otherwise; LOAD paths are written with '@'. */
  function Render(xs: seq<Alias>, stripAt: bool): seq<string> {
    if |xs| == 0 then []
    else
      RenderOne(xs[0], stripAt) + Render(xs[1..], stripAt)
  }

  /** A list that can be spelled unambiguously: no name is AS, and without
      the '@' no path is AS either (it would read as the keyword). */
  predicate Spellable(xs: seq<Alias>, stripAt: bool) {
    forall i :: 0 <= i < |xs| ==>
      !EqualsIgnoreCase(xs[i].name, "AS") && (stripAt || !EqualsIgnoreCase(xs[i].path, "AS"))
  }

  lemma NotAsWithAt(s: string)
    ensures !EqualsIgnoreCase("@" + s, "AS")
  {
    assert Lower(("@" + s)[0]) == '@';
  }

  /** The tokens one entry is spelled with. */
  function RenderOne(a: Alias, stripAt: bool): seq<string> {
    var p := if stripAt then "@" + a.path else a.path;
    if a.name == a.path then [p] else [p, "AS", a.name]
  }

  lemma RenderCons(xs: seq<Alias>, stripAt: bool)
    requires |xs| > 0
    ensures Render(xs, stripAt) == RenderOne(xs[0], stripAt) + Render(xs[1..], stripAt)
  {
  }

  lemma SpellableTail(xs: seq<Alias>, stripAt: bool)
    requires |xs| > 0 && Spellable(xs, stripAt)
    ensures Spellable(xs[1..], stripAt)
  {
    forall i | 0 <= i < |xs[1..]|
      ensures !EqualsIgnoreCase(xs[1..][i].name, "AS") && (stripAt || !EqualsIgnoreCase(xs[1..][i].path, "AS"))
    {
      assert xs[1..][i] == xs[i + 1];
    }
  }

  /** The first entry of a spelled list reads back, and the cursor stops
      right after its tokens. */
  lemma NextAliasOfRender(a: Alias, stripAt: bool, verb: string, pre: seq<string>, post: seq<string>)
    requires !EqualsIgnoreCase(a.name, "AS")
    requires |post| > 0 ==> !EqualsIgnoreCase(post[0], "AS")
    ensures var toks := pre + RenderOne(a, stripAt) + post;
      NextAlias(ArgsCursor(toks, |pre|), verb, stripAt) == Ok((a, ArgsCursor(toks, |pre| + |RenderOne(a, stripAt)|)))
  {
    var toks := pre + RenderOne(a, stripAt) + post;
    var c: Cursor := ArgsCursor(toks, |pre|);
    var p := if stripAt then "@" + a.path else a.path;
    assert Current(c) == p;
    if stripAt {
      assert p[1..] == a.path;
    }
    var c1 := Advance(c, 1);
    if a.name == a.path {
      if |post| > 0 {
        assert Current(c1) == post[0];
      } else {
        assert IsAtEnd(c1);
      }
    } else {
      assert Current(c1) == "AS";
      assert Current(Advance(c, 2)) == a.name;
    }
  }

  /** A spelled list does not start with AS. */
  lemma RenderHeadNotAs(xs: seq<Alias>, stripAt: bool)
    requires |xs| > 0 && Spellable(xs, stripAt)
    ensures |Render(xs, stripAt)| > 0 && !EqualsIgnoreCase(Render(xs, stripAt)[0], "AS")
  {
    RenderCons(xs, stripAt);
    if stripAt {
      NotAsWithAt(xs[0].path);
    }
    assert Render(xs, stripAt)[0] == RenderOne(xs[0], stripAt)[0];
  }

  /** The first entry of a spelled list reads back, leaving the cursor at
      the spelling of the others. */
  lemma RenderHeadReads(xs: seq<Alias>, stripAt: bool, verb: string, pre: seq<string>)
    requires |xs| > 0 && Spellable(xs, stripAt)
    ensures var toks := pre + Render(xs, stripAt);
      var pre' := pre + RenderOne(xs[0], stripAt);
      && toks == pre' + Render(xs[1..], stripAt)
      && NextAlias(ArgsCursor(toks, |pre|), verb, stripAt) == Ok((xs[0], ArgsCursor(toks, |pre'|)))
  {
    var post := Render(xs[1..], stripAt);
    RenderCons(xs, stripAt);
    Assoc(pre, RenderOne(xs[0], stripAt), post);
    if |xs| > 1 {
      SpellableTail(xs, stripAt);
      RenderHeadNotAs(xs[1..], stripAt);
    }
    NextAliasOfRender(xs[0], stripAt, verb, pre, post);
  }

  /** Reading a spelled list is reading its first entry, then the rest. */
  lemma AliasListOfRender(xs: seq<Alias>, stripAt: bool, verb: string, pre: seq<string>)
    requires |xs| > 0 && Spellable(xs, stripAt)
    ensures var pre' := pre + RenderOne(xs[0], stripAt);
      AliasList(ArgsCursor(pre + Render(xs, stripAt), |pre|), verb, stripAt)
      == Prepend([xs[0]], AliasList(ArgsCursor(pre' + Render(xs[1..], stripAt), |pre'|), verb, stripAt))
  {
    RenderHeadReads(xs, stripAt, verb, pre);
    AliasListStep(ArgsCursor(pre + Render(xs, stripAt), |pre|), verb, stripAt);
  }

  /** Reading a spelled list gives the list back. */
  lemma {:induction false} AliasListRoundTrip(xs: seq<Alias>, stripAt: bool, verb: string, pre: seq<string>)
    requires Spellable(xs, stripAt)
    ensures AliasList(ArgsCursor(pre + Render(xs, stripAt), |pre|), verb, stripAt) == Ok(xs)
    decreases |xs|
  {
    if |xs| > 0 {
      AliasListOfRender(xs, stripAt, verb, pre);
      SpellableTail(xs, stripAt);
      AliasListRoundTrip(xs[1..], stripAt, verb, pre + RenderOne(xs[0], stripAt));
      assert [xs[0]] + xs[1..] == xs;
    } else {
      assert IsAtEnd(ArgsCursor(pre + Render(xs, stripAt), |pre|));
    }
  }
}
