/** The list of returned fields of a search request (FieldList): entries
    are found by name or appended, and RETURN keeps only the entries it
    names, compacting the array in place. */
module Fields {
  import opened Errors
  import opened Text
  import opened Args
  import opened Aliases

  /** A ReturnedField: the name it is returned as, the path it is read
      from, and whether RETURN asked for it.  Highlight and summarize
      settings are not part of this model. */
  datatype ReturnedField = ReturnedField(name: string, path: string, explicitReturn: bool)

  /** The first entry called `name`, if any. */
  function FindField(fs: seq<ReturnedField>, name: string): (r: Option<nat>)
    ensures r.Some? ==> r.value < |fs| && fs[r.value].name == name
    ensures r.Some? ==> forall k :: 0 <= k < r.value ==> fs[k].name != name
    ensures r.None? ==> forall k :: 0 <= k < |fs| ==> fs[k].name != name
  {
    if |fs| == 0 then None
    else if fs[0].name == name then Some(0)
    else match FindField(fs[1..], name)
      case None => None
      case Some(j) => Some(j + 1)
  }

  /** The entries RETURN asked for, in their order. */
  function Explicit(fs: seq<ReturnedField>): (r: seq<ReturnedField>)
  {
    if |fs| == 0 then []
    else Explicit(fs[..|fs| - 1]) + (if fs[|fs| - 1].explicitReturn then [fs[|fs| - 1]] else [])
  }

  lemma {:induction false} ExplicitAppend(a: seq<ReturnedField>, b: seq<ReturnedField>)
    ensures Explicit(a + b) == Explicit(a) + Explicit(b)
    decreases |b|
  {
    if |b| == 0 {
      assert a + b == a;
    } else {
      assert (a + b)[..|a + b| - 1] == a + b[..|b| - 1];
      ExplicitAppend(a, b[..|b| - 1]);
    }
  }

  lemma ExplicitStep(fs: seq<ReturnedField>, i: nat)
    requires i < |fs|
    ensures Explicit(fs[..i + 1]) == Explicit(fs[..i]) + (if fs[i].explicitReturn then [fs[i]] else [])
  {
    assert fs[..i + 1][..i] == fs[..i];
  }

  /** RETURN keeps exactly the entries it asked for, and no more of them. */
  lemma {:induction false} ExplicitMembers(fs: seq<ReturnedField>)
    ensures |Explicit(fs)| <= |fs|
    ensures forall x :: x in Explicit(fs) <==> x in fs && x.explicitReturn
  {
    if |fs| > 0 {
      var p := fs[..|fs| - 1];
      ExplicitMembers(p);
      assert fs == p + [fs[|fs| - 1]];
    }
  }

  /** Restricting twice is restricting once. */
  lemma {:induction false} ExplicitIdempotent(fs: seq<ReturnedField>)
    ensures Explicit(Explicit(fs)) == Explicit(fs)
  {
    if |fs| > 0 {
      var p := fs[..|fs| - 1];
      ExplicitIdempotent(p);
      var tail := if fs[|fs| - 1].explicitReturn then [fs[|fs| - 1]] else [];
      ExplicitAppend(Explicit(p), tail);
      assert Explicit(tail) == tail by {
        if |tail| == 1 {
          assert tail[..0] == [];
        }
      }
    }
  }

  /** No two entries share a name. */
  predicate DistinctNames(fs: seq<ReturnedField>) {
    forall i, j :: 0 <= i < j < |fs| ==> fs[i].name != fs[j].name
  }

  /** Some entry called `name` is marked for returning. */
  predicate Returns(fs: seq<ReturnedField>, name: string) {
    exists k :: 0 <= k < |fs| && fs[k].name == name && fs[k].explicitReturn
  }

  /** RETURN's effect on one entry: the entry called `name` is marked, or
      a marked entry is added when there is none. */
  function MarkReturned(fs: seq<ReturnedField>, a: Alias): (r: seq<ReturnedField>)
    ensures DistinctNames(fs) ==> DistinctNames(r)
    ensures Returns(r, a.name)
    ensures |fs| <= |r| && forall k :: 0 <= k < |fs| ==> r[k].name == fs[k].name
    ensures forall k :: 0 <= k < |fs| && fs[k].name != a.name ==> r[k] == fs[k]
    ensures forall k :: |fs| <= k < |r| ==> r[k].name == a.name
  {
    match FindField(fs, a.name)
    case Some(j) =>
      var r := fs[j := fs[j].(explicitReturn := true)];
      assert r[j].name == a.name && r[j].explicitReturn;
      r
    case None =>
      var r := fs + [ReturnedField(a.name, a.path, true)];
      assert r[|fs|].name == a.name;
      r
  }

  /** The entries after a whole RETURN list has been marked, in order. */
  function MarkAll(fs: seq<ReturnedField>, xs: seq<Alias>): seq<ReturnedField>
    decreases |xs|
  {
    if |xs| == 0 then fs else MarkAll(MarkReturned(fs, xs[0]), xs[1..])
  }

  /** RETURN never gives two entries the same name. */
  lemma {:induction false} MarkAllDistinct(fs: seq<ReturnedField>, xs: seq<Alias>)
    requires DistinctNames(fs)
    ensures DistinctNames(MarkAll(fs, xs))
    decreases |xs|
  {
    if |xs| > 0 {
      MarkAllDistinct(MarkReturned(fs, xs[0]), xs[1..]);
    }
  }

  /** Every name the RETURN list gives is returned. */
  lemma {:induction false} MarkAllReturnsListed(fs: seq<ReturnedField>, xs: seq<Alias>)
    ensures forall i :: 0 <= i < |xs| ==> Returns(MarkAll(fs, xs), xs[i].name)
    decreases |xs|
  {
    if |xs| > 0 {
      var fs1 := MarkReturned(fs, xs[0]);
      MarkAllReturnsListed(fs1, xs[1..]);
      MarkedStays(fs1, xs[1..], xs[0].name);
      forall i | 0 <= i < |xs|
        ensures Returns(MarkAll(fs, xs), xs[i].name)
      {
        if i > 0 {
          assert xs[1..][i - 1] == xs[i];
        }
      }
    }
  }

  /** The name is one a RETURN entry gives. */
  predicate Listed(xs: seq<Alias>, name: string) {
    exists i :: 0 <= i < |xs| && xs[i].name == name
  }

  /** Every entry marked after RETURN was marked before or is listed. */
  lemma {:induction false} MarkAllOnlyListed(fs: seq<ReturnedField>, xs: seq<Alias>)
    ensures forall k :: 0 <= k < |MarkAll(fs, xs)| && MarkAll(fs, xs)[k].explicitReturn ==>
      MarkAll(fs, xs)[k] in fs || Listed(xs, MarkAll(fs, xs)[k].name)
    decreases |xs|
  {
    if |xs| > 0 {
      var fs1 := MarkReturned(fs, xs[0]);
      MarkAllOnlyListed(fs1, xs[1..]);
      var r := MarkAll(fs, xs);
      forall k | 0 <= k < |r| && r[k].explicitReturn
        ensures r[k] in fs || Listed(xs, r[k].name)
      {
        if r[k] !in fs1 {
          var i :| 0 <= i < |xs[1..]| && xs[1..][i].name == r[k].name;
          assert xs[i + 1].name == r[k].name;
        } else if r[k] !in fs {
          var m :| 0 <= m < |fs1| && fs1[m] == r[k];
          if m < |fs| {
            assert fs1[m].name == xs[0].name;
          }
          assert xs[0].name == r[k].name;
        }
      }
    }
  }

  /** An entry once marked stays marked under later RETURN entries. */
  lemma {:induction false} MarkedStays(fs: seq<ReturnedField>, xs: seq<Alias>, name: string)
    requires Returns(fs, name)
    ensures Returns(MarkAll(fs, xs), name)
    decreases |xs|
  {
    if |xs| > 0 {
      var k :| 0 <= k < |fs| && fs[k].name == name && fs[k].explicitReturn;
      var fs1 := MarkReturned(fs, xs[0]);
      if fs[k].name != xs[0].name {
        assert fs1[k] == fs[k];
      }
      MarkedStays(fs1, xs[1..], name);
    }
  }

  /** A FieldList: `fields` holds `numFields` entries and may be longer
      once RETURN has compacted it; `explicitReturn` records that the
      request gave a RETURN list. */
  class FieldList {
    var fields: array<ReturnedField>
    var numFields: nat
    var explicitReturn: bool

    ghost predicate Valid()
      reads this
    {
      numFields <= fields.Length
    }

    ghost function Contents(): seq<ReturnedField>
      reads this, fields
      requires Valid()
    {
      fields[..numFields]
    }

    constructor ()
      ensures Valid() && Contents() == [] && !explicitReturn
    {
      fields := new ReturnedField[0];
      numFields := 0;
      explicitReturn := false;
    }

    /** FieldList_GetCreateField: the index of the entry called `name`, or
        of a new unmarked entry, reallocated onto the end, whose path is
        `path` or, when there is none, the name. */
    method GetCreateField(name: string, path: Option<string>) returns (ix: nat)
      requires Valid()
      modifies this`fields, this`numFields
      ensures Valid() && ix < numFields
      ensures FindField(old(Contents()), name).Some? ==>
        ix == FindField(old(Contents()), name).value && fields == old(fields) && Contents() == old(Contents())
      ensures FindField(old(Contents()), name).None? ==>
        ix == old(numFields) && fresh(fields)
        && Contents() == old(Contents()) + [ReturnedField(name, path.GetOr(name), false)]
    {
      var ii := 0;
      while ii < numFields
        invariant 0 <= ii <= numFields
        invariant forall k :: 0 <= k < ii ==> fields[k].name != name
      {
        if fields[ii].name == name {
          assert Contents()[ii] == fields[ii];
          ix := ii;
          return;
        }
        ii := ii + 1;
      }
      var grown := new ReturnedField[numFields + 1];
      forall k | 0 <= k < numFields {
        grown[k] := fields[k];
      }
      grown[numFields] := ReturnedField(name, if path.Some? then path.value else name, false);
      fields := grown;
      ix := numFields;
      numFields := numFields + 1;
      assert Contents() == old(Contents()) + [ReturnedField(name, path.GetOr(name), false)];
    }

    /** `f->explicitReturn = 1` on the entry at `ix`. */
    method MarkExplicit(ix: nat)
      requires Valid() && ix < numFields
      modifies fields
      ensures Valid()
      ensures Contents() == old(Contents())[ix := old(Contents())[ix].(explicitReturn := true)]
    {
      fields[ix] := fields[ix].(explicitReturn := true);
    }

    /** FieldList_RestrictReturn: the entries RETURN asked for are moved
        down over the others, keeping their order. */
    method RestrictReturn()
      requires Valid()
      modifies this`numFields, fields
      ensures Valid() && fields == old(fields)
      ensures Contents() == Explicit(old(Contents()))
    {
      ghost var orig := fields[..numFields];
      var oix := 0;
      var ii := 0;
      while ii < numFields
        invariant fields == old(fields) && numFields == |orig|
        invariant 0 <= oix <= ii <= numFields <= fields.Length
        invariant fields[ii..numFields] == orig[ii..]
        invariant fields[..oix] == Explicit(orig[..ii])
      {
        ExplicitStep(orig, ii);
        assert fields[ii] == orig[ii];
        if !fields[ii].explicitReturn {
        } else if ii != oix {
          fields[oix] := fields[ii];
          oix := oix + 1;
        } else {
          oix := oix + 1;
        }
        ii := ii + 1;
      }
      assert orig[..ii] == orig;
      numFields := oix;
    }

    /** One RETURN entry: the field is found or created, then marked. */
    method ReturnOne(a: Alias)
      requires Valid()
      modifies this`fields, this`numFields, fields
      ensures Valid() && (fields == old(fields) || fresh(fields))
      ensures Contents() == MarkReturned(old(Contents()), a)
    {
      var ix := GetCreateField(a.name, Some(a.path));
      MarkExplicit(ix);
      if FindField(old(Contents()), a.name).None? {
        assert Contents() == old(Contents()) + [ReturnedField(a.name, a.path, true)];
      }
    }

    /** The RETURN list of a search: each `path [AS name]` entry is found or
        added and marked, then the unmarked entries are dropped.  A bad
        entry stops the walk with the entries so far already marked.
        Either way the list is flagged as an explicit RETURN. */
    method ReturnFields(c: Cursor) returns (r: Result<()>)
      requires Valid()
      modifies this, fields
      ensures Valid() && explicitReturn
      ensures r.Ok? <==> AliasList(c, "RETURN", false).Ok?
      ensures r.Err? ==> r == AliasList(c, "RETURN", false).PropagateFailure()
      ensures r.Ok? ==> Contents() == Explicit(MarkAll(old(Contents()), AliasList(c, "RETURN", false).value))
    {
      explicitReturn := true;
      var ac := c;
      ghost var orig := Contents();
      ghost var done: seq<Alias> := [];
      assert AliasList(c, "RETURN", false) == Prepend(done, AliasList(ac, "RETURN", false)) by {
        if AliasList(c, "RETURN", false).Ok? {
          assert [] + AliasList(c, "RETURN", false).value == AliasList(c, "RETURN", false).value;
        }
      }
      while !IsAtEnd(ac)
        invariant Valid() && ac.objs == c.objs && explicitReturn
        invariant fields == old(fields) || fresh(fields)
        invariant AliasList(c, "RETURN", false) == Prepend(done, AliasList(ac, "RETURN", false))
        invariant Contents() == MarkAll(orig, done)
        decreases NumRemaining(ac)
      {
        var next := NextAlias(ac, "RETURN", false);
        AliasListStep(ac, "RETURN", false);
        if next.Err? {
          r := Err(next.error);
          return;
        }
        var (a, rest) := next.value;
        ReturnOne(a);
        MarkAllSnoc(orig, done, a);
        PrependSnoc(done, a, AliasList(rest, "RETURN", false));
        done := done + [a];
        ac := rest;
      }
      assert AliasList(ac, "RETURN", false) == Ok([]);
      assert done + [] == done;
      RestrictReturn();
      r := Ok(());
    }
  }

  lemma {:induction false} MarkAllSnoc(fs: seq<ReturnedField>, xs: seq<Alias>, a: Alias)
    ensures MarkAll(fs, xs + [a]) == MarkReturned(MarkAll(fs, xs), a)
    decreases |xs|
  {
    if |xs| == 0 {
      assert (xs + [a])[1..] == [];
    } else {
      assert (xs + [a])[0] == xs[0];
      assert (xs + [a])[1..] == xs[1..] + [a];
      MarkAllSnoc(MarkReturned(fs, xs[0]), xs[1..], a);
    }
  }
}
