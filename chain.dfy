/** The result-processor chain of a request (QueryIterator): each
    processor points at its upstream, the iterator at the tail
    (`endProc`).  pushRP links a new processor after the tail, and the
    request's teardown walks the chain from the tail back to the root.
    What each processor does is not part of this model; a processor is
    known by its stage and the parameters the compiler gives it. */
module Chain {

  datatype Stage =
    | IndexIterator                                   // the root reading the index
    | Scorer                                          // scores each result
    | Counter                                         // counts results only
    | Loader(keys: seq<string>)                       // loads keys from the document
    | SorterByFields(cap: nat, keys: seq<string>, ascMap: seq<bool>)
    | SorterByScore(cap: nat)
    | Pager(offset: nat, limit: nat)
    | Grouper(srcKeys: seq<string>, dstKeys: seq<string>, aliases: seq<string>)
    | Projector(alias: string)                        // APPLY
    | Filter                                          // FILTER
    | Highlighter

  /** A ResultProcessor. */
  class Processor {
    const stage: Stage
    var upstream: Processor?
    var parent: QueryIter?

    constructor (stage: Stage)
      ensures this.stage == stage && upstream == null && parent == null
    {
      this.stage := stage;
      upstream := null;
      parent := null;
    }
  }

  /** The processors from the root to the tail, in order. */
  class QueryIter {
    var endProc: Processor?
    ghost var procs: seq<Processor>

    /** The chain is linked: the root has no upstream, each later processor
        points at the one before it, the tail is `endProc`, every
        processor belongs to this iterator and none appears twice. */
    ghost predicate Valid()
      reads this, procs
    {
      && (forall i, j :: 0 <= i < j < |procs| ==> procs[i] != procs[j])
      && (if |procs| == 0 then endProc == null else endProc == procs[|procs| - 1])
      && (|procs| > 0 ==> procs[0].upstream == null)
      && (forall i :: 0 < i < |procs| ==> procs[i].upstream == procs[i - 1])
      && (forall i :: 0 <= i < |procs| ==> procs[i].parent == this)
    }

    /** The stages of the chain, root first. */
    ghost function Stages(): (r: seq<Stage>)
      reads this
      ensures |r| == |procs| && forall i :: 0 <= i < |procs| ==> r[i] == procs[i].stage
    {
      seq(|procs|, i requires 0 <= i < |procs| reads this => procs[i].stage)
    }

    constructor ()
      ensures Valid() && procs == [] && endProc == null
    {
      endProc := null;
      procs := [];
    }

    /** pushRP: `rp` takes `up` as its upstream and becomes the tail.  Every
        caller passes the current tail as `up`, which keeps the chain linked. */
    method PushRP(rp: Processor, up: Processor?)
      requires Valid() && up == endProc && rp !in procs
      modifies this, rp
      ensures Valid() && endProc == rp && rp.upstream == up && rp.parent == this
      ensures procs == old(procs) + [rp]
      ensures Stages() == old(Stages()) + [rp.stage]
    {
      rp.upstream := up;
      rp.parent := this;
      endProc := rp;
      procs := procs + [rp];
    }

    /** A new processor for `stage`, pushed after the tail. */
    method Push(stage: Stage)
      requires Valid()
      modifies this
      ensures Valid() && fresh(endProc) && procs == old(procs) + [endProc]
      ensures Stages() == old(Stages()) + [stage]
    {
      var rp := new Processor(stage);
      PushRP(rp, endProc);
    }

    /** The walk of AREQ_Free: from the tail, each processor is visited
        (and released) before its upstream, until the root. */
    method FreeChain() returns (visited: seq<Processor>)
      requires Valid()
      ensures visited == TailFirst(procs)
    {
      visited := [];
      var rp := endProc;
      ghost var k := |procs|;
      while rp != null
        invariant 0 <= k <= |procs|
        invariant rp == if k == 0 then null else procs[k - 1]
        invariant visited == TailFirst(procs[k..])
        decreases k
      {
        assert procs[k - 1..][1..] == procs[k..];
        visited := visited + [rp];
        rp := rp.upstream;
        k := k - 1;
      }
    }
  }

  function TailFirst<T>(s: seq<T>): seq<T> {
    if |s| == 0 then [] else TailFirst(s[1..]) + [s[0]]
  }

  /** The i-th processor visited is the i-th from the tail, so every
      processor is visited exactly once, after those downstream of it. */
  lemma {:induction false} TailFirstAt<T>(s: seq<T>, i: nat)
    requires i < |s|
    ensures |TailFirst(s)| == |s| && TailFirst(s)[i] == s[|s| - 1 - i]
  {
    TailFirstLength(s);
    if i < |s| - 1 {
      TailFirstAt(s[1..], i);
    }
  }

  lemma {:induction false} TailFirstLength<T>(s: seq<T>)
    ensures |TailFirst(s)| == |s|
  {
    if |s| > 0 {
      TailFirstLength(s[1..]);
    }
  }
}
