/** A worklist search over vertices that answer one another by digest. */
module AnswerGraph {
  import opened ControlTypes

  /** One retained proposal as the search sees it. */
  datatype Vertex = Vertex(candidate: bool, predecessor: Option<Digest>, digest: Digest, accepted: bool)

  type Graph = seq<Vertex>

  /** A candidate answering `digest` with a digest of its own. */
  predicate Answers(g: Graph, digest: Digest, i: nat) {
    i < |g| && g[i].candidate && g[i].predecessor == Some(digest) && g[i].digest != digest
  }

  /** The unseen vertices before `upTo` that answer the digest, in order. */
  function FreshAnswers(g: Graph, digest: Digest, seen: set<nat>, upTo: nat): (r: seq<nat>)
    requires upTo <= |g|
    ensures forall i: nat :: i in r <==> i < upTo && i !in seen && Answers(g, digest, i)
    ensures forall k :: 0 <= k < |r| ==> r[k] < |g| && Answers(g, digest, r[k])
  {
    if upTo == 0 then []
    else
      var earlier := FreshAnswers(g, digest, seen, upTo - 1);
      if upTo - 1 !in seen && Answers(g, digest, upTo - 1) then earlier + [upTo - 1] else earlier
  }

  function DigestsOf(g: Graph, ids: seq<nat>): (r: seq<Digest>)
    requires forall k :: 0 <= k < |ids| ==> ids[k] < |g|
    ensures |r| == |ids|
    ensures forall k :: 0 <= k < |ids| ==> r[k] == g[ids[k]].digest
  {
    seq(|ids|, k requires 0 <= k < |ids| => g[ids[k]].digest)
  }

  function Elements(xs: seq<nat>): set<nat> {
    set x | x in xs
  }

  lemma {:induction false} BelowCardinality(seen: set<nat>, n: nat)
    requires forall i :: i in seen ==> i < n
    ensures |seen| <= n
    decreases n
  {
    if n > 0 {
      BelowCardinality(seen - {n - 1}, n - 1);
    } else {
      assert seen == {};
    }
  }

  /** Expanding a digest either shows new vertices or only shortens the stack. */
  lemma ExpandDecreases(g: Graph, digest: Digest, seen: set<nat>)
    requires forall i :: i in seen ==> i < |g|
    ensures var answers := FreshAnswers(g, digest, seen, |g|);
            |seen + Elements(answers)| <= |g| &&
            (answers == [] ==> seen + Elements(answers) == seen) &&
            (answers != [] ==> |seen + Elements(answers)| > |seen|)
  {
    var answers := FreshAnswers(g, digest, seen, |g|);
    BelowCardinality(seen + Elements(answers), |g|);
    if answers != [] {
      assert answers[0] in Elements(answers);
      assert seen !! Elements(answers);
      assert |seen + Elements(answers)| == |seen| + |Elements(answers)|;
    }
  }

  /** An accepted vertex freshly answers the digest on top of the stack. */
  predicate Found(g: Graph, digest: Digest, seen: set<nat>) {
    exists i :: 0 <= i < |g| && i !in seen && Answers(g, digest, i) && g[i].accepted
  }

  function NextStack(g: Graph, pending: seq<Digest>, seen: set<nat>): seq<Digest>
    requires pending != []
  {
    var last := |pending| - 1;
    pending[..last] + DigestsOf(g, FreshAnswers(g, pending[last], seen, |g|))
  }

  function NextSeen(g: Graph, pending: seq<Digest>, seen: set<nat>): (r: set<nat>)
    requires pending != [] && forall i :: i in seen ==> i < |g|
    ensures forall i: nat :: i in r <==> i in seen || (i < |g| && Answers(g, pending[|pending| - 1], i))
    ensures |r| <= |g|
    ensures |r| > |seen| || (|r| == |seen| && |NextStack(g, pending, seen)| < |pending|)
  {
    ExpandDecreases(g, pending[|pending| - 1], seen);
    seen + Elements(FreshAnswers(g, pending[|pending| - 1], seen, |g|))
  }

  /** The search as a recursive function: does the stack lead to an accepted answer? */
  predicate Search(g: Graph, pending: seq<Digest>, seen: set<nat>)
    requires forall i :: i in seen ==> i < |g|
    decreases |g| - |seen|, |pending|
  {
    pending != [] &&
    (Found(g, pending[|pending| - 1], seen) ||
     var _ := NextSeen(g, pending, seen);
     Search(g, NextStack(g, pending, seen), NextSeen(g, pending, seen)))
  }

  /** Every digest on the next stack was on the stack, or belongs to a fresh answer, and conversely. */
  lemma NextStackMembers(g: Graph, pending: seq<Digest>, seen: set<nat>)
    requires pending != []
    ensures forall d :: d in NextStack(g, pending, seen) ==>
              d in pending || exists i :: 0 <= i < |g| && Answers(g, pending[|pending| - 1], i) && g[i].digest == d
    ensures forall d :: d in pending ==> d in NextStack(g, pending, seen) || d == pending[|pending| - 1]
    ensures forall i :: 0 <= i < |g| && i !in seen && Answers(g, pending[|pending| - 1], i) ==> g[i].digest in NextStack(g, pending, seen)
  {
    var last := |pending| - 1;
    var answers := FreshAnswers(g, pending[last], seen, |g|);
    var digests := DigestsOf(g, answers);
    assert pending == pending[..last] + [pending[last]];
    forall i | 0 <= i < |g| && i !in seen && Answers(g, pending[last], i)
      ensures g[i].digest in digests
    {
      assert i in answers;
      var k :| 0 <= k < |answers| && answers[k] == i;
      assert digests[k] == g[i].digest;
    }
  }

  // ---------- the independent definition: paths of answers ----------

  /** `path` leads from the digest through vertices each answering the one before. */
  ghost predicate AnswerPath(g: Graph, digest: Digest, path: seq<nat>)
    decreases |path|
  {
    |path| > 0 && Answers(g, digest, path[0]) &&
    (|path| == 1 || AnswerPath(g, g[path[0]].digest, path[1..]))
  }

  ghost function End(path: seq<nat>): nat {
    if |path| == 0 then 0 else path[|path| - 1]
  }

  ghost predicate AcceptedPath(g: Graph, digest: Digest, path: seq<nat>) {
    AnswerPath(g, digest, path) && End(path) < |g| && g[End(path)].accepted
  }

  ghost predicate ReachesAccepted(g: Graph, digest: Digest) {
    exists path: seq<nat> :: AcceptedPath(g, digest, path)
  }

  lemma ReachDirectly(g: Graph, digest: Digest, i: nat)
    requires Answers(g, digest, i) && g[i].accepted
    ensures ReachesAccepted(g, digest)
  {
    assert AcceptedPath(g, digest, [i]);
  }

  lemma ReachThrough(g: Graph, digest: Digest, i: nat)
    requires Answers(g, digest, i) && ReachesAccepted(g, g[i].digest)
    ensures ReachesAccepted(g, digest)
  {
    var tail :| AcceptedPath(g, g[i].digest, tail);
    assert ([i] + tail)[1..] == tail;
    assert AcceptedPath(g, digest, [i] + tail);
  }

  lemma {:induction false} SearchFindsPath(g: Graph, pending: seq<Digest>, seen: set<nat>) returns (d: Digest)
    requires forall i :: i in seen ==> i < |g|
    requires Search(g, pending, seen)
    ensures d in pending && ReachesAccepted(g, d)
    decreases |g| - |seen|, |pending|
  {
    d := pending[|pending| - 1];
    if Found(g, d, seen) {
      var i :| 0 <= i < |g| && i !in seen && Answers(g, d, i) && g[i].accepted;
      ReachDirectly(g, d, i);
    } else {
      NextStackMembers(g, pending, seen);
      var found := SearchFindsPath(g, NextStack(g, pending, seen), NextSeen(g, pending, seen));
      if found in pending {
        d := found;
      } else {
        var i :| 0 <= i < |g| && Answers(g, d, i) && g[i].digest == found;
        ReachThrough(g, d, i);
      }
    }
  }

  /** Every seen vertex is unaccepted and its digest is still pending or already expanded;
      every answer to an expanded digest has been seen. */
  ghost predicate Swept(g: Graph, pending: seq<Digest>, seen: set<nat>, done: set<Digest>) {
    (forall i :: i in seen ==> i < |g| && !g[i].accepted && (g[i].digest in pending || g[i].digest in done)) &&
    forall d, i :: d in done && Answers(g, d, i) ==> i in seen
  }

  lemma {:induction false} SweptPathIsUnaccepted(g: Graph, seen: set<nat>, done: set<Digest>, digest: Digest, path: seq<nat>)
    requires Swept(g, [], seen, done) && digest in done && AnswerPath(g, digest, path)
    ensures !AcceptedPath(g, digest, path)
    decreases |path|
  {
    assert path[0] in seen;
    if |path| > 1 {
      SweptPathIsUnaccepted(g, seen, done, g[path[0]].digest, path[1..]);
      assert End(path) == End(path[1..]);
    }
  }

  lemma SweepStep(g: Graph, pending: seq<Digest>, seen: set<nat>, done: set<Digest>)
    requires pending != [] && Swept(g, pending, seen, done) && !Found(g, pending[|pending| - 1], seen)
    ensures Swept(g, NextStack(g, pending, seen), NextSeen(g, pending, seen), done + {pending[|pending| - 1]})
  {
    NextStackMembers(g, pending, seen);
  }

  lemma {:induction false} SearchMissesNothing(g: Graph, pending: seq<Digest>, seen: set<nat>, done: set<Digest>)
    requires forall i :: i in seen ==> i < |g|
    requires !Search(g, pending, seen) && Swept(g, pending, seen, done)
    ensures forall d :: d in pending || d in done ==> !ReachesAccepted(g, d)
    decreases |g| - |seen|, |pending|
  {
    if pending == [] {
      forall d, path: seq<nat> | d in done && AnswerPath(g, d, path)
        ensures !AcceptedPath(g, d, path)
      {
        SweptPathIsUnaccepted(g, seen, done, d, path);
      }
    } else {
      SweepStep(g, pending, seen, done);
      NextStackMembers(g, pending, seen);
      SearchMissesNothing(g, NextStack(g, pending, seen), NextSeen(g, pending, seen), done + {pending[|pending| - 1]});
    }
  }

  /** The search terminates and decides exactly reachability of an accepted vertex. */
  lemma SearchIsReachability(g: Graph, digest: Digest)
    ensures Search(g, [digest], {}) <==> ReachesAccepted(g, digest)
  {
    if Search(g, [digest], {}) {
      var d := SearchFindsPath(g, [digest], {});
    } else {
      SearchMissesNothing(g, [digest], {}, {});
      assert digest in [digest];
    }
  }

  /** The inner loop of the source: push the digest of every fresh answer, stop at an accepted one. */
  method Expand(g: Graph, digest: Digest, stack: seq<Digest>, before: set<nat>)
    returns (found: bool, pending: seq<Digest>, seen: set<nat>)
    requires forall i :: i in before ==> i < |g|
    ensures found <==> Found(g, digest, before)
    ensures !found ==> pending == stack + DigestsOf(g, FreshAnswers(g, digest, before, |g|))
    ensures !found ==> seen == before + Elements(FreshAnswers(g, digest, before, |g|))
  {
    pending, seen := stack, before;
    var i := 0;
    while i < |g|
      invariant i <= |g|
      invariant seen == before + Elements(FreshAnswers(g, digest, before, i))
      invariant pending == stack + DigestsOf(g, FreshAnswers(g, digest, before, i))
      invariant forall k :: 0 <= k < i && k !in before && Answers(g, digest, k) ==> !g[k].accepted
    {
      if Answers(g, digest, i) && i !in seen {
        seen := seen + {i};
        if g[i].accepted {
          return true, pending, seen;
        }
        pending := pending + [g[i].digest];
      }
      i := i + 1;
    }
    found := false;
  }

  /** The outer loop: a stack of digests and a set of seen vertices. */
  method SearchLoop(g: Graph, start: Digest) returns (found: bool)
    ensures found <==> ReachesAccepted(g, start)
  {
    SearchIsReachability(g, start);
    var seen: set<nat> := {};
    var pending := [start];
    while pending != []
      invariant forall i :: i in seen ==> i < |g|
      invariant Search(g, pending, seen) == Search(g, [start], {})
      decreases |g| - |seen|, |pending|
    {
      ghost var pending0, seen0 := pending, seen;
      ghost var next := NextSeen(g, pending0, seen0);
      found, pending, seen := Expand(g, pending[|pending| - 1], pending[..|pending| - 1], seen);
      if found {
        return true;
      }
      assert pending == NextStack(g, pending0, seen0) && seen == next;
    }
    return false;
  }
}
