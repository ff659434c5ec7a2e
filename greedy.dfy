/**
 * The loop both generations of `schedule_greedy` share: repeatedly collect
 * the steps whose requirements are all scheduled, pick the one that stops
 * first, and start it when the previous one stopped.
 */
module Greedy {
  import opened Wrappers
  import opened Deps
  import opened Conversions

  /** No element occurs twice. */
  predicate Distinct(s: seq<string>)
  {
    forall i, j :: 0 <= i < j < |s| ==> s[i] != s[j]
  }

  /** Every requirement of `x` is in `done`. */
  predicate Ready(parents: Parents, done: set<string>, x: string)
    requires x in parents
  {
    forall p :: p in parents[x] ==> p in done
  }

  /** Every member of `possible` is ready. */
  predicate AllReady(parents: Parents, done: set<string>, possible: set<string>)
  {
    forall x :: x in possible ==> x in parents && Ready(parents, done, x)
  }

  /** `order` lists `w` once each, and every step comes after its requirements. */
  ghost predicate TopoOrder(w: set<string>, parents: Parents, order: seq<string>)
  {
    && Distinct(order)
    && (forall x :: x in order <==> x in w)
    && (forall i, p :: 0 <= i < |order| && order[i] in parents && p in parents[order[i]] ==> p in order[..i])
  }

  /** Some ordering of `w` respects the requirements. */
  ghost predicate Schedulable(w: set<string>, parents: Parents)
  {
    exists order :: TopoOrder(w, parents, order)
  }

  /** With `done` scheduled, no remaining step of `w` is ready: the greedy loop finds no candidate. */
  ghost predicate Stuck(w: set<string>, parents: Parents, done: set<string>)
  {
    && done < w
    && w <= parents.Keys
    && forall x :: x in w - done ==> !Ready(parents, done, x)
  }

  /** Total duration of the steps in `ids`: the stop time of the last of them. */
  function Elapsed(dur: map<string, nat>, ids: seq<string>): nat
    requires forall x :: x in ids ==> x in dur
  {
    if ids == [] then 0 else Elapsed(dur, ids[..|ids| - 1]) + dur[ids[|ids| - 1]]
  }

  /**
   * At every position the chosen step has the least duration (hence the
   * earliest stop) among the steps that were ready at that point.
   */
  ghost predicate GreedyChoice(w: set<string>, parents: Parents, dur: map<string, nat>, order: seq<string>)
    requires w <= parents.Keys && w <= dur.Keys
    requires forall x :: x in order ==> x in dur
  {
    forall k, x :: 0 <= k < |order| && x in w && x !in order[..k] && Ready(parents, SetOf(order[..k]), x)
      ==> dur[order[k]] <= dur[x]
  }

  /** The first step starts at 0 and each later one when everything before it has stopped. */
  ghost predicate Timed(w: set<string>, dur: map<string, nat>, order: seq<string>, start: map<string, nat>)
    requires forall x :: x in order ==> x in dur
  {
    && start.Keys == w
    && forall k :: 0 <= k < |order| ==> order[k] in start && start[order[k]] == Elapsed(dur, order[..k])
  }

  /** The `for dep in parents: if not dep in scheduled: break` test. */
  method AllScheduled(deps: seq<string>, scheduled: set<string>) returns (ok: bool)
    ensures ok <==> forall p :: p in deps ==> p in scheduled
  {
    var i := 0;
    while i < |deps|
      invariant 0 <= i <= |deps|
      invariant forall j :: 0 <= j < i ==> deps[j] in scheduled
    {
      if deps[i] !in scheduled {
        return false;
      }
      i := i + 1;
    }
    return true;
  }

  /** The "find possible next steps" pass: add every unscheduled step whose requirements are scheduled. */
  method AddReady(w: set<string>, parents: Parents, scheduled: set<string>, possible: set<string>)
    returns (next: set<string>)
    requires w <= parents.Keys
    requires possible <= w - scheduled
    requires AllReady(parents, scheduled, possible)
    ensures next <= w - scheduled
    ensures forall x :: x in w - scheduled ==> (x in next <==> Ready(parents, scheduled, x))
  {
    next := possible;
    var todo := w;
    while todo != {}
      invariant todo <= w
      invariant next <= w - scheduled
      invariant forall x :: x in next ==> Ready(parents, scheduled, x)
      invariant forall x :: x in w - todo - scheduled && Ready(parents, scheduled, x) ==> x in next
      decreases todo
    {
      var s :| s in todo;
      if s !in scheduled {
        var ok := AllScheduled(parents[s], scheduled);
        if ok {
          next := next + {s};
        }
      }
      todo := todo - {s};
    }
  }

  /**
   * The "find the step with minimal end time" pass. A candidate starts at
   * `time`: the source would postpone it past a requirement's recorded
   * waiting time, but it never records one. A later candidate replaces the
   * best one only when it stops strictly earlier.
   */
  method BestCandidate(possible: set<string>, dur: map<string, nat>, time: nat)
    returns (best: Option<string>, bestStart: nat, bestStop: nat)
    requires possible <= dur.Keys
    ensures best.None? <==> possible == {}
    ensures best.Some? ==> best.value in possible && bestStart == time && bestStop == time + dur[best.value]
    ensures best.Some? ==> forall y :: y in possible ==> dur[best.value] <= dur[y]
  {
    best := None;
    bestStart, bestStop := 0, 0;
    var cands := possible;
    while cands != {}
      invariant cands <= possible
      invariant best.None? <==> cands == possible
      invariant best.Some? ==> best.value in possible - cands && bestStart == time && bestStop == time + dur[best.value]
      invariant best.Some? ==> forall y :: y in possible - cands ==> dur[best.value] <= dur[y]
      decreases cands
    {
      var c :| c in cands;
      var candStart := time;
      var candStop := candStart + dur[c];
      if best.None? || candStop < bestStop {
        best, bestStart, bestStop := Some(c), candStart, candStop;
      }
      cands := cands - {c};
    }
  }

  /** Topological within `ids` itself: each listed step comes after its requirements. */
  ghost predicate TopoPrefix(parents: Parents, ids: seq<string>)
  {
    forall i, p :: 0 <= i < |ids| && ids[i] in parents && p in parents[ids[i]] ==> p in ids[..i]
  }

  /** What holds of the steps scheduled so far, `ids`, and their starts. */
  ghost predicate Partial(w: set<string>, parents: Parents, dur: map<string, nat>, ids: seq<string>, start: map<string, nat>)
    requires w <= parents.Keys && w <= dur.Keys
  {
    && Distinct(ids)
    && SetOf(ids) <= w
    && TopoPrefix(parents, ids)
    && GreedyChoice(w, parents, dur, ids)
    && Timed(SetOf(ids), dur, ids, start)
  }

  /**
   * The greedy loop. On success the order is a topological order of `w`,
   * every pick is greedy, and the starts are back to back from 0; it fails
   * with TypeError (unpacking the missing best candidate) exactly when no
   * topological order of `w` exists.
   */
  method GreedyOrder(w: set<string>, parents: Parents, dur: map<string, nat>)
    returns (r: Result<(seq<string>, map<string, nat>)>)
    requires w <= parents.Keys && w <= dur.Keys
    ensures r.Success? ==> var (order, start) := r.value;
      && TopoOrder(w, parents, order)
      && |order| == |w|
      && GreedyChoice(w, parents, dur, order)
      && Timed(w, dur, order, start)
    ensures r.Failure? ==> r.error == TypeError && (exists done :: Stuck(w, parents, done)) && !Schedulable(w, parents)
  {
    var time := 0;
    var possible: set<string> := {};
    var scheduled: set<string> := {};
    var start: map<string, nat> := map[];
    var ids: seq<string> := [];
    while |scheduled| < |w|
      invariant Partial(w, parents, dur, ids, start)
      invariant scheduled == SetOf(ids) && |ids| == |scheduled|
      invariant time == Elapsed(dur, ids)
      invariant possible <= w - scheduled
      invariant AllReady(parents, scheduled, possible)
      decreases |w| - |scheduled|
    {
      possible := AddReady(w, parents, scheduled, possible);
      var best, candStart, candStop := BestCandidate(possible, dur, time);
      if best.None? {
        StuckFailure(w, parents, scheduled);
        return Failure(TypeError);
      }
      var c := best.value;
      ExtendPartial(w, parents, dur, ids, start, c);
      StillReady(w, parents, scheduled, possible, c);
      start := start[c := candStart];
      scheduled := scheduled + {c};
      ids := ids + [c];
      possible := possible - {c};
      time := candStop;
    }
    SubsetSameSize(scheduled, w);
    PartialComplete(w, parents, dur, ids, start);
    return Success((ids, start));
  }

  /** Ready candidates other than the one scheduled stay ready, since scheduling only adds to `scheduled`. */
  lemma StillReady(w: set<string>, parents: Parents, scheduled: set<string>, possible: set<string>, c: string)
    requires w <= parents.Keys && possible <= w - scheduled
    requires AllReady(parents, scheduled, possible)
    ensures possible - {c} <= w - (scheduled + {c})
    ensures AllReady(parents, scheduled + {c}, possible - {c})
  {
  }

  /** Once every step of `w` is scheduled, the partial schedule is a complete one. */
  lemma PartialComplete(w: set<string>, parents: Parents, dur: map<string, nat>, ids: seq<string>, start: map<string, nat>)
    requires w <= parents.Keys && w <= dur.Keys
    requires Partial(w, parents, dur, ids, start) && SetOf(ids) == w
    ensures TopoOrder(w, parents, ids) && |ids| == |w|
    ensures GreedyChoice(w, parents, dur, ids) && Timed(w, dur, ids, start)
  {
    DistinctSize(ids);
  }

  /** When no candidate is found, the loop is stuck and no topological order exists. */
  lemma StuckFailure(w: set<string>, parents: Parents, done: set<string>)
    requires w <= parents.Keys && done <= w && |done| < |w|
    requires forall x :: x in w - done ==> !Ready(parents, done, x)
    ensures Stuck(w, parents, done) && !Schedulable(w, parents)
  {
    assert done != w;
    StuckNotSchedulable(w, parents, done);
  }

  /** Appending a greedy, ready candidate started at `Elapsed(dur, ids)` keeps `Partial`. */
  lemma ExtendPartial(w: set<string>, parents: Parents, dur: map<string, nat>, ids: seq<string>,
                      start: map<string, nat>, c: string)
    requires w <= parents.Keys && w <= dur.Keys
    requires Partial(w, parents, dur, ids, start)
    requires c in w - SetOf(ids) && Ready(parents, SetOf(ids), c)
    requires forall y :: y in w - SetOf(ids) && Ready(parents, SetOf(ids), y) ==> dur[c] <= dur[y]
    ensures Partial(w, parents, dur, ids + [c], start[c := Elapsed(dur, ids)])
    ensures SetOf(ids + [c]) == SetOf(ids) + {c} && |ids + [c]| == |SetOf(ids) + {c}|
    ensures Elapsed(dur, ids + [c]) == Elapsed(dur, ids) + dur[c]
  {
    var ids' := ids + [c];
    DistinctSize(ids);
    GreedyStep(w, parents, dur, ids, c, SetOf(ids));
    TimedStep(dur, ids, c, start);
    assert Distinct(ids') by {
      forall i, j | 0 <= i < j < |ids'| ensures ids'[i] != ids'[j] {
        if j == |ids| {
          assert ids'[i] in SetOf(ids);
        }
      }
    }
    assert SetOf(ids') <= w;
  }

  lemma {:induction false} DistinctSize(ids: seq<string>)
    requires Distinct(ids)
    ensures |SetOf(ids)| == |ids|
  {
    if ids != [] {
      var last := ids[|ids| - 1];
      var init := ids[..|ids| - 1];
      DistinctSize(init);
      assert SetOf(ids) == SetOf(init) + {last};
      assert last !in SetOf(init);
    }
  }

  /** Appending the chosen candidate keeps the order topological and greedy. */
  lemma GreedyStep(w: set<string>, parents: Parents, dur: map<string, nat>, ids: seq<string>, c: string,
                   scheduled: set<string>)
    requires w <= parents.Keys && w <= dur.Keys
    requires scheduled == SetOf(ids) && scheduled <= w
    requires TopoPrefix(parents, ids)
    requires GreedyChoice(w, parents, dur, ids)
    requires c in w - scheduled && Ready(parents, scheduled, c)
    requires forall y :: y in w - scheduled && Ready(parents, scheduled, y) ==> dur[c] <= dur[y]
    ensures TopoPrefix(parents, ids + [c])
    ensures GreedyChoice(w, parents, dur, ids + [c])
  {
    var ids' := ids + [c];
    assert ids'[..|ids|] == ids;
    forall i, p | 0 <= i < |ids'| && ids'[i] in parents && p in parents[ids'[i]] ensures p in ids'[..i] {
      if i < |ids| {
        assert ids'[..i] == ids[..i];
      }
    }
    forall k, x | 0 <= k < |ids'| && x in w && x !in ids'[..k] && Ready(parents, SetOf(ids'[..k]), x)
      ensures dur[ids'[k]] <= dur[x]
    {
      if k < |ids| {
        assert ids'[..k] == ids[..k];
      }
    }
  }

  /** Appending a step started when the steps before it have stopped keeps the starts right. */
  lemma TimedStep(dur: map<string, nat>, ids: seq<string>, c: string, start: map<string, nat>)
    requires forall x :: x in ids ==> x in dur
    requires c in dur && c !in ids
    requires Timed(SetOf(ids), dur, ids, start)
    ensures SetOf(ids + [c]) == SetOf(ids) + {c}
    ensures Elapsed(dur, ids + [c]) == Elapsed(dur, ids) + dur[c]
    ensures Timed(SetOf(ids + [c]), dur, ids + [c], start[c := Elapsed(dur, ids)])
  {
    var ids' := ids + [c];
    assert ids'[..|ids|] == ids;
    assert SetOf(ids') == SetOf(ids) + {c};
    var start' := start[c := Elapsed(dur, ids)];
    forall k | 0 <= k < |ids'| ensures ids'[k] in start' && start'[ids'[k]] == Elapsed(dur, ids'[..k]) {
      if k < |ids| {
        assert ids'[..k] == ids[..k];
        assert ids'[k] == ids[k] && ids[k] in SetOf(ids);
      }
    }
  }

  lemma ProperSubset(a: set<string>, b: set<string>)
    requires a <= b && a != b
    ensures b - a != {}
  {
    assert exists x :: x in b && x !in a;
    var x :| x in b && x !in a;
    assert x in b - a;
  }

  lemma SubsetSameSize(a: set<string>, b: set<string>)
    requires a <= b && |a| >= |b|
    ensures a == b
  {
    assert b * a == a;
    assert |b - a| == |b| - |b * a|;
    assert b - a == {};
    forall x | x in b ensures x in a {
      assert x !in b - a;
    }
  }

  /**
   * In a topological order, the first step not yet scheduled has all its
   * requirements scheduled: while steps remain, one of them is ready.
   */
  lemma TopoOrderHasReady(w: set<string>, parents: Parents, order: seq<string>, done: set<string>)
    returns (x: string)
    requires TopoOrder(w, parents, order)
    requires w <= parents.Keys && done < w
    ensures x in w - done && Ready(parents, done, x)
  {
    ProperSubset(done, w);
    var y :| y in w - done;
    assert y in order;
    var i := 0;
    while order[i] in done
      invariant 0 <= i < |order|
      invariant forall j :: 0 <= j < i ==> order[j] in done
      invariant exists k :: i <= k < |order| && order[k] !in done
      decreases |order| - i
    {
      i := i + 1;
    }
    x := order[i];
    forall p | p in parents[x] ensures p in done {
      assert p in order[..i];
    }
  }

  /** When the greedy loop is stuck no topological order exists. */
  lemma StuckNotSchedulable(w: set<string>, parents: Parents, done: set<string>)
    requires Stuck(w, parents, done)
    ensures !Schedulable(w, parents)
  {
    if order :| TopoOrder(w, parents, order) {
      var x := TopoOrderHasReady(w, parents, order, done);
      assert false;
    }
  }

  /**
   * A cycle: when every step of a non-empty working set requires another
   * step of it, no step can come first, so no topological order exists and
   * the greedy loop fails.
   */
  lemma CycleNotSchedulable(w: set<string>, parents: Parents)
    requires w <= parents.Keys && w != {}
    requires forall x :: x in w ==> exists p :: p in parents[x] && p in w
    ensures !Schedulable(w, parents)
  {
    forall x | x in w ensures !Ready(parents, {}, x) {
      var p :| p in parents[x] && p in w;
    }
    StuckNotSchedulable(w, parents, {});
  }

  /**
   * Without a cycle, and with every requirement inside the working set, the
   * loop never gets stuck: the remaining step of least rank is ready.
   */
  lemma RankedNeverStuck(w: set<string>, parents: Parents, rank: map<string, nat>, done: set<string>)
    requires Ranked(parents, rank)
    requires w <= parents.Keys && Closed(parents, w)
    ensures !Stuck(w, parents, done)
  {
    if done < w {
      ProperSubset(done, w);
      var x := LeastRanked(w - done, rank);
      assert Ready(parents, done, x) by {
        forall p | p in parents[x] ensures p in done {
          assert p in w && rank[p] < rank[x];
        }
      }
    }
  }

  /** A member of a non-empty ranked set with the least rank. */
  lemma {:induction false} LeastRanked(s: set<string>, rank: map<string, nat>) returns (x: string)
    requires s != {} && s <= rank.Keys
    ensures x in s && forall y :: y in s ==> rank[x] <= rank[y]
    decreases s
  {
    var y :| y in s;
    if s == {y} {
      x := y;
    } else {
      var z := LeastRanked(s - {y}, rank);
      x := if rank[y] <= rank[z] then y else z;
    }
  }

  /** Hence such a working set is always scheduled successfully. */
  lemma RankedSchedulableOrder(w: set<string>, parents: Parents, rank: map<string, nat>, dur: map<string, nat>,
                               r: Result<(seq<string>, map<string, nat>)>)
    requires Ranked(parents, rank)
    requires w <= parents.Keys && Closed(parents, w)
    requires r.Failure? ==> exists done :: Stuck(w, parents, done)
    ensures r.Success?
  {
    if r.Failure? {
      var done :| Stuck(w, parents, done);
      RankedNeverStuck(w, parents, rank, done);
    }
  }

  lemma {:induction false} ElapsedMonotone(dur: map<string, nat>, ids: seq<string>, j: nat, i: nat)
    requires forall x :: x in ids ==> x in dur
    requires j <= i <= |ids|
    ensures Elapsed(dur, ids[..j]) <= Elapsed(dur, ids[..i])
    decreases i - j
  {
    if j < i {
      ElapsedMonotone(dur, ids, j, i - 1);
      assert ids[..i][..i - 1] == ids[..i - 1];
    }
  }

  /**
   * In a greedy schedule each step starts exactly when the one before it
   * stops, and no later than each of its requirements stops.
   */
  lemma ScheduleRespectsDependencies(w: set<string>, parents: Parents, dur: map<string, nat>,
                                     order: seq<string>, start: map<string, nat>, i: nat, p: string)
    requires w <= parents.Keys && w <= dur.Keys
    requires TopoOrder(w, parents, order) && Timed(w, dur, order, start)
    requires i < |order| && p in parents[order[i]]
    ensures p in start && start[p] + dur[p] <= start[order[i]]
  {
    assert p in order[..i];
    var j :| 0 <= j < i && order[j] == p;
    StopsBefore(w, dur, order, start, j, i);
  }

  /** A step stops no later than any later step starts. */
  lemma StopsBefore(w: set<string>, dur: map<string, nat>, order: seq<string>, start: map<string, nat>, j: nat, i: nat)
    requires forall x :: x in order ==> x in dur
    requires Timed(w, dur, order, start)
    requires j < i < |order|
    ensures start[order[j]] + dur[order[j]] <= start[order[i]]
  {
    assert order[..j + 1][..j] == order[..j];
    ElapsedMonotone(dur, order, j + 1, i);
  }

  lemma BackToBack(w: set<string>, dur: map<string, nat>, order: seq<string>, start: map<string, nat>, k: nat)
    requires w <= dur.Keys && (forall x :: x in order <==> x in w)
    requires Timed(w, dur, order, start)
    requires k + 1 < |order|
    ensures start[order[k + 1]] == start[order[k]] + dur[order[k]]
  {
    assert order[..k + 1][..k] == order[..k];
  }
}
