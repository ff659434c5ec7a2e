/**
 * The dependency logic both generations of `Graph` share: the `children`
 * map built from `parents`, and `all_ancestors`, the recursive union over
 * `parents`.
 */
module Deps {
  import opened Wrappers

  /** Step alias to the aliases it requires, and to the aliases that require it. */
  type Parents = map<string, seq<string>>
  type Children = map<string, seq<string>>

  /** Some step requires `r`. */
  ghost predicate Required(parents: Parents, r: string)
  {
    exists a :: a in parents && r in parents[a]
  }

  /**
   * `children` is the inverse of `parents`: it has an entry for every step
   * and every required alias, and `children[r]` lists each alias `a` once per
   * occurrence of `r` in `parents[a]`.
   */
  ghost predicate ChildrenOf(parents: Parents, children: Children)
  {
    && (forall r :: r in children <==> r in parents || Required(parents, r))
    && (forall r, a :: r in children ==> Entries(children, r, a) == Occurrences(parents, r, a))
  }

  /** How often `a` was appended to `children[r]`, counting an absent entry as empty. */
  function Entries(children: Children, r: string, a: string): nat
  {
    if r in children then multiset(children[r])[a] else 0
  }

  /** How often `r` occurs in the requirements of `a`, counting an unknown alias as requiring nothing. */
  function Occurrences(parents: Parents, r: string, a: string): nat
  {
    if a in parents then multiset(parents[a])[r] else 0
  }

  /** What registering one step with alias `alias` and requirements `reqs` does to `children`. */
  ghost predicate Registered(children: Children, alias: string, reqs: seq<string>, c: Children)
  {
    && (forall r :: r in c <==> r in children || r == alias || r in reqs)
    && (forall r, a ::
          Entries(c, r, a) == Entries(children, r, a) + (if a == alias then multiset(reqs)[r] else 0))
  }

  /**
   * The body shared by the old `add_step` and the new `Graph.__init__`:
   * give `alias` an (empty) entry if it has none, then append `alias` to the
   * entry of each requirement, creating the entry when it is missing.
   */
  method RegisterStep(children: Children, alias: string, reqs: seq<string>) returns (c: Children)
    ensures Registered(children, alias, reqs, c)
  {
    c := if alias in children then children else children[alias := []];
    assert forall r, a :: Entries(c, r, a) == Entries(children, r, a);
    var j := 0;
    while j < |reqs|
      invariant 0 <= j <= |reqs|
      invariant forall r :: r in c <==> r in children || r == alias || r in reqs[..j]
      invariant forall r, a ::
          Entries(c, r, a) == Entries(children, r, a) + (if a == alias then multiset(reqs[..j])[r] else 0)
    {
      assert reqs[..j + 1] == reqs[..j] + [reqs[j]];
      AppendEntries(c, reqs[j], alias);
      c := Append(c, reqs[j], alias);
      j := j + 1;
    }
    assert reqs[..j] == reqs;
  }

  /** Append `alias` to the entry of `req`, creating the entry when it is missing. */
  function Append(c: Children, req: string, alias: string): Children
  {
    if req in c then c[req := c[req] + [alias]] else c[req := [alias]]
  }

  /** `Append` adds `req` as a key and one occurrence of `alias` to its entry, and nothing else. */
  lemma AppendEntries(c: Children, req: string, alias: string)
    ensures Append(c, req, alias).Keys == c.Keys + {req}
    ensures forall r, a :: Entries(Append(c, req, alias), r, a) == Entries(c, r, a) + (if r == req && a == alias then 1 else 0)
  {
    var c' := Append(c, req, alias);
    forall r, a ensures Entries(c', r, a) == Entries(c, r, a) + (if r == req && a == alias then 1 else 0) {
      if r == req && req in c {
        assert c'[r] == c[r] + [alias];
      }
    }
  }

  /** Registering a new step keeps `children` the inverse of `parents`, whatever the order of registration. */
  lemma RegisterKeepsChildrenOf(parents: Parents, children: Children, alias: string, reqs: seq<string>, c: Children)
    requires ChildrenOf(parents, children)
    requires alias !in parents
    requires Registered(children, alias, reqs, c)
    ensures ChildrenOf(parents[alias := reqs], c)
  {
    RegisterKeys(parents, children, alias, reqs, c);
    RegisterCounts(parents, children, alias, reqs, c);
  }

  lemma RegisterKeys(parents: Parents, children: Children, alias: string, reqs: seq<string>, c: Children)
    requires forall r :: r in children <==> r in parents || Required(parents, r)
    requires forall r :: r in c <==> r in children || r == alias || r in reqs
    requires alias !in parents
    ensures forall r :: r in c <==> r in parents[alias := reqs] || Required(parents[alias := reqs], r)
  {
    var p' := parents[alias := reqs];
    forall r ensures r in c <==> r in p' || Required(p', r) {
      if r in reqs {
        assert alias in p' && r in p'[alias];
      } else if r in c && r !in p' {
        assert r in children;
        var a :| a in parents && r in parents[a];
        assert a in p' && r in p'[a];
      }
      if Required(p', r) {
        var a :| a in p' && r in p'[a];
        if a != alias { assert Required(parents, r); }
      }
    }
  }

  lemma RegisterCounts(parents: Parents, children: Children, alias: string, reqs: seq<string>, c: Children)
    requires forall r :: r in children <==> r in parents || Required(parents, r)
    requires forall r, a :: r in children ==> Entries(children, r, a) == Occurrences(parents, r, a)
    requires alias !in parents
    requires forall r, a ::
          Entries(c, r, a) == Entries(children, r, a) + (if a == alias then multiset(reqs)[r] else 0)
    ensures forall r, a :: r in c ==> Entries(c, r, a) == Occurrences(parents[alias := reqs], r, a)
  {
    forall r, a | r in c
      ensures Entries(c, r, a) == Occurrences(parents[alias := reqs], r, a)
    {
      assert Entries(c, r, a) == Entries(children, r, a) + (if a == alias then multiset(reqs)[r] else 0);
      if r !in children && a in parents {
        assert !Required(parents, r);
        assert r !in parents[a];
      }
    }
  }

  lemma EmptyChildrenOf()
    ensures ChildrenOf(map[], map[])
  {
  }

  /**
   * Two children maps that are both the inverse of the same `parents` have
   * the same keys and the same entries up to order: the result does not
   * depend on the order in which the steps were registered.
   */
  lemma ChildrenOrderIndependent(parents: Parents, c1: Children, c2: Children)
    requires ChildrenOf(parents, c1) && ChildrenOf(parents, c2)
    ensures c1.Keys == c2.Keys
    ensures forall r :: r in c1 ==> multiset(c1[r]) == multiset(c2[r])
  {
    forall r | r in c1 ensures multiset(c1[r]) == multiset(c2[r]) {
      SameCounts(parents, c1, c2, r);
    }
  }

  /** Both entries for `r` count the occurrences of `r` in `parents`, so they hold the same elements. */
  lemma SameCounts(parents: Parents, c1: Children, c2: Children, r: string)
    requires ChildrenOf(parents, c1) && ChildrenOf(parents, c2)
    requires r in c1
    ensures r in c2 && multiset(c1[r]) == multiset(c2[r])
  {
    forall a ensures multiset(c1[r])[a] == multiset(c2[r])[a] {
      assert Entries(c1, r, a) == Occurrences(parents, r, a);
    }
  }

  /**
   * Every step has a `children` entry, and a step no other step requires
   * has an empty one.
   */
  lemma ChildrenOfStep(parents: Parents, children: Children, a: string)
    requires ChildrenOf(parents, children)
    requires a in parents
    ensures a in children
    ensures !Required(parents, a) ==> children[a] == []
  {
    if !Required(parents, a) {
      forall x ensures multiset(children[a])[x] == 0 {
        assert Entries(children, a, x) == Occurrences(parents, a, x);
        if x in parents {
          assert a !in parents[x];
        }
      }
      assert multiset(children[a]) == multiset{};
      assert |children[a]| == |multiset(children[a])|;
    }
  }

  // ----- all_ancestors -----

  /**
   * A ranking that decreases along `requires` edges between steps: the
   * relation has no cycle, the condition under which `all_ancestors`
   * terminates.
   */
  ghost predicate Ranked(parents: Parents, rank: map<string, nat>)
  {
    forall a :: a in parents ==> a in rank && forall p :: p in parents[a] && p in parents ==> p in rank && rank[p] < rank[a]
  }

  /** Every member of `s` is a step, and its requirements are in `s`. */
  ghost predicate Closed(parents: Parents, s: set<string>)
  {
    forall x :: x in s ==> x in parents && forall q :: q in parents[x] ==> q in s
  }

  /**
   * `all_ancestors(alias)`: for each parent, add it and the parent's own
   * ancestors; a missing alias raises KeyError.
   */
  function Ancestors(parents: Parents, alias: string, ghost rank: map<string, nat>): Result<set<string>>
    requires Ranked(parents, rank)
    decreases if alias in parents then rank[alias] + 1 else 0, 1
  {
    if alias !in parents then Failure(KeyError(alias))
    else CollectAncestors(parents, alias, 0, rank)
  }

  /** The loop of `all_ancestors` over `parents[alias][i..]`. */
  function CollectAncestors(parents: Parents, alias: string, i: nat, ghost rank: map<string, nat>): Result<set<string>>
    requires Ranked(parents, rank)
    requires alias in parents && i <= |parents[alias]|
    decreases rank[alias] + 1, 0, |parents[alias]| - i
  {
    if i == |parents[alias]| then Success({})
    else
      var parent := parents[alias][i];
      var up := Ancestors(parents, parent, rank);
      if up.Failure? then up
      else
        var rest := CollectAncestors(parents, alias, i + 1, rank);
        if rest.Failure? then rest
        else Success({parent} + up.value + rest.value)
  }

  /** A step without requirements has no ancestors. */
  lemma NoParentsNoAncestors(parents: Parents, alias: string, rank: map<string, nat>)
    requires Ranked(parents, rank)
    requires alias in parents && parents[alias] == []
    ensures Ancestors(parents, alias, rank) == Success({})
  {
  }

  /** The ancestors contain every direct parent, and are closed under `parents`. */
  lemma {:induction false} AncestorsSound(parents: Parents, alias: string, rank: map<string, nat>)
    requires Ranked(parents, rank)
    requires Ancestors(parents, alias, rank).Success?
    ensures alias in parents
    ensures forall p :: p in parents[alias] ==> p in Ancestors(parents, alias, rank).value
    ensures Closed(parents, Ancestors(parents, alias, rank).value)
    decreases rank[alias] + 1, 1
  {
    CollectSound(parents, alias, 0, rank);
  }

  lemma {:induction false} CollectSound(parents: Parents, alias: string, i: nat, rank: map<string, nat>)
    requires Ranked(parents, rank)
    requires alias in parents && i <= |parents[alias]|
    requires CollectAncestors(parents, alias, i, rank).Success?
    ensures forall j :: i <= j < |parents[alias]| ==> parents[alias][j] in CollectAncestors(parents, alias, i, rank).value
    ensures Closed(parents, CollectAncestors(parents, alias, i, rank).value)
    decreases rank[alias] + 1, 0, |parents[alias]| - i
  {
    if i < |parents[alias]| {
      var parent := parents[alias][i];
      AncestorsSound(parents, parent, rank);
      CollectSound(parents, alias, i + 1, rank);
    }
  }

  /** The ancestors lie inside every closed set that contains the direct parents. */
  lemma {:induction false} AncestorsLeast(parents: Parents, alias: string, rank: map<string, nat>, t: set<string>)
    requires Ranked(parents, rank)
    requires Ancestors(parents, alias, rank).Success?
    requires alias in parents && (forall p :: p in parents[alias] ==> p in t) && Closed(parents, t)
    ensures Ancestors(parents, alias, rank).value <= t
    decreases rank[alias] + 1, 1
  {
    CollectLeast(parents, alias, 0, rank, t);
  }

  lemma {:induction false} CollectLeast(parents: Parents, alias: string, i: nat, rank: map<string, nat>, t: set<string>)
    requires Ranked(parents, rank)
    requires alias in parents && i <= |parents[alias]|
    requires CollectAncestors(parents, alias, i, rank).Success?
    requires (forall p :: p in parents[alias] ==> p in t) && Closed(parents, t)
    ensures CollectAncestors(parents, alias, i, rank).value <= t
    decreases rank[alias] + 1, 0, |parents[alias]| - i
  {
    if i < |parents[alias]| {
      var parent := parents[alias][i];
      assert parent in t;
      AncestorsLeast(parents, parent, rank, t);
      CollectLeast(parents, alias, i + 1, rank, t);
    }
  }

  /** `all_ancestors` succeeds whenever the requirements reachable from `alias` are all steps. */
  lemma {:induction false} AncestorsDefined(parents: Parents, alias: string, rank: map<string, nat>, t: set<string>)
    requires Ranked(parents, rank)
    requires alias in parents && (forall p :: p in parents[alias] ==> p in t) && Closed(parents, t)
    ensures Ancestors(parents, alias, rank).Success?
    decreases rank[alias] + 1, 1
  {
    CollectDefined(parents, alias, 0, rank, t);
  }

  lemma {:induction false} CollectDefined(parents: Parents, alias: string, i: nat, rank: map<string, nat>, t: set<string>)
    requires Ranked(parents, rank)
    requires alias in parents && i <= |parents[alias]|
    requires (forall p :: p in parents[alias] ==> p in t) && Closed(parents, t)
    ensures CollectAncestors(parents, alias, i, rank).Success?
    decreases rank[alias] + 1, 0, |parents[alias]| - i
  {
    if i < |parents[alias]| {
      var parent := parents[alias][i];
      assert parent in t;
      AncestorsDefined(parents, parent, rank, t);
      CollectDefined(parents, alias, i + 1, rank, t);
    }
  }

  /** An ancestor's ancestors are ancestors too. */
  lemma AncestorsTransitive(parents: Parents, alias: string, rank: map<string, nat>, p: string)
    requires Ranked(parents, rank)
    requires Ancestors(parents, alias, rank).Success?
    requires p in Ancestors(parents, alias, rank).value
    ensures Ancestors(parents, p, rank).Success?
    ensures Ancestors(parents, p, rank).value <= Ancestors(parents, alias, rank).value
  {
    var s := Ancestors(parents, alias, rank).value;
    AncestorsSound(parents, alias, rank);
    AncestorsDefined(parents, p, rank, s);
    AncestorsLeast(parents, p, rank, s);
  }

  // ----- the working set of schedule_greedy -----

  /** The targets `targets[..i]` together with all their ancestors. */
  function TargetSteps(parents: Parents, targets: seq<string>, i: nat, ghost rank: map<string, nat>): Result<set<string>>
    requires Ranked(parents, rank)
    requires i <= |targets|
  {
    if i == 0 then Success({})
    else
      var done :- TargetSteps(parents, targets, i - 1, rank);
      var up :- Ancestors(parents, targets[i - 1], rank);
      Success(done + {targets[i - 1]} + up)
  }

  /** The loop over the targets: add each target and its ancestors. */
  method CollectTargets(parents: Parents, targets: seq<string>, ghost rank: map<string, nat>) returns (r: Result<set<string>>)
    requires Ranked(parents, rank)
    ensures r == TargetSteps(parents, targets, |targets|, rank)
  {
    var steps: set<string> := {};
    var i := 0;
    while i < |targets|
      invariant 0 <= i <= |targets|
      invariant TargetSteps(parents, targets, i, rank) == Success(steps)
    {
      var up := Ancestors(parents, targets[i], rank);
      if up.Failure? {
        TargetStepsFailurePersists(parents, targets, i + 1, |targets|, rank);
        return Failure(up.error);
      }
      steps := steps + {targets[i]} + up.value;
      i := i + 1;
    }
    return Success(steps);
  }

  lemma {:induction false} TargetStepsFailurePersists(parents: Parents, targets: seq<string>, i: nat, n: nat, rank: map<string, nat>)
    requires Ranked(parents, rank)
    requires i <= n <= |targets|
    requires TargetSteps(parents, targets, i, rank).Failure?
    ensures TargetSteps(parents, targets, n, rank) == TargetSteps(parents, targets, i, rank)
    decreases n - i
  {
    if i < n {
      TargetStepsFailurePersists(parents, targets, i, n - 1, rank);
    }
  }

  /**
   * The targets' working set is the least set of steps that holds the
   * targets and is closed under `parents`.
   */
  lemma {:induction false} TargetStepsClosed(parents: Parents, targets: seq<string>, i: nat, rank: map<string, nat>)
    requires Ranked(parents, rank)
    requires i <= |targets|
    requires TargetSteps(parents, targets, i, rank).Success?
    ensures var w := TargetSteps(parents, targets, i, rank).value;
      && (forall k :: 0 <= k < i ==> targets[k] in w)
      && Closed(parents, w)
  {
    if i > 0 {
      TargetStepsClosed(parents, targets, i - 1, rank);
      AncestorsSound(parents, targets[i - 1], rank);
    }
  }

  lemma {:induction false} TargetStepsLeast(parents: Parents, targets: seq<string>, i: nat, rank: map<string, nat>, t: set<string>)
    requires Ranked(parents, rank)
    requires i <= |targets|
    requires TargetSteps(parents, targets, i, rank).Success?
    requires (forall k :: 0 <= k < i ==> targets[k] in t) && Closed(parents, t)
    ensures TargetSteps(parents, targets, i, rank).value <= t
  {
    if i > 0 {
      TargetStepsLeast(parents, targets, i - 1, rank, t);
      AncestorsSound(parents, targets[i - 1], rank);
      AncestorsLeast(parents, targets[i - 1], rank, t);
    }
  }
}
