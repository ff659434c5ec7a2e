/**
 * The bill of materials of a schedule: every use of a tool or part by a
 * scheduled step is folded, in schedule order, into one running count per
 * `obj_id`.  Both generations share the fold; they differ in the rule that
 * updates a count and in what they report at the end.
 */
module Bom {
  import opened Values

  /** One object reference of a step, by the attributes the BOM reads. */
  datatype Use = Use(objId: string, quantity: int, created: bool, optional: bool)

  /** The tools, parts and results a scheduled step uses, in the order they are visited. */
  datatype StepUses = StepUses(tools: seq<Use>, parts: seq<Use>, results: seq<Use>)

  /** The counts a part accumulates. */
  datatype PartCount = PartCount(optional: int, quantity: int)

  function UseIds(uses: seq<Use>): set<string>
  {
    set u | u in uses :: u.objId
  }

  /** The count of `id` after folding `rule` over its uses, starting from `init` when `id` is first seen. */
  function Tally<S>(rule: (S, Use) -> S, init: S, uses: seq<Use>, id: string): S
  {
    if uses == [] then init
    else
      var prev := Tally(rule, init, uses[..|uses| - 1], id);
      var u := uses[|uses| - 1];
      if u.objId == id then rule(prev, u) else prev
  }

  lemma TallyAppend<S>(rule: (S, Use) -> S, init: S, uses: seq<Use>, u: Use, id: string)
    ensures Tally(rule, init, uses + [u], id) ==
      if u.objId == id then rule(Tally(rule, init, uses, id), u) else Tally(rule, init, uses, id)
  {
    assert (uses + [u])[..|uses|] == uses;
  }

  /** An id without uses keeps its initial count. */
  lemma {:induction false} TallyUnused<S>(rule: (S, Use) -> S, init: S, uses: seq<Use>, id: string)
    requires id !in UseIds(uses)
    ensures Tally(rule, init, uses, id) == init
  {
    if uses != [] {
      var front := uses[..|uses| - 1];
      assert uses == front + [uses[|uses| - 1]];
      assert UseIds(front) <= UseIds(uses);
      TallyUnused(rule, init, front, id);
    }
  }

  /** `acc` holds a count for exactly the ids used in `uses`, each the tally of its uses. */
  ghost predicate Tallied<S>(rule: (S, Use) -> S, init: S, acc: map<string, S>, uses: seq<Use>)
  {
    && (forall id :: id in acc <==> id in UseIds(uses))
    && (forall id :: id in acc ==> acc[id] == Tally(rule, init, uses, id))
  }

  /**
   * `for use in uses: if not use.obj_id in acc: acc[obj_id] = init; acc[obj_id] = rule(...)`:
   * folding more uses into counts that hold the tally of `done`.
   */
  method TallyInto<S>(rule: (S, Use) -> S, init: S, acc: map<string, S>, ghost done: seq<Use>, uses: seq<Use>)
    returns (r: map<string, S>)
    requires Tallied(rule, init, acc, done)
    ensures Tallied(rule, init, r, done + uses)
  {
    r := acc;
    var j := 0;
    assert done + uses[..0] == done;
    while j < |uses|
      invariant 0 <= j <= |uses|
      invariant Tallied(rule, init, r, done + uses[..j])
    {
      var u := uses[j];
      assert done + uses[..j + 1] == (done + uses[..j]) + [u];
      var cur := if u.objId in r then r[u.objId] else init;
      TalliedStep(rule, init, r, done + uses[..j], u);
      r := r[u.objId := rule(cur, u)];
      j := j + 1;
    }
    assert uses[..j] == uses;
  }

  /** One more use: its id's count is updated by the rule, starting from `init` if the id is new. */
  lemma TalliedStep<S>(rule: (S, Use) -> S, init: S, acc: map<string, S>, seen: seq<Use>, u: Use)
    requires Tallied(rule, init, acc, seen)
    ensures Tallied(rule, init, acc[u.objId := rule(if u.objId in acc then acc[u.objId] else init, u)], seen + [u])
  {
    if u.objId !in acc {
      TallyUnused(rule, init, seen, u.objId);
    }
    forall id ensures Tally(rule, init, seen + [u], id) ==
      if u.objId == id then rule(Tally(rule, init, seen, id), u) else Tally(rule, init, seen, id)
    {
      TallyAppend(rule, init, seen, u, id);
    }
    assert UseIds(seen + [u]) == UseIds(seen) + {u.objId};
  }

  // ----- the newer `_create_bom` -----

  /** A tool use: a created tool adds its quantity, any other non-optional use raises the count to its quantity. */
  function ToolRule(q: int, u: Use): int
  {
    if u.created then q + u.quantity
    else if !u.optional then (if u.quantity > q then u.quantity else q)
    else q
  }

  /** A part or result use: created subtracts, optional adds to `optional`, anything else adds to `quantity`. */
  function PartRule(p: PartCount, u: Use): PartCount
  {
    if u.created then p.(quantity := p.quantity - u.quantity)
    else if u.optional then p.(optional := p.optional + u.quantity)
    else p.(quantity := p.quantity + u.quantity)
  }

  /** The tool uses of `steps`, step by step. */
  function ToolUses(steps: seq<StepUses>): seq<Use>
  {
    if steps == [] then [] else ToolUses(steps[..|steps| - 1]) + steps[|steps| - 1].tools
  }

  /** The part uses of `steps`: each step's parts, then its results. */
  function PartUses(steps: seq<StepUses>): seq<Use>
  {
    if steps == [] then [] else PartUses(steps[..|steps| - 1]) + (steps[|steps| - 1].parts + steps[|steps| - 1].results)
  }

  /** A part is listed when it is still needed or is wanted optionally. */
  predicate Listed(p: PartCount)
  {
    p.quantity > 0 || p.optional > 0
  }

  /**
   * `_create_bom`: fold every step's tools into the tool counts and its
   * parts and results into the part counts; report every tool, with a
   * quantity of at least 0, and the parts that are listed.
   */
  method CreateBom(steps: seq<StepUses>) returns (tools: map<string, int>, parts: map<string, PartCount>)
    ensures tools.Keys == UseIds(ToolUses(steps))
    ensures forall id :: id in tools ==>
      var q := Tally(ToolRule, 0, ToolUses(steps), id); tools[id] == if q > 0 then q else 0
    ensures forall id :: id in parts <==> id in UseIds(PartUses(steps)) && Listed(Tally(PartRule, PartCount(0, 0), PartUses(steps), id))
    ensures forall id :: id in parts ==> parts[id] == Tally(PartRule, PartCount(0, 0), PartUses(steps), id)
  {
    var toolAcc: map<string, int> := map[];
    var partAcc: map<string, PartCount> := map[];
    var i := 0;
    while i < |steps|
      invariant 0 <= i <= |steps|
      invariant Tallied(ToolRule, 0, toolAcc, ToolUses(steps[..i]))
      invariant Tallied(PartRule, PartCount(0, 0), partAcc, PartUses(steps[..i]))
    {
      assert steps[..i + 1][..i] == steps[..i];
      toolAcc := TallyInto(ToolRule, 0, toolAcc, ToolUses(steps[..i]), steps[i].tools);
      partAcc := TallyInto(PartRule, PartCount(0, 0), partAcc, PartUses(steps[..i]), steps[i].parts + steps[i].results);
      i := i + 1;
    }
    assert steps[..i] == steps;
    tools := ToolQuantities(toolAcc);
    parts := ListedParts(partAcc);
  }

  /** `args["quantity"] = max(0, args["quantity"] - args.pop("created"))`, where `created` stayed 0. */
  method ToolQuantities(acc: map<string, int>) returns (tools: map<string, int>)
    ensures tools.Keys == acc.Keys
    ensures forall id :: id in tools ==> tools[id] == if acc[id] > 0 then acc[id] else 0
  {
    var keys := SortedKeys(acc.Keys);
    tools := map[];
    var i := 0;
    while i < |keys|
      invariant 0 <= i <= |keys|
      invariant tools.Keys == set j | 0 <= j < i :: keys[j]
      invariant forall id :: id in tools ==> id in acc && tools[id] == if acc[id] > 0 then acc[id] else 0
    {
      var id := keys[i];
      var q := acc[id];
      tools := tools[id := if 0 > q then 0 else q];
      i := i + 1;
    }
    assert forall id :: id in acc.Keys ==> id in keys;
  }

  /** `if args["quantity"] > 0 or args["optional"] > 0: self.parts[o_id] = ...`. */
  method ListedParts(acc: map<string, PartCount>) returns (parts: map<string, PartCount>)
    ensures forall id :: id in parts <==> id in acc && Listed(acc[id])
    ensures forall id :: id in parts ==> parts[id] == acc[id]
  {
    var keys := SortedKeys(acc.Keys);
    parts := map[];
    var i := 0;
    while i < |keys|
      invariant 0 <= i <= |keys|
      invariant forall id :: id in parts <==> id in keys[..i] && Listed(acc[id])
      invariant forall id :: id in parts ==> parts[id] == acc[id]
    {
      if acc[keys[i]].quantity > 0 || acc[keys[i]].optional > 0 {
        parts := parts[keys[i] := acc[keys[i]]];
      }
      assert keys[..i + 1] == keys[..i] + [keys[i]];
      i := i + 1;
    }
    assert keys[..i] == keys;
  }

  // ----- closed forms -----

  /** The kinds of use a part count distinguishes. */
  predicate IsCreated(u: Use) { u.created }
  predicate IsOptional(u: Use) { !u.created && u.optional }
  predicate IsRequired(u: Use) { !u.created && !u.optional }

  /** The total quantity of the uses of `id` that satisfy `p`. */
  function SumOf(uses: seq<Use>, id: string, p: Use -> bool): int
  {
    if uses == [] then 0
    else (if uses[0].objId == id && p(uses[0]) then uses[0].quantity else 0) + SumOf(uses[1..], id, p)
  }

  lemma {:induction false} SumOfAppend(uses: seq<Use>, u: Use, id: string, p: Use -> bool)
    ensures SumOf(uses + [u], id, p) == SumOf(uses, id, p) + (if u.objId == id && p(u) then u.quantity else 0)
  {
    if uses != [] {
      assert (uses + [u])[1..] == uses[1..] + [u];
      SumOfAppend(uses[1..], u, id, p);
    }
  }

  /**
   * A part's counts are sums: `optional` is the total of its optional uses,
   * and `quantity` is the total of its other uses minus what the steps created.
   */
  lemma {:induction false} PartTallyIsNetSum(uses: seq<Use>, id: string)
    ensures Tally(PartRule, PartCount(0, 0), uses, id) ==
      PartCount(SumOf(uses, id, IsOptional), SumOf(uses, id, IsRequired) - SumOf(uses, id, IsCreated))
  {
    if uses != [] {
      var front := uses[..|uses| - 1];
      var u := uses[|uses| - 1];
      assert uses == front + [u];
      PartTallyIsNetSum(front, id);
      SumOfAppend(front, u, id, IsOptional);
      SumOfAppend(front, u, id, IsRequired);
      SumOfAppend(front, u, id, IsCreated);
    }
  }

  /** A part the steps create at least as often as they consume it, and never use optionally, is not listed. */
  lemma SelfProducedPartOmitted(uses: seq<Use>, id: string)
    requires SumOf(uses, id, IsRequired) <= SumOf(uses, id, IsCreated)
    requires SumOf(uses, id, IsOptional) <= 0
    ensures !Listed(Tally(PartRule, PartCount(0, 0), uses, id))
  {
    PartTallyIsNetSum(uses, id);
  }

  /**
   * Without created uses a tool's count is its peak: at least 0 and at least
   * every non-optional quantity, and either 0 or one of those quantities.
   */
  lemma {:induction false} ToolTallyIsPeak(uses: seq<Use>, id: string)
    requires forall u :: u in uses && u.objId == id ==> !u.created
    ensures Tally(ToolRule, 0, uses, id) >= 0
    ensures forall u :: u in uses && u.objId == id && !u.optional ==> Tally(ToolRule, 0, uses, id) >= u.quantity
    ensures Tally(ToolRule, 0, uses, id) == 0 ||
      exists u :: u in uses && u.objId == id && !u.optional && u.quantity == Tally(ToolRule, 0, uses, id)
  {
    if uses != [] {
      var front := uses[..|uses| - 1];
      var u := uses[|uses| - 1];
      assert uses == front + [u];
      ToolTallyIsPeak(front, id);
      var t := Tally(ToolRule, 0, front, id);
      if t != 0 {
        var w :| w in front && w.objId == id && !w.optional && w.quantity == t;
        assert w in uses;
      }
    }
  }

  // ----- the older `Schedule.__init__` bill of materials -----

  /** An old tool use: every non-optional use raises the count to its quantity. */
  function OldToolRule(q: int, u: Use): int
  {
    if !u.optional then (if u.quantity > q then u.quantity else q) else q
  }

  /** An old part use: optional adds to `optional`, anything else to `quantity`. */
  function OldPartRule(p: PartCount, u: Use): PartCount
  {
    if u.optional then p.(optional := p.optional + u.quantity) else p.(quantity := p.quantity + u.quantity)
  }

  /** The parts of `steps` alone: the older code does not look at results. */
  function OldPartUses(steps: seq<StepUses>): seq<Use>
  {
    if steps == [] then [] else OldPartUses(steps[..|steps| - 1]) + steps[|steps| - 1].parts
  }

  /** The older bill of materials: every tool and every part seen is reported. */
  method OldCreateBom(steps: seq<StepUses>) returns (tools: map<string, int>, parts: map<string, PartCount>)
    ensures Tallied(OldToolRule, 0, tools, ToolUses(steps))
    ensures Tallied(OldPartRule, PartCount(0, 0), parts, OldPartUses(steps))
  {
    tools := map[];
    parts := map[];
    var i := 0;
    while i < |steps|
      invariant 0 <= i <= |steps|
      invariant Tallied(OldToolRule, 0, tools, ToolUses(steps[..i]))
      invariant Tallied(OldPartRule, PartCount(0, 0), parts, OldPartUses(steps[..i]))
    {
      assert steps[..i + 1][..i] == steps[..i];
      tools := TallyInto(OldToolRule, 0, tools, ToolUses(steps[..i]), steps[i].tools);
      parts := TallyInto(OldPartRule, PartCount(0, 0), parts, OldPartUses(steps[..i]), steps[i].parts);
      i := i + 1;
    }
    assert steps[..i] == steps;
  }

  /**
   * An old tool count is the peak: at least 0, at least every non-optional
   * quantity, and either 0 or one of them; optional uses never count.
   */
  lemma {:induction false} OldToolTallyIsPeak(uses: seq<Use>, id: string)
    ensures Tally(OldToolRule, 0, uses, id) >= 0
    ensures forall u :: u in uses && u.objId == id && !u.optional ==> Tally(OldToolRule, 0, uses, id) >= u.quantity
    ensures Tally(OldToolRule, 0, uses, id) == 0 ||
      exists u :: u in uses && u.objId == id && !u.optional && u.quantity == Tally(OldToolRule, 0, uses, id)
  {
    if uses != [] {
      var front := uses[..|uses| - 1];
      var u := uses[|uses| - 1];
      assert uses == front + [u];
      OldToolTallyIsPeak(front, id);
      var t := Tally(OldToolRule, 0, front, id);
      if t != 0 {
        var w :| w in front && w.objId == id && !w.optional && w.quantity == t;
        assert w in uses;
      }
    }
  }

  predicate IsOptionalOld(u: Use) { u.optional }
  predicate IsRequiredOld(u: Use) { !u.optional }

  /** An old part's counts are the totals of its optional and of its other uses. */
  lemma {:induction false} OldPartTallyIsSum(uses: seq<Use>, id: string)
    ensures Tally(OldPartRule, PartCount(0, 0), uses, id) ==
      PartCount(SumOf(uses, id, IsOptionalOld), SumOf(uses, id, IsRequiredOld))
  {
    if uses != [] {
      var front := uses[..|uses| - 1];
      var u := uses[|uses| - 1];
      assert uses == front + [u];
      OldPartTallyIsSum(front, id);
      SumOfAppend(front, u, id, IsOptionalOld);
      SumOfAppend(front, u, id, IsRequiredOld);
    }
  }
}
