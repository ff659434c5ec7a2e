/**
 * The newer `Schedule`: graph steps numbered in the order given, optionally
 * timed from a map of start times, with the reverse lookup from step id to
 * step number, the bill of materials, and `schedule_greedy`, which orders
 * the steps of a graph (or the ones some targets need).
 */
module Scheduling {
  import opened Wrappers
  import opened Values
  import opened DataStructs
  import opened Conversions
  import opened Entities
  import opened Deps
  import opened Greedy
  import opened Bom
  import opened StepGraph

  /** A scheduled step: the graph step's fields, its position, and its times in seconds when timed. */
  datatype ScheduleStep = ScheduleStep(
    data: DataStruct,
    stepId: string,
    stepIdx: nat,
    stepNr: nat,
    start: Option<nat>,
    stop: Option<nat>)

  /**
   * `t_start + step.duration`: a graph step's `duration` as a time span of
   * whole seconds; adding anything else to a start time is a TypeError.
   */
  function SpanOf(gs: GraphStep): Result<nat>
  {
    var v :- GetAttr(gs.data, "duration");
    if v.VInt? && v.i >= 0 then Success(v.i) else Failure(TypeError)
  }

  /**
   * `cand.duration.total_seconds()`: only a time span (whole seconds here)
   * has `total_seconds`; any other value is an AttributeError.
   */
  function DurationOf(gs: GraphStep): Result<nat>
  {
    var v :- GetAttr(gs.data, "duration");
    if v.VInt? && v.i >= 0 then Success(v.i) else Failure(AttributeError("total_seconds"))
  }

  /**
   * The scheduled step at position `i`: numbered from 1, and, when start
   * times are given, started at the step's start time and stopped one
   * duration later.  A step missing from the start times is a KeyError.
   */
  function ScheduleStepOf(start: Option<map<string, nat>>, p: Numbered<GraphStep>): Result<ScheduleStep>
  {
    var i, gs := p.idx, p.step;
    var id :- StrAttr(gs.data, "step_id");
    match start
    case None => Success(ScheduleStep(gs.data, id, i, i + 1, None, None))
    case Some(m) =>
      if id !in m then Failure(KeyError(id))
      else
        var d :- SpanOf(gs);
        Success(ScheduleStep(gs.data, id, i, i + 1, Some(m[id]), Some(m[id] + d)))
  }

  function ScheduleStepConverter(start: Option<map<string, nat>>): Numbered<GraphStep> -> Result<ScheduleStep>
  {
    p => ScheduleStepOf(start, p)
  }

  /**
   * The scheduled steps keep the input order: the step at position `i` has
   * index `i`, number `i + 1`, the graph step's id and fields; untimed steps
   * carry no times, and a timed step starts at its start time and stops
   * exactly one duration later.
   */
  lemma ScheduleStepsNumbered(steps: seq<GraphStep>, start: Option<map<string, nat>>)
    requires ConvertAll(ScheduleStepConverter(start), Indexed(steps), |steps|).Success?
    ensures var ss := ConvertAll(ScheduleStepConverter(start), Indexed(steps), |steps|).value;
      && |ss| == |steps|
      && forall i :: 0 <= i < |ss| ==>
        && ss[i].stepIdx == i && ss[i].stepNr == i + 1
        && ss[i].data == steps[i].data && StrAttr(steps[i].data, "step_id") == Success(ss[i].stepId)
    ensures var ss := ConvertAll(ScheduleStepConverter(start), Indexed(steps), |steps|).value;
      forall i :: 0 <= i < |ss| ==>
        && (start.None? ==> ss[i].start.None? && ss[i].stop.None?)
        && (start.Some? ==>
              && ss[i].stepId in start.value && SpanOf(steps[i]).Success?
              && ss[i].start == Some(start.value[ss[i].stepId])
              && ss[i].stop == Some(start.value[ss[i].stepId] + SpanOf(steps[i]).value))
  {
    ConvertAllElements(ScheduleStepConverter(start), Indexed(steps), |steps|);
  }

  /**
   * Scheduling succeeds exactly when every step has a `step_id` and, when
   * timed, a start time and a duration.
   */
  lemma ScheduleStepsSucceed(steps: seq<GraphStep>, start: Option<map<string, nat>>)
    ensures ConvertAll(ScheduleStepConverter(start), Indexed(steps), |steps|).Success? <==>
      forall i :: 0 <= i < |steps| ==>
        && StrAttr(steps[i].data, "step_id").Success?
        && (start.Some? ==> StrAttr(steps[i].data, "step_id").value in start.value && SpanOf(steps[i]).Success?)
  {
    ConvertAllSucceeds(ScheduleStepConverter(start), Indexed(steps), |steps|);
    forall i | 0 <= i < |steps| ensures ScheduleStepConverter(start)(Indexed(steps)[i]) == ScheduleStepOf(start, Numbered(i, steps[i])) {
    }
  }

  /** `id_to_nr`: each id maps to the number of its last step. */
  method IdToNr(steps: seq<ScheduleStep>) returns (m: map<string, nat>)
    ensures forall id :: id in m <==> exists i :: 0 <= i < |steps| && steps[i].stepId == id
    ensures forall i :: 0 <= i < |steps| && (forall j :: i < j < |steps| ==> steps[j].stepId != steps[i].stepId) ==>
      steps[i].stepId in m && m[steps[i].stepId] == steps[i].stepNr
  {
    m := map[];
    var k := 0;
    while k < |steps|
      invariant 0 <= k <= |steps|
      invariant forall id :: id in m <==> exists i :: 0 <= i < k && steps[i].stepId == id
      invariant forall i :: 0 <= i < k && (forall j :: i < j < k ==> steps[j].stepId != steps[i].stepId) ==>
        steps[i].stepId in m && m[steps[i].stepId] == steps[i].stepNr
    {
      var m' := m[steps[k].stepId := steps[k].stepNr];
      forall id ensures id in m' <==> exists i :: 0 <= i < k + 1 && steps[i].stepId == id {
        if id == steps[k].stepId {
          assert steps[k].stepId == id;
        }
      }
      forall i | 0 <= i < k + 1 && (forall j :: i < j < k + 1 ==> steps[j].stepId != steps[i].stepId)
        ensures steps[i].stepId in m' && m'[steps[i].stepId] == steps[i].stepNr
      {
        if i < k {
          assert steps[k].stepId != steps[i].stepId;
        }
      }
      m, k := m', k + 1;
    }
  }

  /**
   * The bill of materials of `uses`: every tool with its largest quantity
   * (at least zero), every part whose tally is listed.
   */
  ghost predicate BillOf(uses: seq<StepUses>, tools: map<string, int>, parts: map<string, PartCount>)
  {
    && tools.Keys == UseIds(ToolUses(uses))
    && (forall id :: id in tools ==>
         var q := Tally(ToolRule, 0, ToolUses(uses), id); tools[id] == if q > 0 then q else 0)
    && (forall id :: id in parts <==> id in UseIds(PartUses(uses)) && Listed(Tally(PartRule, PartCount(0, 0), PartUses(uses), id)))
    && (forall id :: id in parts ==> parts[id] == Tally(PartRule, PartCount(0, 0), PartUses(uses), id))
  }

  // ----- the uses of the scheduled steps -----

  /**
   * `step.<nsp>.values()`: the entries of a namespace of a scheduled step,
   * in alias order; a value other than a dict has no `values`.
   */
  function NamespaceEntries(d: DataStruct, nsp: string): Result<seq<Value>>
  {
    var v :- GetAttr(d, nsp);
    if !v.VDict? then Failure(AttributeError("values"))
    else Success(ValuesAt(v.fields, SortedKeys(v.fields.Keys)))
  }

  /**
   * One namespace entry as a use, read as an `ObjectReference` built from
   * the entry: its `obj_id`, `quantity`, `created` and `optional`.
   */
  function EntryUse(schemas: Schemas, v: Value): Result<Use>
  {
    if !v.VDict? then Failure(TypeError)
    else
      var ref :- ObjectRefOf(schemas, v.fields);
      var id :- StrAttr(ref.data, "obj_id");
      var created :- GetAttr(ref.data, "created");
      var optional :- GetAttr(ref.data, "optional");
      var q :- GetAttr(ref.data, "quantity");
      if !q.VInt? then Failure(TypeError)
      else Success(Use(id, q.i, Truthy(created), Truthy(optional)))
  }

  function EntryUseConverter(schemas: Schemas): Value -> Result<Use>
  {
    v => EntryUse(schemas, v)
  }

  /**
   * What `_create_bom` visits of one scheduled step: its tools, then its
   * parts and results, both fetched before the first part is read.
   */
  function StepUsesOf(schemas: Schemas, ss: ScheduleStep): Result<StepUses>
  {
    var tv :- NamespaceEntries(ss.data, "tools");
    var tools :- ConvertAll(EntryUseConverter(schemas), tv, |tv|);
    var pv :- NamespaceEntries(ss.data, "parts");
    var rv :- NamespaceEntries(ss.data, "results");
    var prs :- ConvertAll(EntryUseConverter(schemas), pv + rv, |pv + rv|);
    Success(StepUses(tools, prs[..|pv|], prs[|pv|..]))
  }

  function StepUsesConverter(schemas: Schemas): ScheduleStep -> Result<StepUses>
  {
    ss => StepUsesOf(schemas, ss)
  }

  /** Each item of a successful conversion of `items` is the `EntryUse` of its item. */
  lemma EntryUsesAt(schemas: Schemas, items: seq<Value>)
    requires ConvertAll(EntryUseConverter(schemas), items, |items|).Success?
    ensures var us := ConvertAll(EntryUseConverter(schemas), items, |items|).value;
      forall k :: 0 <= k < |items| ==> EntryUse(schemas, items[k]) == Success(us[k])
  {
    var f := EntryUseConverter(schemas);
    ConvertAllElements(f, items, |items|);
    forall k | 0 <= k < |items| ensures f(items[k]) == EntryUse(schemas, items[k]) {
    }
  }

  /**
   * A step's uses are its entries read as object references, in alias
   * order, and its parts and results together are the parts the count
   * folds.
   */
  lemma StepUsesShape(schemas: Schemas, ss: ScheduleStep)
    requires StepUsesOf(schemas, ss).Success?
    ensures var u := StepUsesOf(schemas, ss).value;
      var tv := NamespaceEntries(ss.data, "tools").value;
      && |u.tools| == |tv|
      && forall k :: 0 <= k < |tv| ==> EntryUse(schemas, tv[k]) == Success(u.tools[k])
    ensures var u := StepUsesOf(schemas, ss).value;
      var prv := NamespaceEntries(ss.data, "parts").value + NamespaceEntries(ss.data, "results").value;
      && |u.parts + u.results| == |prv|
      && forall k :: 0 <= k < |prv| ==> EntryUse(schemas, prv[k]) == Success((u.parts + u.results)[k])
  {
    var f := EntryUseConverter(schemas);
    var tv := NamespaceEntries(ss.data, "tools").value;
    var pv := NamespaceEntries(ss.data, "parts").value;
    var prv := pv + NamespaceEntries(ss.data, "results").value;
    var u := StepUsesOf(schemas, ss).value;
    assert ConvertAll(f, tv, |tv|) == Success(u.tools) && ConvertAll(f, prv, |prv|) == Success(u.parts + u.results) by {
      var prs := ConvertAll(f, prv, |prv|).value;
      assert u == StepUses(ConvertAll(f, tv, |tv|).value, prs[..|pv|], prs[|pv|..]);
      TakeDrop(prs, |pv|);
    }
    EntryUsesAt(schemas, tv);
    EntryUsesAt(schemas, prv);
  }

  /**
   * `tool.obj_id` as written: the entries of a graph step's namespaces are
   * the plain dicts it was given, and a dict has no attribute `obj_id`.
   */
  function EntryUseAsWritten(v: Value): Result<Use>
  {
    Failure(AttributeError("obj_id"))
  }

  /**
   * As written, the bill of materials of any step with a tool raises
   * AttributeError, whereas an entry that builds an object reference with
   * readable attributes gives its use once the entry is converted.
   */
  lemma BomAsWrittenFailsOnAnyTool(schemas: Schemas, ss: ScheduleStep, v: Value)
    requires NamespaceEntries(ss.data, "tools").Success? && |NamespaceEntries(ss.data, "tools").value| > 0
    ensures var tv := NamespaceEntries(ss.data, "tools").value;
      ConvertAll(EntryUseAsWritten, tv, |tv|) == Failure(AttributeError("obj_id"))
    ensures v.VDict? && ObjectRefOf(schemas, v.fields).Success? ==>
      var ref := ObjectRefOf(schemas, v.fields).value;
      StrAttr(ref.data, "obj_id").Success? && GetAttr(ref.data, "created").Success? &&
      GetAttr(ref.data, "optional").Success? && GetAttr(ref.data, "quantity").Success? &&
      GetAttr(ref.data, "quantity").value.VInt? ==>
        EntryUse(schemas, v) == Success(Use(StrAttr(ref.data, "obj_id").value, GetAttr(ref.data, "quantity").value.i,
                                            Truthy(GetAttr(ref.data, "created").value), Truthy(GetAttr(ref.data, "optional").value)))
  {
    var tv := NamespaceEntries(ss.data, "tools").value;
    ConvertAllFirstError(EntryUseAsWritten, tv, |tv|, 0);
  }

  /** A schedule: its steps, the reverse lookup, and the bill of materials. */
  datatype Schedule = Schedule(
    steps: seq<ScheduleStep>,
    idToNr: map<string, nat>,
    tools: map<string, int>,
    parts: map<string, PartCount>)

  /**
   * The reverse lookup and the bill of materials of already scheduled
   * steps: the uses of every step are read in schedule order, the first
   * failure escaping, and folded into the counts.
   */
  method AssembleSchedule(schemas: Schemas, ss: seq<ScheduleStep>) returns (r: Result<Schedule>)
    ensures r.Failure? <==> ConvertAll(StepUsesConverter(schemas), ss, |ss|).Failure?
    ensures r.Failure? ==> r.error == ConvertAll(StepUsesConverter(schemas), ss, |ss|).error
    ensures r.Success? ==> r.value.steps == ss
    ensures r.Success? ==> r.value.idToNr.Keys == set i | 0 <= i < |ss| :: ss[i].stepId
    ensures r.Success? ==> forall i :: 0 <= i < |ss| && (forall j :: i < j < |ss| ==> ss[j].stepId != ss[i].stepId) ==>
      r.value.idToNr[ss[i].stepId] == ss[i].stepNr
    ensures r.Success? ==> BillOf(ConvertAll(StepUsesConverter(schemas), ss, |ss|).value, r.value.tools, r.value.parts)
  {
    var idToNr := IdToNr(ss);
    var uses := ConvertEach(StepUsesConverter(schemas), ss);
    if uses.Failure? {
      return Failure(uses.error);
    }
    var tools, parts := CreateBom(uses.value);
    return Success(Schedule(ss, idToNr, tools, parts));
  }

  /**
   * `Schedule(steps, store, start)` with the keyword clash of the source
   * resolved: number and time the steps, build the reverse lookup, and
   * assemble the bill of materials from the uses of the scheduled steps.
   * With distinct step ids every id maps to its position plus one.
   */
  method NewSchedule(schemas: Schemas, steps: seq<GraphStep>, start: Option<map<string, nat>>) returns (r: Result<Schedule>)
    ensures ConvertAll(ScheduleStepConverter(start), Indexed(steps), |steps|).Failure? ==>
      r == Failure(ConvertAll(ScheduleStepConverter(start), Indexed(steps), |steps|).error)
    ensures ConvertAll(ScheduleStepConverter(start), Indexed(steps), |steps|).Success? ==>
      var ss := ConvertAll(ScheduleStepConverter(start), Indexed(steps), |steps|).value;
      && (r.Success? <==> ConvertAll(StepUsesConverter(schemas), ss, |ss|).Success?)
      && (r.Failure? ==> r.error == ConvertAll(StepUsesConverter(schemas), ss, |ss|).error)
    ensures r.Success? ==> ConvertAll(ScheduleStepConverter(start), Indexed(steps), |steps|) == Success(r.value.steps)
    ensures r.Success? ==> r.value.idToNr.Keys == set i | 0 <= i < |r.value.steps| :: r.value.steps[i].stepId
    ensures r.Success? && (forall i, j :: 0 <= i < j < |steps| ==> r.value.steps[i].stepId != r.value.steps[j].stepId) ==>
      forall i :: 0 <= i < |steps| ==> r.value.idToNr[r.value.steps[i].stepId] == i + 1
    ensures r.Success? ==> BillOf(ConvertAll(StepUsesConverter(schemas), r.value.steps, |r.value.steps|).value, r.value.tools, r.value.parts)
  {
    var ss := ConvertEach(ScheduleStepConverter(start), Indexed(steps));
    if ss.Failure? {
      return Failure(ss.error);
    }
    ScheduleStepsNumbered(steps, start);
    r := AssembleSchedule(schemas, ss.value);
  }

  // ----- the constructor as written -----

  /**
   * The step construction as written: the id is passed positionally to a
   * constructor that takes keyword arguments only, next to `as_dict()`,
   * which holds `step_id` again.  Whatever the step, the call raises
   * TypeError once the id (and, when timed, the start and the duration)
   * have been read.
   */
  function ScheduleStepAsWritten(start: Option<map<string, nat>>, p: Numbered<GraphStep>): Result<ScheduleStep>
  {
    var gs := p.step;
    var id :- StrAttr(gs.data, "step_id");
    match start
    case None => Failure(TypeError)
    case Some(m) =>
      if id !in m then Failure(KeyError(id))
      else
        var _ :- SpanOf(gs);
        Failure(TypeError)
  }

  function ScheduleStepAsWrittenConverter(start: Option<map<string, nat>>): Numbered<GraphStep> -> Result<ScheduleStep>
  {
    p => ScheduleStepAsWritten(start, p)
  }

  /** As written, no schedule of a non-empty step list can be built. */
  lemma ScheduleAsWrittenFails(steps: seq<GraphStep>, start: Option<map<string, nat>>)
    requires |steps| > 0
    ensures ConvertAll(ScheduleStepAsWrittenConverter(start), Indexed(steps), |steps|).Failure?
  {
    var f := ScheduleStepAsWrittenConverter(start);
    var items := Indexed(steps);
    assert ConvertAll(f, items, 0) == Success([]);
    assert f(items[0]).Failure?;
    assert ConvertAll(f, items, 1).Failure?;
    ConvertAllFailurePersists(f, items, 1, |steps|);
  }

  /** Whereas a step with an id schedules untimed once the clash is resolved. */
  lemma ScheduleStepResolvedSucceeds(gs: GraphStep, i: nat)
    requires StrAttr(gs.data, "step_id").Success?
    ensures ScheduleStepOf(None, Numbered(i, gs)).Success?
    ensures ScheduleStepAsWritten(None, Numbered(i, gs)) == Failure(TypeError)
  {
  }

  // ----- schedule_greedy -----

  /** `graph.timing`, an attribute of the graph's fields. */
  function Timing(g: Graph): Result<bool>
  {
    var v :- GetAttr(g.data, "timing");
    Success(Truthy(v))
  }

  /** The steps to schedule: all of them, or the targets and their ancestors. */
  function WorkingSet(g: Graph, targets: Option<seq<string>>, ghost rank: map<string, nat>): Result<set<string>>
    requires targets.Some? ==> Ranked(g.parents, rank)
  {
    match targets
    case None => Success(g.steps.Keys)
    case Some(ts) => TargetSteps(g.parents, ts, |ts|, rank)
  }

  /** The durations of the steps `w`, visited in sorted order. */
  function Durations(g: Graph, w: set<string>): Result<map<string, nat>>
    requires w <= g.steps.Keys
  {
    var keys := SortedKeys(w);
    ConvertEntries(DurationOf, g.steps, keys, |keys|)
  }

  method NewDurations(g: Graph, w: set<string>) returns (r: Result<map<string, nat>>)
    requires w <= g.steps.Keys
    ensures r == Durations(g, w)
  {
    var keys := SortedKeys(w);
    var m: map<string, nat> := map[];
    var i := 0;
    while i < |keys|
      invariant 0 <= i <= |keys|
      invariant ConvertEntries(DurationOf, g.steps, keys, i) == Success(m)
    {
      var d := DurationOf(g.steps[keys[i]]);
      if d.Failure? {
        ConvertEntriesFails(DurationOf, g.steps, keys, i, m);
        return Failure(d.error);
      }
      ConvertEntriesStep(DurationOf, g.steps, keys, i, m, d.value);
      m := m[keys[i] := d.value];
      i := i + 1;
    }
    return Success(m);
  }

  lemma DurationsCover(g: Graph, w: set<string>)
    requires w <= g.steps.Keys
    requires Durations(g, w).Success?
    ensures Durations(g, w).value.Keys == w
  {
    var keys := SortedKeys(w);
    assert keys[..|keys|] == keys;
  }

  /** What a greedy order of the working set `w` promises. */
  ghost predicate GreedySchedule(g: Graph, w: set<string>, dur: map<string, nat>, res: (seq<GraphStep>, seq<string>, map<string, nat>))
    requires w <= g.parents.Keys && w <= dur.Keys
  {
    var (steps, ids, start) := res;
    && TopoOrder(w, g.parents, ids)
    && GreedyChoice(w, g.parents, dur, ids)
    && Timed(w, dur, ids, start)
    && |steps| == |ids| && forall k :: 0 <= k < |ids| ==> ids[k] in g.steps && steps[k] == g.steps[ids[k]]
  }

  /**
   * The scheduling loop over a working set: read the durations, then order
   * greedily. With the durations read it fails exactly when no topological
   * order exists (a cycle leaves no candidate), and never when the working
   * set is closed and ranked, hence acyclic.
   */
  method OrderWorkingSet(g: Graph, w: set<string>, ghost rank: map<string, nat>)
    returns (r: Result<(seq<GraphStep>, seq<string>, map<string, nat>)>)
    requires g.parents.Keys == g.steps.Keys && w <= g.steps.Keys
    ensures Durations(g, w).Failure? ==> r == Failure(Durations(g, w).error)
    ensures r.Success? ==> (Durations(g, w).Success? && Durations(g, w).value.Keys == w
      && GreedySchedule(g, w, Durations(g, w).value, r.value))
    ensures Durations(g, w).Success? ==> (r.Success? <==> Schedulable(w, g.parents))
    ensures Durations(g, w).Success? && r.Failure? ==> r.error == TypeError
    ensures Durations(g, w).Success? && Ranked(g.parents, rank) && Deps.Closed(g.parents, w) ==> r.Success?
  {
    var dur := NewDurations(g, w);
    if dur.Failure? {
      return Failure(dur.error);
    }
    DurationsCover(g, w);
    forall done | Ranked(g.parents, rank) && Deps.Closed(g.parents, w) ensures !Stuck(w, g.parents, done) {
      RankedNeverStuck(w, g.parents, rank, done);
    }
    var order := GreedyOrder(w, g.parents, dur.value);
    if order.Failure? {
      return Failure(order.error);
    }
    var (ids, start) := order.value;
    var steps := seq(|ids|, k requires 0 <= k < |ids| => g.steps[ids[k]]);
    return Success((steps, ids, start));
  }

  /**
   * `schedule_greedy(graph, targets)`. Without timing it raises ValueError
   * before anything else. Otherwise the working set (every step, or the
   * targets and their ancestors) is ordered greedily: the result lists every
   * step of it once, each after its requirements, each pick of least
   * duration among the ready steps, started when the previous one stopped.
   */
  method ScheduleGreedy(g: Graph, targets: Option<seq<string>>, ghost rank: map<string, nat>)
    returns (r: Result<(seq<GraphStep>, seq<string>, map<string, nat>)>)
    requires targets.Some? ==> Ranked(g.parents, rank)
    requires g.parents.Keys == g.steps.Keys
    ensures Timing(g).Failure? ==> r == Failure(Timing(g).error)
    ensures Timing(g) == Success(false) ==> r == Failure(ValueError)
    ensures Timing(g) == Success(true) && WorkingSet(g, targets, rank).Failure? ==> r == Failure(WorkingSet(g, targets, rank).error)
    ensures Timing(g) == Success(true) && targets.Some? && WorkingSet(g, targets, rank).Success? ==>
      Deps.Closed(g.parents, WorkingSet(g, targets, rank).value)
    ensures Timing(g) == Success(true) && WorkingSet(g, targets, rank).Success? ==>
      var w := WorkingSet(g, targets, rank).value;
      && w <= g.steps.Keys
      && (Durations(g, w).Failure? ==> r == Failure(Durations(g, w).error))
      && (r.Success? ==> (Durations(g, w).Success? && Durations(g, w).value.Keys == w
            && GreedySchedule(g, w, Durations(g, w).value, r.value)))
      && (Durations(g, w).Success? ==> (r.Success? <==> Schedulable(w, g.parents)))
      && (Durations(g, w).Success? && Ranked(g.parents, rank) && Deps.Closed(g.parents, w) ==> r.Success?)
  {
    var timing := Timing(g);
    if timing.Failure? {
      return Failure(timing.error);
    }
    if !timing.value {
      return Failure(ValueError);
    }
    var w: set<string>;
    if targets.None? {
      w := g.steps.Keys;
    } else {
      var ws := CollectTargets(g.parents, targets.value, rank);
      if ws.Failure? {
        return Failure(ws.error);
      }
      TargetStepsClosed(g.parents, targets.value, |targets.value|, rank);
      w := ws.value;
    }
    r := OrderWorkingSet(g, w, rank);
  }

  // ----- schedule_greedy as written -----

  /**
   * The "find possible next steps" pass as written: each step of the
   * working set, visited in `steps` order, is identified by its `step_id`
   * and looked up in `parents` by it, although `parents` is keyed by alias.
   * Returns the ids of the ready steps.
   */
  function ReadyScanAsWritten(g: Graph, steps: seq<GraphStep>, scheduled: set<string>): Result<set<string>>
    decreases |steps|
  {
    if steps == [] then Success({})
    else
      var id :- StrAttr(steps[0].data, "step_id");
      if id in scheduled then ReadyScanAsWritten(g, steps[1..], scheduled)
      else if id !in g.parents then Failure(KeyError(id))
      else
        var rest :- ReadyScanAsWritten(g, steps[1..], scheduled);
        Success(if forall p :: p in g.parents[id] ==> p in scheduled then {id} + rest else rest)
  }

  /**
   * Where every step's `step_id` is its alias the scan as written finds
   * exactly the ready steps the model schedules by alias.
   */
  lemma {:induction false} ReadyScanAsWrittenAliased(g: Graph, aliases: seq<string>, scheduled: set<string>)
    requires forall k :: 0 <= k < |aliases| ==>
      aliases[k] in g.steps && aliases[k] in g.parents && StrAttr(g.steps[aliases[k]].data, "step_id") == Success(aliases[k])
    ensures var r := ReadyScanAsWritten(g, seq(|aliases|, k requires 0 <= k < |aliases| => g.steps[aliases[k]]), scheduled);
      && r.Success?
      && forall a :: a in r.value <==>
           a in aliases && a in g.parents && a !in scheduled && forall p :: p in g.parents[a] ==> p in scheduled
    decreases |aliases|
  {
    var steps := seq(|aliases|, k requires 0 <= k < |aliases| => g.steps[aliases[k]]);
    if aliases != [] {
      var tail := aliases[1..];
      var a0 := aliases[0];
      ReadyScanAsWrittenAliased(g, tail, scheduled);
      assert steps[1..] == seq(|tail|, k requires 0 <= k < |tail| => g.steps[tail[k]]);
      assert StrAttr(steps[0].data, "step_id") == Success(a0);
      assert forall a :: a in aliases <==> a == a0 || a in tail;
    }
  }

  /**
   * As written, a graph whose step "a" refers to the stored step "s1" is
   * not scheduled: the scan looks up `parents["s1"]` and raises KeyError,
   * whereas by alias the one-step working set has an order.
   */
  lemma GreedyAsWrittenCounterexample()
    ensures var gs := GraphStep(DataStruct(map["step_id" := VStr("s1"), "requires" := VList([])], map[]));
      var g := Graph(DataStruct(map["timing" := VBool(true)], map[]), map["a" := gs], map["a" := []], map["a" := []]);
      && ReadyScanAsWritten(g, [gs], {}) == Failure(KeyError("s1"))
      && TopoOrder({"a"}, g.parents, ["a"])
  {
    var gs := GraphStep(DataStruct(map["step_id" := VStr("s1"), "requires" := VList([])], map[]));
    assert StrAttr(gs.data, "step_id") == Success("s1");
    assert "s1" != "a";
    assert ["a"][..0] == [];
  }
}
