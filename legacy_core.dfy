/**
 * The core of the older package (`manuallabour/core/__init__.py`): object
 * and BOM references with their defaults, `GraphStep` and its `as_dict`,
 * the incrementally built `Graph` with its `timing` flag, the `Schedule`
 * with its timing and bill of materials, and `schedule_greedy`.
 * Identifier checks are in `Ids`, `all_ancestors` in `Deps`, the greedy
 * loop in `Greedy` and the BOM fold in `Bom`.
 */
module LegacyCore {
  import opened Wrappers
  import opened Values
  import opened Ids
  import opened Conversions
  import opened Deps
  import opened Greedy
  import opened Bom

  /** The checks `validate(kwargs, name)` makes against the package's JSON schemas. */
  datatype Schemas = Schemas(objRef: Kwargs -> bool, bomRef: Kwargs -> bool, step: Kwargs -> bool)

  /** `kwargs.get(name, default)`. */
  function Get(kw: Kwargs, name: string, default: Value): Value
  {
    if name in kw then kw[name] else default
  }

  // ----- references -----

  /** An `ObjectReference`: the object's id, whether it may be left out, and how many are used. */
  datatype ObjectRef = ObjectRef(objId: string, optional: bool, quantity: int)

  /** A `ResourceReference`, by the id it refers to. */
  datatype ResourceRef = ResourceRef(resId: string)

  /**
   * `ObjectReference(obj_id, **kwargs)`: ValueError for a bad id (checked
   * before validation), ValidationError when the schema rejects the
   * arguments; `optional` defaults to False and `quantity` to 1.
   */
  function NewObjectRef(schemas: Schemas, objId: string, kw: Kwargs): (r: Result<ObjectRef>)
    ensures r.Success? <==> ValidObjId(objId) && schemas.objRef(kw) && AsInt(Get(kw, "quantity", VInt(1))).Some?
    ensures !ValidObjId(objId) ==> r == Failure(ValueError)
    ensures ValidObjId(objId) && !schemas.objRef(kw) ==> r == Failure(ValidationError)
    ensures r.Success? ==> r.value.objId == objId
    ensures r.Success? && "optional" !in kw ==> !r.value.optional
    ensures r.Success? && "quantity" !in kw ==> r.value.quantity == 1
    ensures r.Success? && "quantity" in kw && kw["quantity"].VInt? ==> r.value.quantity == kw["quantity"].i
  {
    var id :- CheckObjId(objId);
    if !schemas.objRef(kw) then Failure(ValidationError)
    else
      var q := AsInt(Get(kw, "quantity", VInt(1)));
      if q.None? then Failure(TypeError)
      else Success(ObjectRef(id, Truthy(Get(kw, "optional", VBool(false))), q.value))
  }

  /** A `BOMReference`: an entry of the bill of materials. */
  datatype BomRef = BomRef(objId: string, optional: int, quantity: int)

  /**
   * `BOMReference(obj_id, **kwargs)`: the same checks as an object
   * reference, but `optional` is a count defaulting to 0.
   */
  function NewBomRef(schemas: Schemas, objId: string, kw: Kwargs): (r: Result<BomRef>)
    ensures r.Success? <==> (ValidObjId(objId) && schemas.bomRef(kw)
      && AsInt(Get(kw, "optional", VInt(0))).Some? && AsInt(Get(kw, "quantity", VInt(1))).Some?)
    ensures !ValidObjId(objId) ==> r == Failure(ValueError)
    ensures ValidObjId(objId) && !schemas.bomRef(kw) ==> r == Failure(ValidationError)
    ensures r.Success? ==> r.value.objId == objId
    ensures r.Success? && "optional" !in kw ==> r.value.optional == 0
    ensures r.Success? && "quantity" !in kw ==> r.value.quantity == 1
    ensures r.Success? && "optional" in kw && kw["optional"].VInt? ==> r.value.optional == kw["optional"].i
    ensures r.Success? && "quantity" in kw && kw["quantity"].VInt? ==> r.value.quantity == kw["quantity"].i
  {
    var id :- CheckObjId(objId);
    if !schemas.bomRef(kw) then Failure(ValidationError)
    else
      var o := AsInt(Get(kw, "optional", VInt(0)));
      var q := AsInt(Get(kw, "quantity", VInt(1)));
      if o.None? || q.None? then Failure(TypeError)
      else Success(BomRef(id, o.value, q.value))
  }

  // ----- GraphStep -----

  /**
   * The keyword arguments of `GraphStep(step_id, **kwargs)`: the namespaces
   * and timings it pops (absent ones as None), and the rest it validates.
   */
  datatype StepArgs = StepArgs(
    parts: Option<map<string, ObjectRef>>,
    tools: Option<map<string, ObjectRef>>,
    files: Option<map<string, ResourceRef>>,
    images: Option<map<string, ResourceRef>>,
    duration: Option<nat>,
    waiting: Option<nat>,
    rest: Kwargs)

  /** A step of the old graph; durations and waiting times are in seconds, a missing `attention` is VNull. */
  datatype GraphStep = GraphStep(
    stepId: string,
    parts: map<string, ObjectRef>,
    tools: map<string, ObjectRef>,
    files: map<string, ResourceRef>,
    images: map<string, ResourceRef>,
    duration: Option<nat>,
    waiting: nat,
    title: Value,
    description: Value,
    attention: Value,
    assertions: Value)

  function OrElse<T>(o: Option<T>, default: T): T
  {
    if o.Some? then o.value else default
  }

  /**
   * `GraphStep.__init__`: ValueError for a bad step id, ValidationError when
   * the schema rejects the remaining arguments, KeyError for a missing
   * title or description; the namespaces default to empty, the waiting
   * time to zero and the duration to None.
   */
  function NewGraphStep(schemas: Schemas, stepId: string, args: StepArgs): (r: Result<GraphStep>)
    ensures r.Success? <==> ValidStepId(stepId) && schemas.step(args.rest) && "title" in args.rest && "description" in args.rest
    ensures !ValidStepId(stepId) ==> r == Failure(ValueError)
    ensures ValidStepId(stepId) && !schemas.step(args.rest) ==> r == Failure(ValidationError)
    ensures ValidStepId(stepId) && schemas.step(args.rest) && "title" !in args.rest ==> r == Failure(KeyError("title"))
    ensures r.Success? ==> r.value.stepId == stepId && r.value.duration == args.duration
    ensures r.Success? && args.waiting.None? ==> r.value.waiting == 0
    ensures r.Success? && args.parts.None? ==> r.value.parts == map[]
    ensures r.Success? && args.tools.None? ==> r.value.tools == map[]
    ensures r.Success? && "attention" !in args.rest ==> r.value.attention == VNull
  {
    var id :- CheckStepId(stepId);
    if !schemas.step(args.rest) then Failure(ValidationError)
    else if "title" !in args.rest then Failure(KeyError("title"))
    else if "description" !in args.rest then Failure(KeyError("description"))
    else
      Success(GraphStep(
        id,
        OrElse(args.parts, map[]), OrElse(args.tools, map[]),
        OrElse(args.files, map[]), OrElse(args.images, map[]),
        args.duration, OrElse(args.waiting, 0),
        args.rest["title"], args.rest["description"],
        Get(args.rest, "attention", VNull), Get(args.rest, "assertions", VList([]))))
  }

  /**
   * `GraphStep.as_dict`: the step's attributes without `step_id`, leaving
   * out the duration when it is None, the waiting time when it is zero and
   * the attention when it is None.
   */
  function AsDict(s: GraphStep): (r: StepArgs)
    ensures r.parts == Some(s.parts) && r.tools == Some(s.tools)
    ensures r.duration.None? <==> s.duration.None?
    ensures r.waiting.None? <==> s.waiting == 0
    ensures "attention" in r.rest <==> s.attention != VNull
    ensures "step_id" !in r.rest
  {
    var rest := map["title" := s.title, "description" := s.description, "assertions" := s.assertions];
    StepArgs(
      Some(s.parts), Some(s.tools), Some(s.files), Some(s.images),
      s.duration,
      if s.waiting == 0 then None else Some(s.waiting),
      if s.attention == VNull then rest else rest["attention" := s.attention])
  }

  /**
   * `as_dict` serves to recreate the step: `GraphStep(step.step_id,
   * **step.as_dict())` is the step again, whenever the schema accepts the
   * fields it validates.
   */
  lemma AsDictRoundTrip(schemas: Schemas, s: GraphStep)
    requires ValidStepId(s.stepId) && schemas.step(AsDict(s).rest)
    ensures NewGraphStep(schemas, s.stepId, AsDict(s)) == Success(s)
  {
  }

  // ----- Graph -----

  /**
   * Each step is stored under its id and has a `parents` entry, `children`
   * is the inverse of `parents`, and `timing` says whether every step has a
   * duration.
   */
  ghost predicate GraphInvariant(steps: map<string, GraphStep>, parents: Parents, children: Children, timing: bool)
  {
    && steps.Keys == parents.Keys
    && (forall id :: id in steps ==> steps[id].stepId == id)
    && ChildrenOf(parents, children)
    && (timing <==> forall id :: id in steps ==> steps[id].duration.Some?)
  }

  /** Adding a step under a new id, as `add_step` does, keeps the invariant. */
  lemma AddStepKeepsInvariant(steps: map<string, GraphStep>, parents: Parents, children: Children, timing: bool,
                              step: GraphStep, requirements: seq<string>, c: Children)
    requires GraphInvariant(steps, parents, children, timing)
    requires step.stepId !in steps
    requires Registered(children, step.stepId, requirements, c)
    ensures GraphInvariant(steps[step.stepId := step], parents[step.stepId := requirements], c,
                           timing && step.duration.Some?)
  {
    RegisterKeepsChildrenOf(parents, children, step.stepId, requirements, c);
    AddStepKeepsSteps(steps, parents, timing, step, requirements);
  }

  lemma AddStepKeepsSteps(steps: map<string, GraphStep>, parents: Parents, timing: bool,
                          step: GraphStep, requirements: seq<string>)
    requires steps.Keys == parents.Keys
    requires forall id :: id in steps ==> steps[id].stepId == id
    requires timing <==> forall id :: id in steps ==> steps[id].duration.Some?
    requires step.stepId !in steps
    ensures var s' := steps[step.stepId := step];
      && s'.Keys == parents[step.stepId := requirements].Keys
      && (forall id :: id in s' ==> s'[id].stepId == id)
      && (timing && step.duration.Some? <==> forall id :: id in s' ==> s'[id].duration.Some?)
  {
    var s' := steps[step.stepId := step];
    if forall id :: id in s' ==> s'[id].duration.Some? {
      assert s'[step.stepId] == step;
      forall id | id in steps ensures steps[id].duration.Some? {
        assert s'[id] == steps[id];
      }
    }
  }

  /** The old `Graph`: steps added one at a time, with their dependencies and a timing flag. */
  class Graph {
    var steps: map<string, GraphStep>
    var parents: Parents
    var children: Children
    var timing: bool

    ghost predicate Valid()
      reads this
    {
      GraphInvariant(steps, parents, children, timing)
    }

    /** An empty graph, timed until a step without a duration is added. */
    constructor ()
      ensures Valid()
      ensures steps == map[] && parents == map[] && children == map[] && timing
    {
      steps := map[];
      parents := map[];
      children := map[];
      timing := true;
      EmptyChildrenOf();
    }

    /**
     * `add_step`: KeyError on a known step id, before anything changes;
     * otherwise the step and its requirements are recorded, the step is
     * registered as a child of each requirement, and `timing` is cleared
     * for a step without a duration and never set again.
     */
    method AddStep(step: GraphStep, requirements: seq<string>) returns (r: Result<()>)
      requires Valid()
      modifies this
      ensures Valid()
      ensures old(step.stepId in steps) ==>
        && r == Failure(KeyError(step.stepId))
        && steps == old(steps) && parents == old(parents) && children == old(children) && timing == old(timing)
      ensures step.stepId !in old(steps) ==>
        && r == Success(())
        && steps == old(steps)[step.stepId := step]
        && parents == old(parents)[step.stepId := requirements]
        && Registered(old(children), step.stepId, requirements, children)
        && timing == (old(timing) && step.duration.Some?)
    {
      var id := step.stepId;
      if id in steps {
        return Failure(KeyError(id));
      }
      ghost var steps0, parents0, children0, timing0 := steps, parents, children, timing;
      steps := steps[id := step];
      parents := parents[id := requirements];
      children := RegisterStep(children, id, requirements);
      if step.duration.None? {
        timing := false;
      }
      AddStepKeepsInvariant(steps0, parents0, children0, timing0, step, requirements, children);
      return Success(());
    }
  }

  // ----- Schedule -----

  /**
   * A step of the old `Schedule`: the graph step rebuilt from its
   * `as_dict`, its index and number, and for a timed schedule the start,
   * the stop, and the end of the waiting time after it.
   */
  datatype ScheduleStep = ScheduleStep(
    step: GraphStep,
    stepIdx: nat,
    stepNr: nat,
    start: Option<nat>,
    stop: Option<nat>,
    waitingEnd: Option<nat>)

  /**
   * The step at position `i`: numbered from 1; when start times are given,
   * started at its start time, stopped one duration later, and done waiting
   * its waiting time after that.  A step missing from the start times is a
   * KeyError, a timed step without a duration a TypeError.
   */
  function ScheduleStepOf(schemas: Schemas, start: Option<map<string, nat>>, p: Numbered<GraphStep>): Result<ScheduleStep>
  {
    var i, s := p.idx, p.step;
    match start
    case None =>
      var gs :- NewGraphStep(schemas, s.stepId, AsDict(s));
      Success(ScheduleStep(gs, i, i + 1, None, None, None))
    case Some(m) =>
      if s.stepId !in m then Failure(KeyError(s.stepId))
      else if s.duration.None? then Failure(TypeError)
      else
        var t := m[s.stepId];
        var gs :- NewGraphStep(schemas, s.stepId, AsDict(s));
        Success(ScheduleStep(gs, i, i + 1, Some(t), Some(t + s.duration.value), Some(t + s.duration.value + s.waiting)))
  }

  function ScheduleStepConverter(schemas: Schemas, start: Option<map<string, nat>>): Numbered<GraphStep> -> Result<ScheduleStep>
  {
    p => ScheduleStepOf(schemas, start, p)
  }

  /**
   * A scheduled step is numbered from its index and holds the input step;
   * it is untimed without start times, and a timed one stops one duration
   * after its start and stops waiting its waiting time after that.
   */
  lemma ScheduleStepTimed(schemas: Schemas, start: Option<map<string, nat>>, p: Numbered<GraphStep>)
    requires ScheduleStepOf(schemas, start, p).Success?
    ensures var ss, s := ScheduleStepOf(schemas, start, p).value, p.step;
      && ss.stepIdx == p.idx && ss.stepNr == p.idx + 1
      && ss.step == s
      && (start.None? ==> ss.start.None? && ss.stop.None? && ss.waitingEnd.None?)
      && (start.Some? ==>
            && s.stepId in start.value && s.duration.Some?
            && ss.start == Some(start.value[s.stepId])
            && ss.stop == Some(ss.start.value + s.duration.value)
            && ss.waitingEnd == Some(ss.stop.value + s.waiting))
  {
    AsDictRoundTrip(schemas, p.step);
  }

  /**
   * A step can be scheduled exactly when it can be rebuilt from its
   * `as_dict` and, in a timed schedule, has a start time and a duration.
   */
  lemma ScheduleStepSucceeds(schemas: Schemas, start: Option<map<string, nat>>, p: Numbered<GraphStep>)
    ensures ScheduleStepOf(schemas, start, p).Success? <==>
      && ValidStepId(p.step.stepId) && schemas.step(AsDict(p.step).rest)
      && (start.Some? ==> p.step.stepId in start.value && p.step.duration.Some?)
  {
  }

  /** The steps of a schedule keep the input order and the steps, each scheduled as `ScheduleStepTimed` says. */
  lemma ScheduleStepsTimed(schemas: Schemas, steps: seq<GraphStep>, start: Option<map<string, nat>>)
    requires ConvertAll(ScheduleStepConverter(schemas, start), Indexed(steps), |steps|).Success?
    ensures var ss := ConvertAll(ScheduleStepConverter(schemas, start), Indexed(steps), |steps|).value;
      && |ss| == |steps|
      && (forall i :: 0 <= i < |ss| ==> ScheduleStepOf(schemas, start, Numbered(i, steps[i])) == Success(ss[i]))
      && (forall i :: 0 <= i < |ss| ==> ss[i].step == steps[i] && ss[i].stepNr == i + 1)
  {
    ConvertAllElements(ScheduleStepConverter(schemas, start), Indexed(steps), |steps|);
    forall i | 0 <= i < |steps| {
      ScheduleStepTimed(schemas, start, Numbered(i, steps[i]));
    }
  }

  /** Scheduling succeeds exactly when every step can be scheduled. */
  lemma ScheduleStepsSucceed(schemas: Schemas, steps: seq<GraphStep>, start: Option<map<string, nat>>)
    ensures ConvertAll(ScheduleStepConverter(schemas, start), Indexed(steps), |steps|).Success? <==>
      forall i :: 0 <= i < |steps| ==> ScheduleStepOf(schemas, start, Numbered(i, steps[i])).Success?
  {
    ConvertAllSucceeds(ScheduleStepConverter(schemas, start), Indexed(steps), |steps|);
    forall i | 0 <= i < |steps|
      ensures ScheduleStepConverter(schemas, start)(Indexed(steps)[i]) == ScheduleStepOf(schemas, start, Numbered(i, steps[i]))
    {
    }
  }

  /**
   * `ScheduleStep(step_id, step_idx=i, [start=, stop=, waiting=,] **step.as_dict())`
   * as the code stands: `ScheduleStep.__init__` pops `waiting` and then
   * `GraphStep.__init__` resets it to zero, and in a timed schedule a step
   * with a waiting time passes `waiting` twice, a TypeError.
   */
  function ScheduleStepAsWritten(schemas: Schemas, start: Option<map<string, nat>>, p: Numbered<GraphStep>): Result<ScheduleStep>
  {
    var i, s := p.idx, p.step;
    var args := AsDict(s);
    match start
    case None =>
      var gs :- NewGraphStep(schemas, s.stepId, args.(waiting := None));
      Success(ScheduleStep(gs, i, i + 1, None, None, None))
    case Some(m) =>
      if s.stepId !in m then Failure(KeyError(s.stepId))
      else if s.duration.None? then Failure(TypeError)
      else if args.waiting.Some? then Failure(TypeError)
      else
        var t := m[s.stepId];
        var gs :- NewGraphStep(schemas, s.stepId, args.(waiting := None));
        Success(ScheduleStep(gs, i, i + 1, Some(t), Some(t + s.duration.value), None))
  }

  /**
   * As written, a scheduled step never keeps a waiting time, a timed one
   * never records when its waiting ends, and a timed step with a waiting
   * time cannot be scheduled at all, although the intended step can.
   */
  lemma ScheduleStepAsWrittenLosesWaiting(schemas: Schemas, start: Option<map<string, nat>>, p: Numbered<GraphStep>)
    ensures ScheduleStepAsWritten(schemas, start, p).Success? ==>
      ScheduleStepAsWritten(schemas, start, p).value.step.waiting == 0
      && ScheduleStepAsWritten(schemas, start, p).value.waitingEnd.None?
    ensures start.Some? && p.step.waiting > 0 ==> ScheduleStepAsWritten(schemas, start, p).Failure?
    ensures start.Some? && p.step.waiting > 0 && ScheduleStepOf(schemas, start, p).Success? ==>
      ScheduleStepAsWritten(schemas, start, p) == Failure(TypeError)
  {
  }

  /** The old `Schedule`: the numbered steps, ids to numbers, and the bill of materials. */
  datatype Schedule = Schedule(
    steps: seq<ScheduleStep>,
    idToNr: map<string, nat>,
    tools: seq<BomRef>,
    parts: seq<BomRef>)

  /** A namespace of object references as BOM uses, in the order its keys are visited. */
  function UsesOf(refs: map<string, ObjectRef>): (r: seq<Use>)
    ensures |r| == |refs|
    ensures forall u :: u in r <==> exists k :: k in refs && u == UseOf(refs[k])
  {
    var keys := SortedKeys(refs.Keys);
    var r := seq(|keys|, i requires 0 <= i < |keys| => UseOf(refs[keys[i]]));
    KeyedUses(refs, keys, r);
    r
  }

  lemma KeyedUses(refs: map<string, ObjectRef>, keys: seq<string>, r: seq<Use>)
    requires forall k :: k in keys <==> k in refs
    requires |r| == |keys| && forall i :: 0 <= i < |keys| ==> r[i] == UseOf(refs[keys[i]])
    ensures forall u :: u in r <==> exists k :: k in refs && u == UseOf(refs[k])
  {
    forall k | k in refs ensures UseOf(refs[k]) in r {
      var i :| 0 <= i < |keys| && keys[i] == k;
      assert r[i] == UseOf(refs[k]);
    }
  }

  /** An object reference as a BOM use: its id, quantity and optional count, never created. */
  function UseOf(ref: ObjectRef): Use
  {
    Use(ref.objId, ref.quantity, false, ref.optional)
  }

  /** The tools and parts of each scheduled step; the older code has no results. */
  function ScheduleUses(ss: seq<ScheduleStep>): (r: seq<StepUses>)
    ensures |r| == |ss|
    ensures forall i :: 0 <= i < |ss| ==> r[i] == StepUses(UsesOf(ss[i].step.tools), UsesOf(ss[i].step.parts), [])
  {
    seq(|ss|, i requires 0 <= i < |ss| => StepUses(UsesOf(ss[i].step.tools), UsesOf(ss[i].step.parts), []))
  }

  /** `BOMReference(o_id, quantity=...)` for a tool entry. */
  function ToolRef(schemas: Schemas): ((string, int)) -> Result<BomRef>
  {
    (e: (string, int)) => NewBomRef(schemas, e.0, map["quantity" := VInt(e.1)])
  }

  /** `BOMReference(o_id, optional=..., quantity=...)` for a part entry. */
  function PartRef(schemas: Schemas): ((string, PartCount)) -> Result<BomRef>
  {
    (e: (string, PartCount)) => NewBomRef(schemas, e.0, map["optional" := VInt(e.1.optional), "quantity" := VInt(e.1.quantity)])
  }

  /** The reverse lookup: the number of the last step with each id. */
  method IdToNr(ss: seq<ScheduleStep>) returns (m: map<string, nat>)
    ensures forall id :: id in m <==> exists i :: 0 <= i < |ss| && ss[i].step.stepId == id
    ensures forall i :: 0 <= i < |ss| ==>
      (forall j :: i < j < |ss| ==> ss[j].step.stepId != ss[i].step.stepId) ==> m[ss[i].step.stepId] == ss[i].stepNr
  {
    m := map[];
    var i := 0;
    while i < |ss|
      invariant 0 <= i <= |ss|
      invariant forall id :: id in m <==> exists k :: 0 <= k < i && ss[k].step.stepId == id
      invariant forall k :: 0 <= k < i ==>
        (forall j :: k < j < i ==> ss[j].step.stepId != ss[k].step.stepId) ==> m[ss[k].step.stepId] == ss[k].stepNr
    {
      m := m[ss[i].step.stepId := ss[i].stepNr];
      i := i + 1;
    }
  }

  /**
   * The bill of materials of the old `Schedule.__init__`: every tool seen,
   * with its peak non-optional quantity, and every part seen, with the sums
   * of its optional and of its other quantities, each one a validated
   * `BOMReference`, in key order.
   */
  method ScheduleBom(schemas: Schemas, ss: seq<ScheduleStep>)
    returns (r: Result<(seq<BomRef>, seq<BomRef>)>, ghost tools: map<string, int>, ghost parts: map<string, PartCount>)
    ensures Tallied(OldToolRule, 0, tools, ToolUses(ScheduleUses(ss)))
    ensures Tallied(OldPartRule, PartCount(0, 0), parts, OldPartUses(ScheduleUses(ss)))
    ensures ConvertAll(ToolRef(schemas), Items(tools), |tools|).Failure? ==>
      r == Failure(ConvertAll(ToolRef(schemas), Items(tools), |tools|).error)
    ensures ConvertAll(ToolRef(schemas), Items(tools), |tools|).Success? ==>
      && (ConvertAll(PartRef(schemas), Items(parts), |parts|).Failure? ==>
            r == Failure(ConvertAll(PartRef(schemas), Items(parts), |parts|).error))
      && (ConvertAll(PartRef(schemas), Items(parts), |parts|).Success? ==>
            r == Success((ConvertAll(ToolRef(schemas), Items(tools), |tools|).value,
                          ConvertAll(PartRef(schemas), Items(parts), |parts|).value)))
  {
    var t, p := OldCreateBom(ScheduleUses(ss));
    tools, parts := t, p;
    var toolRefs := ConvertEach(ToolRef(schemas), Items(t));
    if toolRefs.Failure? {
      return Failure(toolRefs.error), tools, parts;
    }
    var partRefs := ConvertEach(PartRef(schemas), Items(p));
    if partRefs.Failure? {
      return Failure(partRefs.error), tools, parts;
    }
    r := Success((toolRefs.value, partRefs.value));
  }

  /**
   * `tools` and `parts` are the bill of materials of `ss`: the tallies
   * `tools_d` and `parts_d`, each entry turned into a `BOMReference`.
   */
  ghost predicate BomTallies(schemas: Schemas, ss: seq<ScheduleStep>, toolRefs: seq<BomRef>, partRefs: seq<BomRef>,
                             tools: map<string, int>, parts: map<string, PartCount>)
  {
    && Tallied(OldToolRule, 0, tools, ToolUses(ScheduleUses(ss)))
    && Tallied(OldPartRule, PartCount(0, 0), parts, OldPartUses(ScheduleUses(ss)))
    && ConvertAll(ToolRef(schemas), Items(tools), |tools|) == Success(toolRefs)
    && ConvertAll(PartRef(schemas), Items(parts), |parts|) == Success(partRefs)
  }

  /** Some tallies of `ss` yield exactly these tool and part references. */
  ghost predicate BomOf(schemas: Schemas, ss: seq<ScheduleStep>, toolRefs: seq<BomRef>, partRefs: seq<BomRef>)
  {
    exists tools, parts :: BomTallies(schemas, ss, toolRefs, partRefs, tools, parts)
  }

  /** `idToNr` maps every id of `ss` to a step number, the last step's number for a repeated id. */
  ghost predicate NumbersIds(ss: seq<ScheduleStep>, idToNr: map<string, nat>)
  {
    && (forall id :: id in idToNr <==> exists i :: 0 <= i < |ss| && ss[i].step.stepId == id)
    && forall i :: 0 <= i < |ss| ==>
      (forall j :: i < j < |ss| ==> ss[j].step.stepId != ss[i].step.stepId) ==> idToNr[ss[i].step.stepId] == ss[i].stepNr
  }

  /**
   * `idToNr` maps every id of `steps` to a step number, position plus one
   * for an id that no later step repeats.
   */
  ghost predicate NumbersSteps(steps: seq<GraphStep>, idToNr: map<string, nat>)
  {
    && (forall id :: id in idToNr <==> exists i :: 0 <= i < |steps| && steps[i].stepId == id)
    && forall i :: 0 <= i < |steps| ==>
      (forall j :: i < j < |steps| ==> steps[j].stepId != steps[i].stepId) ==> idToNr[steps[i].stepId] == i + 1
  }

  /** The lookup of scheduled steps numbers the graph steps they were made from. */
  lemma NumbersScheduledSteps(steps: seq<GraphStep>, ss: seq<ScheduleStep>, idToNr: map<string, nat>)
    requires |ss| == |steps| && forall i :: 0 <= i < |ss| ==> ss[i].step == steps[i] && ss[i].stepNr == i + 1
    requires NumbersIds(ss, idToNr)
    ensures NumbersSteps(steps, idToNr)
  {
  }

  /** The reverse lookup and the bill of materials of already scheduled steps. */
  method AssembleSchedule(schemas: Schemas, ss: seq<ScheduleStep>) returns (r: Result<Schedule>)
    ensures r.Success? ==> r.value.steps == ss && NumbersIds(ss, r.value.idToNr)
    ensures r.Success? ==> BomOf(schemas, ss, r.value.tools, r.value.parts)
  {
    var idToNr := IdToNr(ss);
    var bom, tools, parts := ScheduleBom(schemas, ss);
    if bom.Failure? {
      return Failure(bom.error);
    }
    r := Success(Schedule(ss, idToNr, bom.value.0, bom.value.1));
    assert BomTallies(schemas, ss, r.value.tools, r.value.parts, tools, parts);
  }

  /**
   * `Schedule(steps, store, start)`: number the steps in order (timing them
   * when start times are given), build the reverse lookup, then the bill of
   * materials; the first exception escapes.
   */
  method NewSchedule(schemas: Schemas, steps: seq<GraphStep>, start: Option<map<string, nat>>) returns (r: Result<Schedule>)
    ensures ConvertAll(ScheduleStepConverter(schemas, start), Indexed(steps), |steps|).Failure? ==>
      r == Failure(ConvertAll(ScheduleStepConverter(schemas, start), Indexed(steps), |steps|).error)
    ensures r.Success? ==> ConvertAll(ScheduleStepConverter(schemas, start), Indexed(steps), |steps|) == Success(r.value.steps)
    ensures r.Success? ==> NumbersSteps(steps, r.value.idToNr)
    ensures r.Success? ==> BomOf(schemas, r.value.steps, r.value.tools, r.value.parts)
  {
    var ss := ConvertEach(ScheduleStepConverter(schemas, start), Indexed(steps));
    if ss.Failure? {
      return Failure(ss.error);
    }
    r := AssembleSchedule(schemas, ss.value);
    if r.Success? {
      assert NumbersSteps(steps, r.value.idToNr) by {
        ScheduleStepsTimed(schemas, steps, start);
        NumbersScheduledSteps(steps, ss.value, r.value.idToNr);
      }
    }
  }

  // ----- schedule_greedy -----

  /** The durations of the steps in `w`, all of them given in a timed graph. */
  function Durations(steps: map<string, GraphStep>, w: set<string>): (r: map<string, nat>)
    requires forall x :: x in w ==> x in steps && steps[x].duration.Some?
    ensures r.Keys == w && forall x :: x in w ==> r[x] == steps[x].duration.value
  {
    map x | x in w :: steps[x].duration.value
  }

  /** The steps to schedule: all of them, or the targets and their ancestors. */
  function WorkingSet(steps: map<string, GraphStep>, parents: Parents, targets: Option<seq<string>>, ghost rank: map<string, nat>)
    : Result<set<string>>
    requires targets.Some? ==> Ranked(parents, rank)
  {
    match targets
    case None => Success(steps.Keys)
    case Some(ts) => TargetSteps(parents, ts, |ts|, rank)
  }

  /**
   * What the old greedy scheduler returns for the working set `w`: the
   * steps in a topological order of `w`, each pick of least duration among
   * the ready steps, and the parallel list of their starts, back to back
   * from 0.
   */
  ghost predicate GreedySchedule(steps: map<string, GraphStep>, parents: Parents, w: set<string>,
                                 res: (seq<GraphStep>, seq<nat>))
    requires w <= parents.Keys
    requires forall x :: x in w ==> x in steps && steps[x].duration.Some?
  {
    var (ordered, starts) := res;
    var ids := seq(|ordered|, k requires 0 <= k < |ordered| => ordered[k].stepId);
    var dur := Durations(steps, w);
    && |starts| == |ordered|
    && TopoOrder(w, parents, ids)
    && (forall k :: 0 <= k < |ordered| ==> ids[k] in steps && ordered[k] == steps[ids[k]])
    && GreedyChoice(w, parents, dur, ids)
    && (forall k :: 0 <= k < |ordered| ==> starts[k] == Elapsed(dur, ids[..k]))
  }

  /** The steps with ids `ids`, in order. */
  function StepsAt(steps: map<string, GraphStep>, ids: seq<string>): seq<GraphStep>
    requires forall x :: x in ids ==> x in steps
  {
    seq(|ids|, k requires 0 <= k < |ids| => steps[ids[k]])
  }

  /** `[start[i] for i in ids]`. */
  function StartsAt(start: map<string, nat>, ids: seq<string>): seq<nat>
    requires forall x :: x in ids ==> x in start
  {
    seq(|ids|, k requires 0 <= k < |ids| => start[ids[k]])
  }

  /** A greedy order of `w` with its start times, read back as steps and a list of starts. */
  lemma GreedyScheduleOf(steps: map<string, GraphStep>, parents: Parents, w: set<string>,
                         ids: seq<string>, start: map<string, nat>)
    requires w <= parents.Keys
    requires forall x :: x in w ==> x in steps && steps[x].stepId == x && steps[x].duration.Some?
    requires TopoOrder(w, parents, ids)
    requires GreedyChoice(w, parents, Durations(steps, w), ids)
    requires Timed(w, Durations(steps, w), ids, start)
    ensures forall x :: x in ids ==> x in steps && x in start
    ensures GreedySchedule(steps, parents, w, (StepsAt(steps, ids), StartsAt(start, ids)))
  {
    var ordered := StepsAt(steps, ids);
    assert seq(|ordered|, k requires 0 <= k < |ordered| => ordered[k].stepId) == ids;
  }

  /**
   * The `while` loop of the old `schedule_greedy` over the working set `w`:
   * it fails (unpacking the missing candidate) exactly when `w` has no
   * topological order, and never when `w` is closed under `parents`.
   */
  method OrderSteps(steps: map<string, GraphStep>, parents: Parents, w: set<string>, ghost rank: map<string, nat>)
    returns (r: Result<(seq<GraphStep>, seq<nat>)>)
    requires w <= parents.Keys
    requires forall x :: x in w ==> x in steps && steps[x].stepId == x && steps[x].duration.Some?
    ensures r.Success? <==> Schedulable(w, parents)
    ensures Ranked(parents, rank) && Closed(parents, w) ==> r.Success?
    ensures r.Failure? ==> r.error == TypeError
    ensures r.Success? ==> GreedySchedule(steps, parents, w, r.value)
  {
    var dur := Durations(steps, w);
    forall done | Ranked(parents, rank) && Closed(parents, w) ensures !Stuck(w, parents, done) {
      RankedNeverStuck(w, parents, rank, done);
    }
    var order := GreedyOrder(w, parents, dur);
    if order.Failure? {
      return Failure(order.error);
    }
    var (ids, start) := order.value;
    GreedyScheduleOf(steps, parents, w, ids, start);
    var ordered, starts := StepsAt(steps, ids), StartsAt(start, ids);
    return Success((ordered, starts));
  }

  /**
   * The old `schedule_greedy(graph, targets)`: ValueError without timing;
   * otherwise the working set is ordered greedily.  Working from targets,
   * the working set is closed under `parents`, so an acyclic graph always
   * schedules.
   */
  method ScheduleGreedy(g: Graph, targets: Option<seq<string>>, ghost rank: map<string, nat>)
    returns (r: Result<(seq<GraphStep>, seq<nat>)>)
    requires g.Valid() && (targets.Some? ==> Ranked(g.parents, rank))
    ensures !g.timing ==> r == Failure(ValueError)
    ensures g.timing && WorkingSet(g.steps, g.parents, targets, rank).Failure? ==>
      r == Failure(WorkingSet(g.steps, g.parents, targets, rank).error)
    ensures g.timing && WorkingSet(g.steps, g.parents, targets, rank).Success? ==>
      var w := WorkingSet(g.steps, g.parents, targets, rank).value;
      && w <= g.steps.Keys
      && (targets.Some? ==> Closed(g.parents, w) && r.Success?)
      && (r.Success? <==> Schedulable(w, g.parents))
      && (r.Failure? ==> r.error == TypeError)
      && (r.Success? ==> GreedySchedule(g.steps, g.parents, w, r.value))
  {
    if !g.timing {
      return Failure(ValueError);
    }
    var w: set<string>;
    if targets.None? {
      w := g.steps.Keys;
    } else {
      var ws := CollectTargets(g.parents, targets.value, rank);
      if ws.Failure? {
        return Failure(ws.error);
      }
      TargetStepsClosed(g.parents, targets.value, |targets.value|, rank);
      w := ws.value;
    }
    r := OrderSteps(g.steps, g.parents, w, rank);
  }
}
