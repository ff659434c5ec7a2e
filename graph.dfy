/**
 * The newer `Graph`: a set of graph steps (references to stored steps by
 * `step_id`, each with its `requires` list of aliases), the `parents` and
 * `children` maps built from them, the ids a graph references directly or
 * through its steps and objects, and a graph step's dereferenced fields.
 */
module StepGraph {
  import opened Wrappers
  import opened Values
  import opened DataStructs
  import opened Conversions
  import opened Entities
  import opened Deps
  import opened Stores

  /** A step of a graph: its fields, among them `step_id` and `requires`. */
  datatype GraphStep = GraphStep(data: DataStruct)

  datatype GraphSchemas = GraphSchemas(graph: Schema, step: Schema)

  /** The graph's own fields, its steps by alias, and the dependency maps between aliases. */
  datatype Graph = Graph(data: DataStruct, steps: map<string, GraphStep>, parents: Parents, children: Children)

  // ----- construction -----

  /** `GraphStep(**ref)`: the entry has to be a dict of keyword arguments. */
  function GraphStepOf(schema: Schema, v: Value): Result<GraphStep>
  {
    if !v.VDict? then Failure(TypeError)
    else
      var d :- Construct(schema, v.fields);
      Success(GraphStep(d))
  }

  function GraphStepConverter(schema: Schema): Value -> Result<GraphStep>
  {
    v => GraphStepOf(schema, v)
  }

  /** `GraphStep.__init__` as a method: it builds exactly `GraphStepOf`. */
  method NewGraphStep(schema: Schema, v: Value) returns (r: Result<GraphStep>)
    ensures r == GraphStepConverter(schema)(v)
  {
    if !v.VDict? {
      return Failure(TypeError);
    }
    var d := Create(schema, v.fields);
    if d.Failure? {
      return Failure(d.error);
    }
    return Success(GraphStep(d.value));
  }

  /** The first loop of the constructor: every entry of `kw["steps"]` as a graph step. */
  function StepsOf(schema: Schema, kw: Kwargs): Result<map<string, GraphStep>>
  {
    if "steps" !in kw then Failure(KeyError("steps"))
    else if !kw["steps"].VDict? then Failure(AttributeError("iteritems"))
    else
      var keys := SortedKeys(kw["steps"].fields.Keys);
      ConvertEntries(GraphStepConverter(schema), kw["steps"].fields, keys, |keys|)
  }

  /** The loop over the `steps` entries of `Graph.__init__`: it builds exactly `StepsOf`. */
  method NewGraphSteps(schema: Schema, kw: Kwargs) returns (r: Result<map<string, GraphStep>>)
    ensures r == StepsOf(schema, kw)
  {
    if "steps" !in kw {
      return Failure(KeyError("steps"));
    }
    if !kw["steps"].VDict? {
      return Failure(AttributeError("iteritems"));
    }
    var fields := kw["steps"].fields;
    var keys := SortedKeys(fields.Keys);
    var m: map<string, GraphStep> := map[];
    var i := 0;
    while i < |keys|
      invariant 0 <= i <= |keys|
      invariant ConvertEntries(GraphStepConverter(schema), fields, keys, i) == Success(m)
    {
      var gs := NewGraphStep(schema, fields[keys[i]]);
      if gs.Failure? {
        ConvertEntriesFails(GraphStepConverter(schema), fields, keys, i, m);
        return Failure(gs.error);
      }
      ConvertEntriesStep(GraphStepConverter(schema), fields, keys, i, m, gs.value);
      m := m[keys[i] := gs.value];
      i := i + 1;
    }
    return Success(m);
  }

  /**
   * One requirement, used as a key of `children`: a list or a dict cannot
   * be hashed (TypeError); aliases are strings.
   */
  function AliasOf(v: Value): Result<string>
  {
    if v.VStr? then Success(v.s) else Failure(TypeError)
  }

  /**
   * `ref.requires`, walked by `for req in ref.requires`: the items of a
   * list, the keys of a dict or the characters of a string; anything else
   * is not iterable (TypeError).
   */
  function RequiresOf(gs: GraphStep): Result<seq<string>>
  {
    var v :- GetAttr(gs.data, "requires");
    var items :- Iterate(v);
    ConvertAll(AliasOf, items, |items|)
  }

  /** `parents`: every alias mapped to the `requires` of its step. */
  function ParentsOf(steps: map<string, GraphStep>): Result<Parents>
  {
    var keys := SortedKeys(steps.Keys);
    ConvertEntries(RequiresOf, steps, keys, |keys|)
  }

  /** What `Graph(**kw)` computes before the children: its fields, its steps and their parents. */
  function GraphParts(schemas: GraphSchemas, kw: Kwargs): Result<(DataStruct, map<string, GraphStep>, Parents)>
  {
    var d :- Construct(schemas.graph, kw);
    var steps :- StepsOf(schemas.step, kw);
    var parents :- ParentsOf(steps);
    Success((d, steps, parents))
  }

  /**
   * `Graph.__init__`: convert the steps, then, alias by alias, record the
   * step's `requires` as its parents and register it in `children`.
   */
  method NewGraph(schemas: GraphSchemas, kw: Kwargs) returns (r: Result<Graph>)
    ensures r.Failure? ==> GraphParts(schemas, kw) == Failure(r.error)
    ensures r.Success? ==> GraphParts(schemas, kw) == Success((r.value.data, r.value.steps, r.value.parents))
    ensures r.Success? ==> ChildrenOf(r.value.parents, r.value.children)
  {
    var d := Create(schemas.graph, kw);
    if d.Failure? {
      return Failure(d.error);
    }
    var steps := NewGraphSteps(schemas.step, kw);
    if steps.Failure? {
      return Failure(steps.error);
    }
    var keys := SortedKeys(steps.value.Keys);
    SortedKeysSorted(steps.value.Keys);
    var parents: Parents := map[];
    var children: Children := map[];
    var i := 0;
    while i < |keys|
      invariant 0 <= i <= |keys|
      invariant ConvertEntries(RequiresOf, steps.value, keys, i) == Success(parents)
      invariant ChildrenOf(parents, children)
    {
      var alias := keys[i];
      var reqs := RequiresOf(steps.value[alias]);
      if reqs.Failure? {
        ConvertEntriesFails(RequiresOf, steps.value, keys, i, parents);
        return Failure(reqs.error);
      }
      ConvertEntriesStep(RequiresOf, steps.value, keys, i, parents, reqs.value);
      assert alias !in parents by {
        assert forall j :: 0 <= j < i ==> keys[j] != alias;
      }
      var c := RegisterStep(children, alias, reqs.value);
      RegisterKeepsChildrenOf(parents, children, alias, reqs.value, c);
      parents := parents[alias := reqs.value];
      children := c;
      i := i + 1;
    }
    return Success(Graph(d.value, steps.value, parents, children));
  }

  /**
   * A constructed graph has one step per entry of `kw["steps"]`, each the
   * conversion of its entry, and one `parents` entry per step, holding the
   * step's `requires`.
   */
  lemma GraphPartsShape(schemas: GraphSchemas, kw: Kwargs)
    requires GraphParts(schemas, kw).Success?
    ensures var steps := GraphParts(schemas, kw).value.1;
      && "steps" in kw && kw["steps"].VDict? && steps.Keys == kw["steps"].fields.Keys
      && forall a :: a in steps ==> GraphStepOf(schemas.step, kw["steps"].fields[a]) == Success(steps[a])
    ensures var (_, steps, parents) := GraphParts(schemas, kw).value;
      && parents.Keys == steps.Keys
      && forall a :: a in parents ==> RequiresOf(steps[a]) == Success(parents[a])
  {
    StepsOfShape(schemas.step, kw);
    ParentsOfShape(StepsOf(schemas.step, kw).value);
  }

  lemma StepsOfShape(schema: Schema, kw: Kwargs)
    requires StepsOf(schema, kw).Success?
    ensures "steps" in kw && kw["steps"].VDict? && StepsOf(schema, kw).value.Keys == kw["steps"].fields.Keys
    ensures forall a :: a in StepsOf(schema, kw).value ==> GraphStepOf(schema, kw["steps"].fields[a]) == Success(StepsOf(schema, kw).value[a])
  {
    var fields := kw["steps"].fields;
    var keys := SortedKeys(fields.Keys);
    assert keys[..|keys|] == keys;
    ConvertEntriesElements(GraphStepConverter(schema), fields, keys, |keys|);
  }

  lemma ParentsOfShape(steps: map<string, GraphStep>)
    requires ParentsOf(steps).Success?
    ensures ParentsOf(steps).value.Keys == steps.Keys
    ensures forall a :: a in ParentsOf(steps).value ==> RequiresOf(steps[a]) == Success(ParentsOf(steps).value[a])
  {
    var keys := SortedKeys(steps.Keys);
    assert keys[..|keys|] == keys;
    ConvertEntriesElements(RequiresOf, steps, keys, |keys|);
  }

  // ----- collect_ids -----

  /** The ids `collect_ids` returns, as sets. */
  datatype CollectedIds = CollectedIds(stepIds: set<string>, objIds: set<string>, blobIds: set<string>)

  function StepIdOf(gs: GraphStep): Result<string>
  {
    StrAttr(gs.data, "step_id")
  }

  function BlobIdOf(ref: ResourceRef): Result<string>
  {
    StrAttr(ref.data, "blob_id")
  }

  function ObjIdOf(ref: ObjectRef): Result<string>
  {
    StrAttr(ref.data, "obj_id")
  }

  /** The `step_id` of every graph step. */
  function GraphStepIds(g: Graph): Result<set<string>>
  {
    IdsOf(StepIdOf, ValuesAt(g.steps, SortedKeys(g.steps.Keys)))
  }

  /** The ids of a step's graph steps are those of the steps it holds, whatever the aliases. */
  lemma GraphStepIdsMembers(g: Graph)
    requires GraphStepIds(g).Success?
    ensures forall x :: x in GraphStepIds(g).value <==> exists a :: a in g.steps && StepIdOf(g.steps[a]) == Success(x)
  {
    IdsOfValues(StepIdOf, g.steps);
  }

  /** The blob ids of one resource namespace; an unconverted one is walked only when it is an empty dict. */
  function ResNamespaceIds(nsp: Option<map<string, ResourceRef>>, d: DataStruct, name: string): Result<set<string>>
  {
    match nsp
    case None => var _ :- PlainNamespace(d, name, "blob_id"); Success({})
    case Some(m) => IdsOf(BlobIdOf, ValuesAt(m, SortedKeys(m.Keys)))
  }

  /** The object ids of one object namespace; an unconverted one is walked only when it is an empty dict. */
  function ObjNamespaceIds(nsp: Option<map<string, ObjectRef>>, d: DataStruct, name: string): Result<set<string>>
  {
    match nsp
    case None => var _ :- PlainNamespace(d, name, "obj_id"); Success({})
    case Some(m) => IdsOf(ObjIdOf, ValuesAt(m, SortedKeys(m.Keys)))
  }

  method CollectResNamespace(nsp: Option<map<string, ResourceRef>>, d: DataStruct, name: string) returns (r: Result<set<string>>)
    ensures r == ResNamespaceIds(nsp, d, name)
  {
    if nsp.None? {
      var plain := PlainNamespace(d, name, "blob_id");
      if plain.Failure? {
        return Failure(plain.error);
      }
      return Success({});
    }
    r := CollectIdsOf(BlobIdOf, ValuesAt(nsp.value, SortedKeys(nsp.value.Keys)));
  }

  method CollectObjNamespace(nsp: Option<map<string, ObjectRef>>, d: DataStruct, name: string) returns (r: Result<set<string>>)
    ensures r == ObjNamespaceIds(nsp, d, name)
  {
    if nsp.None? {
      var plain := PlainNamespace(d, name, "obj_id");
      if plain.Failure? {
        return Failure(plain.error);
      }
      return Success({});
    }
    r := CollectIdsOf(ObjIdOf, ValuesAt(nsp.value, SortedKeys(nsp.value.Keys)));
  }

  /** A step's blob ids (images, then files) and object ids (tools, parts, results). */
  function StepRefIds(s: Step): Result<(set<string>, set<string>)>
  {
    var images :- ResNamespaceIds(s.images, s.data, "images");
    var files :- ResNamespaceIds(s.files, s.data, "files");
    var tools :- ObjNamespaceIds(s.tools, s.data, "tools");
    var parts :- ObjNamespaceIds(s.parts, s.data, "parts");
    var results :- ObjNamespaceIds(s.results, s.data, "results");
    Success((images + files, tools + parts + results))
  }

  method CollectStepRefs(s: Step) returns (r: Result<(set<string>, set<string>)>)
    ensures r == StepRefIds(s)
  {
    var images := CollectResNamespace(s.images, s.data, "images");
    if images.Failure? {
      return Failure(images.error);
    }
    var files := CollectResNamespace(s.files, s.data, "files");
    if files.Failure? {
      return Failure(files.error);
    }
    var tools := CollectObjNamespace(s.tools, s.data, "tools");
    if tools.Failure? {
      return Failure(tools.error);
    }
    var parts := CollectObjNamespace(s.parts, s.data, "parts");
    if parts.Failure? {
      return Failure(parts.error);
    }
    var results := CollectObjNamespace(s.results, s.data, "results");
    if results.Failure? {
      return Failure(results.error);
    }
    return Success((images.value + files.value, tools.value + parts.value + results.value));
  }

  /** The blob ids of the stored step with id `id`; KeyError when it is not stored. */
  function StepBlobs(steps: map<string, Step>): string -> Result<set<string>>
  {
    id => if id !in steps then Failure(KeyError(id)) else (var p :- StepRefIds(steps[id]); Success(p.0))
  }

  /** The object ids of the stored step with id `id`; KeyError when it is not stored. */
  function StepObjs(steps: map<string, Step>): string -> Result<set<string>>
  {
    id => if id !in steps then Failure(KeyError(id)) else (var p :- StepRefIds(steps[id]); Success(p.1))
  }

  /**
   * An object's image blob ids.  A plain `images` value is walked as Python
   * walks it (TypeError when it is not iterable); any entry it yields has no
   * `blob_id`, so only an empty one gives no ids.
   */
  function ObjectBlobIds(obj: Object): Result<set<string>>
  {
    match obj.images
    case Some(refs) => IdsOf(BlobIdOf, refs)
    case None =>
      var v :- GetAttr(obj.data, "images");
      var items :- Iterate(v);
      if items == [] then Success({}) else Failure(AttributeError("blob_id"))
  }

  /**
   * `for img in obj.images` over a plain value: an empty list, dict or
   * string gives no ids, a non-empty one fails on `blob_id`, and a value
   * that is not iterable is a TypeError.
   */
  lemma PlainImagesWalked(obj: Object)
    requires obj.images.None? && GetAttr(obj.data, "images").Success?
    ensures var v := GetAttr(obj.data, "images").value;
      v == VList([]) || v == VDict(map[]) || v == VStr("") ==> ObjectBlobIds(obj) == Success({})
    ensures var v := GetAttr(obj.data, "images").value;
      !(v.VList? || v.VDict? || v.VStr?) ==> ObjectBlobIds(obj) == Failure(TypeError)
    ensures var v := GetAttr(obj.data, "images").value;
      (v.VList? && v.items != []) || (v.VDict? && v.fields != map[]) || (v.VStr? && v.s != "") ==>
        ObjectBlobIds(obj) == Failure(AttributeError("blob_id"))
  {
    var v := GetAttr(obj.data, "images").value;
    assert ObjectBlobIds(obj) == (var items :- Iterate(v); if items == [] then Success({}) else Failure(AttributeError("blob_id")));
    match v
    case VList(items) =>
    case VDict(fields) =>
      assert |SortedKeys(fields.Keys)| == |fields.Keys|;
    case VStr(_) =>
    case _ =>
  }

  /** The image blob ids of the stored object with id `id`; KeyError when it is not stored. */
  function ObjBlobs(objects: map<string, Object>): string -> Result<set<string>>
  {
    id => if id !in objects then Failure(KeyError(id)) else ObjectBlobIds(objects[id])
  }

  /** Every referenced step and object is stored and has well formed references. */
  predicate Collectable(g: Graph, steps: map<string, Step>, objects: map<string, Object>)
  {
    && GraphStepIds(g).Success?
    && (forall s :: s in GraphStepIds(g).value ==> StepBlobs(steps)(s).Success?)
    && (forall o :: o in UnionOver(GraphStepIds(g).value, StepObjs(steps)) ==> ObjBlobs(objects)(o).Success?)
  }

  /**
   * The referenced ids: the graph's step ids, the object ids of those steps,
   * and the blob ids of those steps and of those objects.
   */
  function Collected(g: Graph, steps: map<string, Step>, objects: map<string, Object>): CollectedIds
    requires Collectable(g, steps, objects)
  {
    var ids := GraphStepIds(g).value;
    var objs := UnionOver(ids, StepObjs(steps));
    CollectedIds(ids, objs, UnionOver(ids, StepBlobs(steps)) + UnionOver(objs, ObjBlobs(objects)))
  }

  /** The loop over the step ids: every step's blob and object ids. */
  method CollectStepsRefs(stepIds: set<string>, store: LocalMemoryStore) returns (r: Result<(set<string>, set<string>)>)
    ensures r.Success? <==> forall s :: s in stepIds ==> StepBlobs(store.steps)(s).Success?
    ensures r.Success? ==> r.value == (UnionOver(stepIds, StepBlobs(store.steps)), UnionOver(stepIds, StepObjs(store.steps)))
  {
    var steps := store.steps;
    var todo := stepIds;
    var objs: set<string> := {};
    var blobs: set<string> := {};
    UnionOverEmpty(StepObjs(steps));
    UnionOverEmpty(StepBlobs(steps));
    while todo != {}
      invariant todo <= stepIds
      invariant forall s :: s in stepIds - todo ==> StepBlobs(steps)(s).Success?
      invariant objs == UnionOver(stepIds - todo, StepObjs(steps))
      invariant blobs == UnionOver(stepIds - todo, StepBlobs(steps))
      decreases |todo|
    {
      var s :| s in todo;
      var step := store.GetStep(s);
      if step.Failure? {
        return Failure(step.error);
      }
      var ids := CollectStepRefs(step.value);
      if ids.Failure? {
        return Failure(ids.error);
      }
      UnionOverAdd(stepIds - todo, s, StepObjs(steps));
      UnionOverAdd(stepIds - todo, s, StepBlobs(steps));
      assert stepIds - (todo - {s}) == (stepIds - todo) + {s};
      objs := objs + ids.value.1;
      blobs := blobs + ids.value.0;
      todo := todo - {s};
    }
    assert stepIds - todo == stepIds;
    return Success((blobs, objs));
  }

  /** The loop over the object ids: every object's image blob ids. */
  method CollectObjectsBlobs(objIds: set<string>, store: LocalMemoryStore) returns (r: Result<set<string>>)
    ensures r.Success? <==> forall o :: o in objIds ==> ObjBlobs(store.objects)(o).Success?
    ensures r.Success? ==> r.value == UnionOver(objIds, ObjBlobs(store.objects))
  {
    var objects := store.objects;
    var todo := objIds;
    UnionOverEmpty(ObjBlobs(objects));
    var blobs: set<string> := {};
    while todo != {}
      invariant todo <= objIds
      invariant forall o :: o in objIds - todo ==> ObjBlobs(objects)(o).Success?
      invariant blobs == UnionOver(objIds - todo, ObjBlobs(objects))
      decreases |todo|
    {
      var o :| o in todo;
      var obj := store.GetObj(o);
      if obj.Failure? {
        return Failure(obj.error);
      }
      var ids := CollectObjectBlobs(obj.value);
      if ids.Failure? {
        return Failure(ids.error);
      }
      UnionOverAdd(objIds - todo, o, ObjBlobs(objects));
      assert objIds - (todo - {o}) == (objIds - todo) + {o};
      blobs := blobs + ids.value;
      todo := todo - {o};
    }
    assert objIds - todo == objIds;
    return Success(blobs);
  }

  /**
   * `collect_ids`: the steps' ids, then each step's references, then each
   * object's images.  It fails exactly when some referenced step or object
   * is missing from the store or has a reference without an id, and
   * otherwise returns every referenced id.
   */
  method CollectIds(g: Graph, store: LocalMemoryStore) returns (r: Result<CollectedIds>)
    ensures r.Success? <==> Collectable(g, store.steps, store.objects)
    ensures r.Success? ==> r.value == Collected(g, store.steps, store.objects)
  {
    var sids := CollectIdsOf(StepIdOf, ValuesAt(g.steps, SortedKeys(g.steps.Keys)));
    if sids.Failure? {
      return Failure(sids.error);
    }
    var refs := CollectStepsRefs(sids.value, store);
    if refs.Failure? {
      return Failure(refs.error);
    }
    var objBlobs := CollectObjectsBlobs(refs.value.1, store);
    if objBlobs.Failure? {
      return Failure(objBlobs.error);
    }
    return Success(CollectedIds(sids.value, refs.value.1, refs.value.0 + objBlobs.value));
  }

  method CollectObjectBlobs(obj: Object) returns (r: Result<set<string>>)
    ensures r == ObjectBlobIds(obj)
  {
    if obj.images.Some? {
      r := CollectIdsOf(BlobIdOf, obj.images.value);
      return;
    }
    var v := GetAttr(obj.data, "images");
    if v.Failure? {
      return Failure(v.error);
    }
    var items := Iterate(v.value);
    if items.Failure? {
      return Failure(items.error);
    }
    if items.value != [] {
      return Failure(AttributeError("blob_id"));
    }
    return Success({});
  }

  /** Every collected step and object id can be looked up in the store that was searched. */
  lemma CollectedAreStored(g: Graph, steps: map<string, Step>, objects: map<string, Object>)
    requires Collectable(g, steps, objects)
    ensures Collected(g, steps, objects).stepIds <= steps.Keys
    ensures Collected(g, steps, objects).objIds <= objects.Keys
  {
    var c := Collected(g, steps, objects);
    forall s | s in c.stepIds ensures s in steps {
      assert StepBlobs(steps)(s).Success?;
    }
    forall o | o in c.objIds ensures o in objects {
      assert ObjBlobs(objects)(o).Success?;
    }
  }

  /** An object id is collected exactly when some collected step references it. */
  lemma CollectedObjects(g: Graph, steps: map<string, Step>, objects: map<string, Object>, o: string)
    requires Collectable(g, steps, objects)
    ensures o in Collected(g, steps, objects).objIds <==>
      exists s :: s in GraphStepIds(g).value && s in steps && StepRefIds(steps[s]).Success? && o in StepRefIds(steps[s]).value.1
  {
    var ids := GraphStepIds(g).value;
    UnionOverMember(ids, StepObjs(steps), o);
    forall s | s in ids
      ensures (StepObjs(steps)(s).Success? && o in StepObjs(steps)(s).value) <==>
        (s in steps && StepRefIds(steps[s]).Success? && o in StepRefIds(steps[s]).value.1)
    {
    }
  }

  // ----- dereference -----

  /**
   * `GraphStep.dereference`: the graph step's fields, overlaid by the
   * dereferenced stored step with its `step_id`.
   */
  function GraphStepDereference(gs: GraphStep, store: LocalMemoryStore, rs: ResourceStore): Result<Kwargs>
    reads store
  {
    var id :- StrAttr(gs.data, "step_id");
    var step :- store.GetStep(id);
    var d :- StepDereference(step, store.objects, rs);
    Success(Dereference(gs.data) + d)
  }

  /**
   * The stored step's fields win; fields only the graph step has, such as
   * `requires`, survive; the five namespaces come out as lists.
   */
  lemma GraphStepDereferenceOverlay(gs: GraphStep, store: LocalMemoryStore, rs: ResourceStore, k: string)
    requires GraphStepDereference(gs, store, rs).Success?
    ensures var res := GraphStepDereference(gs, store, rs).value;
      var step := store.steps[StrAttr(gs.data, "step_id").value];
      var sd := StepDereference(step, store.objects, rs).value;
      && (k in res <==> k in Dereference(gs.data) || k in sd)
      && (k in sd ==> res[k] == sd[k])
      && (k !in sd && k in Dereference(gs.data) ==> res[k] == Dereference(gs.data)[k])
    ensures var res := GraphStepDereference(gs, store, rs).value;
      forall n :: n in Namespaces ==> n in res && res[n].VList?
  {
    var step := store.steps[StrAttr(gs.data, "step_id").value];
    StepDereferenceFlattens(step, store.objects, rs);
  }
}
