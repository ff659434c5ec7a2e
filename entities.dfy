/**
 * The value objects of the newer package built on `DataStruct`: resource
 * references, object references, objects and steps.  Their constructors
 * replace the nested keyword dicts by reference objects in `_calculated`;
 * here those converted entries are typed fields beside the `DataStruct`,
 * `None` when the field was not passed (the attribute then is whatever
 * plain value the `DataStruct` holds, usually a schema default).
 */
module Entities {
  import opened Wrappers
  import opened Values
  import opened DataStructs
  import opened Conversions

  /** The schemas of the four kinds of value object. */
  datatype Schemas = Schemas(resRef: Schema, objRef: Schema, obj: Schema, step: Schema)

  datatype ResourceRef = ResourceRef(data: DataStruct)

  datatype ObjectRef = ObjectRef(data: DataStruct, images: Option<seq<ResourceRef>>)

  datatype Object = Object(data: DataStruct, images: Option<seq<ResourceRef>>)

  /** Durations in seconds; the five namespaces map an alias to a reference. */
  datatype Step = Step(
    data: DataStruct,
    duration: Option<nat>,
    waiting: Option<nat>,
    parts: Option<map<string, ObjectRef>>,
    tools: Option<map<string, ObjectRef>>,
    results: Option<map<string, ObjectRef>>,
    files: Option<map<string, ResourceRef>>,
    images: Option<map<string, ResourceRef>>)

  // ----- attribute reads -----

  /** A string attribute such as `obj_id`; a value of another type is treated as a TypeError. */
  function StrAttr(d: DataStruct, name: string): (r: Result<string>)
    ensures r.Success? <==> GetAttr(d, name).Success? && GetAttr(d, name).value.VStr?
    ensures r.Success? ==> GetAttr(d, name) == Success(VStr(r.value))
  {
    var v :- GetAttr(d, name);
    if v.VStr? then Success(v.s) else Failure(TypeError)
  }

  /** What `for x in v` visits: list items, dict keys, one-character strings; nothing else is iterable. */
  function Iterate(v: Value): Result<seq<Value>>
  {
    match v
    case VList(items) => Success(items)
    case VDict(fields) =>
      var keys := SortedKeys(fields.Keys);
      Success(seq(|keys|, i requires 0 <= i < |keys| => VStr(keys[i])))
    case VStr(s) => Success(seq(|s|, i requires 0 <= i < |s| => VStr([s[i]])))
    case _ => Failure(TypeError)
  }

  // ----- resource references -----

  /** `ResourceReference(**v)`: only a dict can be passed as keyword arguments. */
  function ResourceRefOf(schema: Schema, v: Value): Result<ResourceRef>
  {
    if !v.VDict? then Failure(TypeError)
    else
      var d :- Construct(schema, v.fields);
      Success(ResourceRef(d))
  }

  /** `ResourceReference.__init__` as a method: it builds exactly `ResourceRefOf`. */
  method NewResourceRef(schema: Schema, v: Value) returns (r: Result<ResourceRef>)
    ensures r == ResourceRefOf(schema, v)
  {
    if !v.VDict? {
      return Failure(TypeError);
    }
    var d := Create(schema, v.fields);
    if d.Failure? {
      return Failure(d.error);
    }
    return Success(ResourceRef(d.value));
  }

  /** `ResourceRefOf` as a function value, for the conversion loops. */
  function ResRefConverter(schema: Schema): Value -> Result<ResourceRef>
  {
    v => ResourceRefOf(schema, v)
  }

  /** The image list of an object: every entry of `v` converted, in order. */
  function ImagesOf(schema: Schema, v: Value): Result<seq<ResourceRef>>
  {
    var items :- Iterate(v);
    ConvertAll(ResRefConverter(schema), items, |items|)
  }

  /** The image loop of `Object.__init__`: append one reference per entry. */
  method NewImages(schema: Schema, v: Value) returns (r: Result<seq<ResourceRef>>)
    ensures r == ImagesOf(schema, v)
  {
    var it := Iterate(v);
    if it.Failure? {
      return Failure(it.error);
    }
    var items := it.value;
    var refs: seq<ResourceRef> := [];
    var i := 0;
    while i < |items|
      invariant 0 <= i <= |items|
      invariant ConvertAll(ResRefConverter(schema), items, i) == Success(refs)
    {
      var ref := NewResourceRef(schema, items[i]);
      if ref.Failure? {
        ConvertAllFails(ResRefConverter(schema), items, i, refs);
        return Failure(ref.error);
      }
      ConvertAllStep(ResRefConverter(schema), items, i, refs, ref.value);
      refs := refs + [ref.value];
      i := i + 1;
    }
    return Success(refs);
  }

  // ----- objects -----

  /** `Object(**kw)`: construct, then convert the images when they were passed. */
  function ObjectOf(schemas: Schemas, kw: Kwargs): Result<Object>
  {
    var d :- Construct(schemas.obj, kw);
    if "images" !in kw then Success(Object(d, None))
    else
      var refs :- ImagesOf(schemas.resRef, kw["images"]);
      Success(Object(d, Some(refs)))
  }

  /** `Object.__init__` as a method: it builds exactly `ObjectOf`. */
  method NewObject(schemas: Schemas, kw: Kwargs) returns (r: Result<Object>)
    ensures r == ObjectOf(schemas, kw)
  {
    var d := Create(schemas.obj, kw);
    if d.Failure? {
      return Failure(d.error);
    }
    if "images" !in kw {
      return Success(Object(d.value, None));
    }
    var refs := NewImages(schemas.resRef, kw["images"]);
    if refs.Failure? {
      return Failure(refs.error);
    }
    return Success(Object(d.value, Some(refs.value)));
  }

  // ----- object references -----

  /**
   * `assert not (self.created and self.optional)`: `optional` is read only
   * when `created` is truthy.
   */
  function CreatedOptionalCheck(d: DataStruct): (r: Result<()>)
    ensures r == Failure(AssertionError) <==>
      GetAttr(d, "created").Success? && Truthy(GetAttr(d, "created").value) &&
      GetAttr(d, "optional").Success? && Truthy(GetAttr(d, "optional").value)
  {
    var created :- GetAttr(d, "created");
    if !Truthy(created) then Success(())
    else
      var optional :- GetAttr(d, "optional");
      if Truthy(optional) then Failure(AssertionError) else Success(())
  }

  /** `ObjectReference(**kw)` with the image list built as in `Object`. */
  function ObjectRefOf(schemas: Schemas, kw: Kwargs): Result<ObjectRef>
  {
    var d :- Construct(schemas.objRef, kw);
    var images :- if "images" in kw then
        var refs :- ImagesOf(schemas.resRef, kw["images"]);
        Success(Some(refs))
      else Success(None);
    var _ :- CreatedOptionalCheck(d);
    Success(ObjectRef(d, images))
  }

  /**
   * The image loop as the source writes it: it assigns to index `i` of an
   * empty list, so the first entry that converts raises IndexError.
   */
  function ImagesAsWritten(schema: Schema, v: Value): Result<seq<ResourceRef>>
  {
    var items :- Iterate(v);
    if items == [] then Success([])
    else
      var _ :- ResourceRefOf(schema, items[0]);
      Failure(IndexError)
  }

  function ObjectRefOfAsWritten(schemas: Schemas, kw: Kwargs): Result<ObjectRef>
  {
    var d :- Construct(schemas.objRef, kw);
    var images :- if "images" in kw then
        var refs :- ImagesAsWritten(schemas.resRef, kw["images"]);
        Success(Some(refs))
      else Success(None);
    var _ :- CreatedOptionalCheck(d);
    Success(ObjectRef(d, images))
  }

  /** `ObjectReference.__init__` as a method: it builds exactly `ObjectRefOf`. */
  method NewObjectRef(schemas: Schemas, kw: Kwargs) returns (r: Result<ObjectRef>)
    ensures r == ObjectRefOf(schemas, kw)
  {
    var d := Create(schemas.objRef, kw);
    if d.Failure? {
      return Failure(d.error);
    }
    var images: Option<seq<ResourceRef>> := None;
    if "images" in kw {
      var refs := NewImages(schemas.resRef, kw["images"]);
      if refs.Failure? {
        return Failure(refs.error);
      }
      images := Some(refs.value);
    }
    var check := CreatedOptionalCheck(d.value);
    if check.Failure? {
      return Failure(check.error);
    }
    return Success(ObjectRef(d.value, images));
  }

  /** A constructed object reference is never both created and optional. */
  lemma ObjectRefNotCreatedAndOptional(schemas: Schemas, kw: Kwargs)
    requires ObjectRefOf(schemas, kw).Success?
    ensures var d := ObjectRefOf(schemas, kw).value.data;
      !(GetAttr(d, "created").Success? && Truthy(GetAttr(d, "created").value) &&
        GetAttr(d, "optional").Success? && Truthy(GetAttr(d, "optional").value))
  {
  }

  /** An image list with one convertible entry: rejected as written, kept when built by appending. */
  lemma ObjectRefImagesAsWrittenFail(schemas: Schemas, kw: Kwargs, img: Kwargs)
    requires Construct(schemas.objRef, kw).Success?
    requires "images" in kw && kw["images"] == VList([VDict(img)])
    requires Construct(schemas.resRef, img).Success?
    requires CreatedOptionalCheck(Construct(schemas.objRef, kw).value) == Success(())
    ensures ObjectRefOfAsWritten(schemas, kw) == Failure(IndexError)
    ensures ObjectRefOf(schemas, kw) ==
      Success(ObjectRef(Construct(schemas.objRef, kw).value, Some([ResourceRef(Construct(schemas.resRef, img).value)])))
  {
    var ref := ResourceRef(Construct(schemas.resRef, img).value);
    assert ConvertAll(ResRefConverter(schemas.resRef), [VDict(img)], 1) == Success([] + [ref]);
    assert [] + [ref] == [ref];
  }

  /** Without images, or with an empty list, both readings agree. */
  lemma ObjectRefAsWrittenAgreesWithoutImages(schemas: Schemas, kw: Kwargs)
    requires "images" !in kw || kw["images"] == VList([])
    ensures ObjectRefOfAsWritten(schemas, kw) == ObjectRefOf(schemas, kw)
  {
  }

  // ----- steps -----

  /** Seconds per keyword of `timedelta` that the model accepts. */
  const TimeUnits: map<string, nat> := map["weeks" := 604800, "days" := 86400, "hours" := 3600, "minutes" := 60, "seconds" := 1]

  /** One keyword's share of a time span, 0 when absent. */
  function UnitSeconds(fields: map<string, Value>, unit: string): nat
    requires unit in TimeUnits
    requires unit in fields ==> AsInt(fields[unit]).Some? && AsInt(fields[unit]).value >= 0
  {
    if unit in fields then AsInt(fields[unit]).value * TimeUnits[unit] else 0
  }

  /** Every keyword is a known unit with a non-negative integer amount. */
  predicate WholeTimeSpan(fields: map<string, Value>)
  {
    forall k :: k in fields ==> k in TimeUnits && AsInt(fields[k]).Some? && AsInt(fields[k]).value >= 0
  }

  /** `timedelta(**v)` in whole seconds. */
  function TimedeltaSeconds(v: Value): Result<nat>
  {
    if v.VDict? && WholeTimeSpan(v.fields) then
      Success(UnitSeconds(v.fields, "weeks") + UnitSeconds(v.fields, "days") + UnitSeconds(v.fields, "hours")
              + UnitSeconds(v.fields, "minutes") + UnitSeconds(v.fields, "seconds"))
    else Failure(TypeError)
  }

  /** A span given in one unit is that many times the unit's seconds. */
  lemma TimedeltaOneUnit(unit: string, n: nat)
    requires unit in TimeUnits
    ensures TimedeltaSeconds(VDict(map[unit := VInt(n)])) == Success(n * TimeUnits[unit])
  {
    var f := map[unit := VInt(n)];
    assert WholeTimeSpan(f);
    assert forall u :: u in TimeUnits && u != unit ==> UnitSeconds(f, u) == 0;
  }

  /** Amounts given in several units add up. */
  lemma TimedeltaAdds(f: map<string, Value>, unit: string, n: nat)
    requires unit in TimeUnits && unit !in f
    requires TimedeltaSeconds(VDict(f)).Success?
    ensures TimedeltaSeconds(VDict(f[unit := VInt(n)])) ==
      Success(TimedeltaSeconds(VDict(f)).value + n * TimeUnits[unit])
  {
    var g := f[unit := VInt(n)];
    assert WholeTimeSpan(g);
    UnitSecondsAdded(f, unit, n, "weeks");
    UnitSecondsAdded(f, unit, n, "days");
    UnitSecondsAdded(f, unit, n, "hours");
    UnitSecondsAdded(f, unit, n, "minutes");
    UnitSecondsAdded(f, unit, n, "seconds");
  }

  /** Adding `n` of `unit` changes that unit's share alone. */
  lemma UnitSecondsAdded(f: map<string, Value>, unit: string, n: nat, u: string)
    requires unit in TimeUnits && unit !in f && u in TimeUnits
    requires WholeTimeSpan(f)
    ensures WholeTimeSpan(f[unit := VInt(n)])
    ensures UnitSeconds(f[unit := VInt(n)], u) == UnitSeconds(f, u) + if u == unit then n * TimeUnits[unit] else 0
  {
  }

  /** `timedelta(**kw[name])` when `name` was passed. */
  function TimeField(kw: Kwargs, name: string): Result<Option<nat>>
  {
    if name !in kw then Success(None)
    else
      var secs :- TimedeltaSeconds(kw[name]);
      Success(Some(secs))
  }

  /** `ObjectReference(**v)` for one namespace entry. */
  function ObjectRefFromValue(schemas: Schemas, v: Value): Result<ObjectRef>
  {
    if v.VDict? then ObjectRefOf(schemas, v.fields) else Failure(TypeError)
  }

  /** `ObjectRefFromValue` as a function value, for the conversion loops. */
  function ObjRefConverter(schemas: Schemas): Value -> Result<ObjectRef>
  {
    v => ObjectRefFromValue(schemas, v)
  }

  /**
   * An object namespace (`parts`, `tools`, `results`) when passed: it must
   * be a dict (`iteritems`), each entry converted; entries are visited in
   * sorted alias order.
   */
  function ObjNamespace(schemas: Schemas, kw: Kwargs, nsp: string): Result<Option<map<string, ObjectRef>>>
  {
    if nsp !in kw then Success(None)
    else if !kw[nsp].VDict? then Failure(AttributeError("iteritems"))
    else
      var keys := SortedKeys(kw[nsp].fields.Keys);
      var m :- ConvertEntries(ObjRefConverter(schemas), kw[nsp].fields, keys, |keys|);
      Success(Some(m))
  }

  function ResNamespace(schemas: Schemas, kw: Kwargs, nsp: string): Result<Option<map<string, ResourceRef>>>
  {
    if nsp !in kw then Success(None)
    else if !kw[nsp].VDict? then Failure(AttributeError("iteritems"))
    else
      var keys := SortedKeys(kw[nsp].fields.Keys);
      var m :- ConvertEntries(ResRefConverter(schemas.resRef), kw[nsp].fields, keys, |keys|);
      Success(Some(m))
  }

  /**
   * `for x in <nsp>.values(): x.<attr>` over a namespace that was not
   * converted: anything but a dict has no `values`, and the first entry of
   * a plain dict has no attribute `attr`, so only an empty dict is walked.
   */
  function PlainNamespace(d: DataStruct, nsp: string, attr: string): Result<()>
  {
    var v :- GetAttr(d, nsp);
    if !v.VDict? then Failure(AttributeError("values"))
    else if v.fields == map[] then Success(())
    else Failure(AttributeError(attr))
  }

  /**
   * Walking a plain namespace: KeyError or AttributeError from reading it,
   * AttributeError for `values` when it is not a dict, AttributeError for
   * `attr` when it has an entry, and success exactly for an empty dict.
   */
  lemma PlainNamespaceWalked(d: DataStruct, nsp: string, attr: string)
    ensures GetAttr(d, nsp).Failure? ==> PlainNamespace(d, nsp, attr) == Failure(GetAttr(d, nsp).error)
    ensures GetAttr(d, nsp).Success? ==>
      var v := GetAttr(d, nsp).value;
      && (PlainNamespace(d, nsp, attr).Success? <==> v == VDict(map[]))
      && (!v.VDict? ==> PlainNamespace(d, nsp, attr) == Failure(AttributeError("values")))
      && (v.VDict? && v.fields != map[] ==> PlainNamespace(d, nsp, attr) == Failure(AttributeError(attr)))
  {
  }

  /** Checking `res.created` for `keys[i..]` of the results. */
  function AllCreated(results: map<string, ObjectRef>, keys: seq<string>, i: nat): (r: Result<()>)
    requires i <= |keys| && forall k :: k in keys ==> k in results
    ensures r.Success? <==> forall j :: i <= j < |keys| ==>
      GetAttr(results[keys[j]].data, "created").Success? && Truthy(GetAttr(results[keys[j]].data, "created").value)
    decreases |keys| - i
  {
    if i == |keys| then Success(())
    else
      var created :- GetAttr(results[keys[i]].data, "created");
      if !Truthy(created) then Failure(AssertionError)
      else AllCreated(results, keys, i + 1)
  }

  /** `for res in self.results.values(): assert res.created`. */
  function ResultsCreated(s: Step): Result<()>
  {
    match s.results
    case None => PlainNamespace(s.data, "results", "created")
    case Some(m) => AllCreated(m, SortedKeys(m.Keys), 0)
  }

  /** `Step(**kw)`: construct, convert the two time spans and the five namespaces, then check the results. */
  function StepOf(schemas: Schemas, kw: Kwargs): (r: Result<Step>)
    ensures r.Success? ==> ResultsCreated(r.value).Success?
    ensures r.Success? ==> TimeField(kw, "duration") == Success(r.value.duration)
    ensures r.Success? ==> TimeField(kw, "waiting") == Success(r.value.waiting)
  {
    var d :- Construct(schemas.step, kw);
    var duration :- TimeField(kw, "duration");
    var waiting :- TimeField(kw, "waiting");
    var parts :- ObjNamespace(schemas, kw, "parts");
    var tools :- ObjNamespace(schemas, kw, "tools");
    var results :- ObjNamespace(schemas, kw, "results");
    var files :- ResNamespace(schemas, kw, "files");
    var images :- ResNamespace(schemas, kw, "images");
    var s := Step(d, duration, waiting, parts, tools, results, files, images);
    var _ :- ResultsCreated(s);
    Success(s)
  }

  /** `ObjectReference(**v)` for one namespace entry. */
  method NewObjRefEntry(schemas: Schemas, v: Value) returns (r: Result<ObjectRef>)
    ensures r == ObjRefConverter(schemas)(v)
  {
    if v.VDict? {
      r := NewObjectRef(schemas, v.fields);
    } else {
      r := Failure(TypeError);
    }
  }

  /** The loop over the entries `keys` of one object namespace. */
  method NewObjRefs(schemas: Schemas, fields: map<string, Value>, keys: seq<string>) returns (r: Result<map<string, ObjectRef>>)
    requires forall k :: k in keys ==> k in fields
    ensures r == ConvertEntries(ObjRefConverter(schemas), fields, keys, |keys|)
  {
    var m: map<string, ObjectRef> := map[];
    var i := 0;
    while i < |keys|
      invariant 0 <= i <= |keys|
      invariant ConvertEntries(ObjRefConverter(schemas), fields, keys, i) == Success(m)
    {
      var ref := NewObjRefEntry(schemas, fields[keys[i]]);
      if ref.Failure? {
        ConvertEntriesFails(ObjRefConverter(schemas), fields, keys, i, m);
        return Failure(ref.error);
      }
      ConvertEntriesStep(ObjRefConverter(schemas), fields, keys, i, m, ref.value);
      m := m[keys[i] := ref.value];
      i := i + 1;
    }
    return Success(m);
  }

  /** The loop over the entries `keys` of one resource namespace. */
  method NewResRefs(schema: Schema, fields: map<string, Value>, keys: seq<string>) returns (r: Result<map<string, ResourceRef>>)
    requires forall k :: k in keys ==> k in fields
    ensures r == ConvertEntries(ResRefConverter(schema), fields, keys, |keys|)
  {
    var m: map<string, ResourceRef> := map[];
    var i := 0;
    while i < |keys|
      invariant 0 <= i <= |keys|
      invariant ConvertEntries(ResRefConverter(schema), fields, keys, i) == Success(m)
    {
      var ref := NewResourceRef(schema, fields[keys[i]]);
      if ref.Failure? {
        ConvertEntriesFails(ResRefConverter(schema), fields, keys, i, m);
        return Failure(ref.error);
      }
      ConvertEntriesStep(ResRefConverter(schema), fields, keys, i, m, ref.value);
      m := m[keys[i] := ref.value];
      i := i + 1;
    }
    return Success(m);
  }

  /** One object namespace of `Step.__init__`. */
  method NewObjNamespace(schemas: Schemas, kw: Kwargs, nsp: string) returns (r: Result<Option<map<string, ObjectRef>>>)
    ensures r == ObjNamespace(schemas, kw, nsp)
  {
    if nsp !in kw {
      return Success(None);
    }
    if !kw[nsp].VDict? {
      return Failure(AttributeError("iteritems"));
    }
    var m := NewObjRefs(schemas, kw[nsp].fields, SortedKeys(kw[nsp].fields.Keys));
    if m.Failure? {
      return Failure(m.error);
    }
    return Success(Some(m.value));
  }

  /** One resource namespace of `Step.__init__`. */
  method NewResNamespace(schemas: Schemas, kw: Kwargs, nsp: string) returns (r: Result<Option<map<string, ResourceRef>>>)
    ensures r == ResNamespace(schemas, kw, nsp)
  {
    if nsp !in kw {
      return Success(None);
    }
    if !kw[nsp].VDict? {
      return Failure(AttributeError("iteritems"));
    }
    var m := NewResRefs(schemas.resRef, kw[nsp].fields, SortedKeys(kw[nsp].fields.Keys));
    if m.Failure? {
      return Failure(m.error);
    }
    return Success(Some(m.value));
  }

  /** `Step.__init__`, field by field. */
  method NewStep(schemas: Schemas, kw: Kwargs) returns (r: Result<Step>)
    ensures r == StepOf(schemas, kw)
  {
    var d := Create(schemas.step, kw);
    if d.Failure? {
      return Failure(d.error);
    }
    var duration := TimeField(kw, "duration");
    if duration.Failure? {
      return Failure(duration.error);
    }
    var waiting := TimeField(kw, "waiting");
    if waiting.Failure? {
      return Failure(waiting.error);
    }
    var parts := NewObjNamespace(schemas, kw, "parts");
    if parts.Failure? {
      return Failure(parts.error);
    }
    var tools := NewObjNamespace(schemas, kw, "tools");
    if tools.Failure? {
      return Failure(tools.error);
    }
    var results := NewObjNamespace(schemas, kw, "results");
    if results.Failure? {
      return Failure(results.error);
    }
    var files := NewResNamespace(schemas, kw, "files");
    if files.Failure? {
      return Failure(files.error);
    }
    var images := NewResNamespace(schemas, kw, "images");
    if images.Failure? {
      return Failure(images.error);
    }
    var s := Step(d.value, duration.value, waiting.value, parts.value, tools.value, results.value, files.value, images.value);
    var check := ResultsCreated(s);
    if check.Failure? {
      return Failure(check.error);
    }
    return Success(s);
  }

  /** Every result of a step that passed the check is created. */
  lemma StepResultsAreCreated(s: Step, alias: string)
    requires ResultsCreated(s).Success?
    requires s.results.Some? && alias in s.results.value
    ensures var ref := s.results.value[alias];
      GetAttr(ref.data, "created").Success? && Truthy(GetAttr(ref.data, "created").value)
  {
    var keys := SortedKeys(s.results.value.Keys);
    assert alias in keys;
    var j :| 0 <= j < |keys| && keys[j] == alias;
  }

  /** A step with a result that is not created is rejected with AssertionError. */
  lemma StepRejectsUncreatedResult(schemas: Schemas, kw: Kwargs, s: Step)
    requires s.results.Some? && ResultsCreated(s).Failure?
    requires forall alias :: alias in s.results.value ==> GetAttr(s.results.value[alias].data, "created").Success?
    ensures ResultsCreated(s) == Failure(AssertionError)
  {
    var m := s.results.value;
    AllCreatedFailsWithAssertion(m, SortedKeys(m.Keys), 0);
  }

  lemma {:induction false} AllCreatedFailsWithAssertion(results: map<string, ObjectRef>, keys: seq<string>, i: nat)
    requires i <= |keys| && forall k :: k in keys ==> k in results
    requires forall k :: k in keys ==> GetAttr(results[k].data, "created").Success?
    requires AllCreated(results, keys, i).Failure?
    ensures AllCreated(results, keys, i) == Failure(AssertionError)
    decreases |keys| - i
  {
    assert keys[i] in keys;
    if Truthy(GetAttr(results[keys[i]].data, "created").value) {
      AllCreatedFailsWithAssertion(results, keys, i + 1);
    }
  }

  // ----- dereference -----

  /** A store that can look resources up, as `ResourceReference.dereference` needs. */
  datatype ResourceStore = ResourceStore(resources: map<string, Kwargs>, paths: map<string, string>)

  /** `ResourceReference.dereference`: own fields, then the resource's, then its URL. */
  function ResourceRefDereference(ref: ResourceRef, rs: ResourceStore): Result<Kwargs>
  {
    var id :- StrAttr(ref.data, "res_id");
    if id !in rs.resources || id !in rs.paths then Failure(KeyError(id))
    else Success((Dereference(ref.data) + rs.resources[id])["url" := VStr("file://" + rs.paths[id])])
  }

  /**
   * A dereferenced resource reference exists exactly when its `res_id` is a
   * stored resource; it then holds the URL of the resource's path, the
   * resource's fields, and the reference's own fields the resource does not
   * override.  An unknown resource is a KeyError.
   */
  lemma ResourceRefDereferenceOverlay(ref: ResourceRef, rs: ResourceStore)
    requires StrAttr(ref.data, "res_id").Success?
    ensures var id := StrAttr(ref.data, "res_id").value;
      ResourceRefDereference(ref, rs).Success? <==> id in rs.resources && id in rs.paths
    ensures var id := StrAttr(ref.data, "res_id").value;
      ResourceRefDereference(ref, rs).Failure? ==> ResourceRefDereference(ref, rs).error == KeyError(id)
    ensures ResourceRefDereference(ref, rs).Success? ==>
      var id := StrAttr(ref.data, "res_id").value;
      var res := ResourceRefDereference(ref, rs).value;
      && "url" in res && res["url"] == VStr("file://" + rs.paths[id])
      && (forall k :: k != "url" ==> (k in res <==> k in Dereference(ref.data) || k in rs.resources[id]))
      && (forall k :: k != "url" && k in rs.resources[id] ==> res[k] == rs.resources[id][k])
      && (forall k :: k != "url" && k !in rs.resources[id] && k in Dereference(ref.data) ==> res[k] == Dereference(ref.data)[k])
  {
  }

  /** A dereferenced entry of a flattened list: the dict of its fields. */
  function DictValue(r: Result<Kwargs>): Result<Value>
  {
    var d :- r;
    Success(VDict(d))
  }

  function ResRefDereferencer(rs: ResourceStore): ResourceRef -> Result<Value>
  {
    ref => DictValue(ResourceRefDereference(ref, rs))
  }

  /**
   * A plain value where references were expected: walking it is a TypeError
   * unless it is iterable, and its first entry has no `dereference`.
   */
  function PlainImages(v: Value): Result<seq<ResourceRef>>
  {
    var items :- Iterate(v);
    if items == [] then Success([]) else Failure(AttributeError("dereference"))
  }

  /**
   * The `images` entry left after the overlays: the object's converted list,
   * else its plain value, else the reference's converted list, else its plain
   * value; KeyError when none has one.
   */
  function ImageSource(ref: ObjectRef, obj: Object): Result<seq<ResourceRef>>
  {
    if obj.images.Some? then Success(obj.images.value)
    else if "images" in Dereference(obj.data) then PlainImages(Dereference(obj.data)["images"])
    else if ref.images.Some? then Success(ref.images.value)
    else if "images" in Dereference(ref.data) then PlainImages(Dereference(ref.data)["images"])
    else Failure(KeyError("images"))
  }

  /**
   * `ObjectReference.dereference`: the reference's fields, overlaid by the
   * stored object's, with `images` replaced by the dereferenced image list.
   */
  function ObjectRefDereference(ref: ObjectRef, objects: map<string, Object>, rs: ResourceStore): Result<Kwargs>
  {
    var id :- StrAttr(ref.data, "obj_id");
    if id !in objects then Failure(KeyError(id))
    else
      var obj := objects[id];
      var refs :- ImageSource(ref, obj);
      var images :- ConvertAll(ResRefDereferencer(rs), refs, |refs|);
      Success(Dereference(ref.data) + Dereference(obj.data) + map["images" := VList(images)])
  }

  /**
   * Object fields win over reference fields, fields only the reference has
   * (quantity, optional) survive, and `images` holds one dereferenced entry
   * per image.
   */
  lemma ObjectRefDereferenceOverlay(ref: ObjectRef, objects: map<string, Object>, rs: ResourceStore, k: string)
    requires ObjectRefDereference(ref, objects, rs).Success?
    requires k != "images"
    ensures var res := ObjectRefDereference(ref, objects, rs).value;
      var obj := objects[StrAttr(ref.data, "obj_id").value];
      && (k in res <==> k in Dereference(ref.data) || k in Dereference(obj.data))
      && (k in Dereference(obj.data) ==> res[k] == Dereference(obj.data)[k])
      && (k !in Dereference(obj.data) && k in Dereference(ref.data) ==> res[k] == Dereference(ref.data)[k])
    ensures var res := ObjectRefDereference(ref, objects, rs).value;
      var obj := objects[StrAttr(ref.data, "obj_id").value];
      "images" in res && res["images"].VList? && |res["images"].items| == |ImageSource(ref, obj).value|
    ensures var res := ObjectRefDereference(ref, objects, rs).value;
      var refs := ImageSource(ref, objects[StrAttr(ref.data, "obj_id").value]).value;
      forall i :: 0 <= i < |refs| ==>
        ResourceRefDereference(refs[i], rs).Success? && res["images"].items[i] == VDict(ResourceRefDereference(refs[i], rs).value)
  {
    var refs := ImageSource(ref, objects[StrAttr(ref.data, "obj_id").value]).value;
    ConvertAllElements(ResRefDereferencer(rs), refs, |refs|);
  }

  function ObjRefDereferencer(objects: map<string, Object>, rs: ResourceStore): ObjectRef -> Result<Value>
  {
    ref => DictValue(ObjectRefDereference(ref, objects, rs))
  }

  /**
   * A namespace that was not converted: anything but a dict has no
   * `values`, and an entry of a plain dict has no `dereference`, so only
   * an empty dict flattens (to the empty list).
   */
  function PlainFlatten(base: Kwargs, nsp: string): Result<seq<Value>>
  {
    if nsp !in base then Failure(KeyError(nsp))
    else if !base[nsp].VDict? then Failure(AttributeError("values"))
    else if base[nsp].fields == map[] then Success([])
    else Failure(AttributeError("dereference"))
  }

  /**
   * `l` is the flattened list of an object namespace: for a converted one,
   * the dereferenced entries in alias order; otherwise the empty list.
   */
  ghost predicate ObjEntries(nsp: Option<map<string, ObjectRef>>, l: seq<Value>, objects: map<string, Object>, rs: ResourceStore)
  {
    match nsp
    case None => l == []
    case Some(m) =>
      var keys := SortedKeys(m.Keys);
      && |l| == |keys|
      && forall i :: 0 <= i < |keys| ==>
           ObjectRefDereference(m[keys[i]], objects, rs).Success? && l[i] == VDict(ObjectRefDereference(m[keys[i]], objects, rs).value)
  }

  /** The same for a resource namespace. */
  ghost predicate ResEntries(nsp: Option<map<string, ResourceRef>>, l: seq<Value>, rs: ResourceStore)
  {
    match nsp
    case None => l == []
    case Some(m) =>
      var keys := SortedKeys(m.Keys);
      && |l| == |keys|
      && forall i :: 0 <= i < |keys| ==>
           ResourceRefDereference(m[keys[i]], rs).Success? && l[i] == VDict(ResourceRefDereference(m[keys[i]], rs).value)
  }

  function FlattenObjNamespace(nsp: Option<map<string, ObjectRef>>, base: Kwargs, name: string,
                               objects: map<string, Object>, rs: ResourceStore): (r: Result<seq<Value>>)
    ensures r.Success? && nsp.Some? ==> |r.value| == |nsp.value|
  {
    match nsp
    case None => PlainFlatten(base, name)
    case Some(m) => var keys := SortedKeys(m.Keys); ConvertAll(ObjRefDereferencer(objects, rs), ValuesAt(m, keys), |keys|)
  }

  function FlattenResNamespace(nsp: Option<map<string, ResourceRef>>, base: Kwargs, name: string,
                               rs: ResourceStore): (r: Result<seq<Value>>)
    ensures r.Success? && nsp.Some? ==> |r.value| == |nsp.value|
  {
    match nsp
    case None => PlainFlatten(base, name)
    case Some(m) => var keys := SortedKeys(m.Keys); ConvertAll(ResRefDereferencer(rs), ValuesAt(m, keys), |keys|)
  }

  /**
   * A converted object namespace flattens exactly when every entry
   * dereferences, to the dereferenced entries in alias order; a plain one
   * only to the empty list.
   */
  lemma FlattenObjEntries(nsp: Option<map<string, ObjectRef>>, base: Kwargs, name: string,
                          objects: map<string, Object>, rs: ResourceStore)
    ensures nsp.Some? ==> (FlattenObjNamespace(nsp, base, name, objects, rs).Success? <==>
      forall a :: a in nsp.value ==> ObjectRefDereference(nsp.value[a], objects, rs).Success?)
    ensures FlattenObjNamespace(nsp, base, name, objects, rs).Success? ==>
      ObjEntries(nsp, FlattenObjNamespace(nsp, base, name, objects, rs).value, objects, rs)
  {
    if nsp.Some? {
      var m, f := nsp.value, ObjRefDereferencer(objects, rs);
      var keys := SortedKeys(m.Keys);
      assert FlattenObjNamespace(nsp, base, name, objects, rs) == ConvertAll(f, ValuesAt(m, keys), |keys|);
      ConvertValues(f, m);
      forall a | a in m ensures f(m[a]) == DictValue(ObjectRefDereference(m[a], objects, rs)) {
      }
    }
  }

  /** The same for a resource namespace. */
  lemma FlattenResEntries(nsp: Option<map<string, ResourceRef>>, base: Kwargs, name: string, rs: ResourceStore)
    ensures nsp.Some? ==> (FlattenResNamespace(nsp, base, name, rs).Success? <==>
      forall a :: a in nsp.value ==> ResourceRefDereference(nsp.value[a], rs).Success?)
    ensures FlattenResNamespace(nsp, base, name, rs).Success? ==>
      ResEntries(nsp, FlattenResNamespace(nsp, base, name, rs).value, rs)
  {
    if nsp.Some? {
      var m, f := nsp.value, ResRefDereferencer(rs);
      var keys := SortedKeys(m.Keys);
      assert FlattenResNamespace(nsp, base, name, rs) == ConvertAll(f, ValuesAt(m, keys), |keys|);
      ConvertValues(f, m);
      forall a | a in m ensures f(m[a]) == DictValue(ResourceRefDereference(m[a], rs)) {
      }
    }
  }

  /** The fields of a step before flattening: its `DataStruct` and the converted time spans, in seconds. */
  function StepBase(s: Step): Kwargs
  {
    var base := Dereference(s.data);
    var withDuration := if s.duration.Some? then base["duration" := VInt(s.duration.value)] else base;
    if s.waiting.Some? then withDuration["waiting" := VInt(s.waiting.value)] else withDuration
  }

  const Namespaces: set<string> := {"parts", "tools", "results", "images", "files"}

  /** The flattened namespaces as fields: each name holds its list. */
  function NamespaceLists(parts: seq<Value>, tools: seq<Value>, results: seq<Value>, images: seq<Value>, files: seq<Value>)
    : (r: Kwargs)
    ensures r.Keys == Namespaces
    ensures r["parts"] == VList(parts) && r["tools"] == VList(tools) && r["results"] == VList(results)
    ensures r["images"] == VList(images) && r["files"] == VList(files)
  {
    assert "parts"[0] == 'p' && "tools"[0] == 't' && "results"[0] == 'r' && "images"[0] == 'i' && "files"[0] == 'f';
    map["parts" := VList(parts), "tools" := VList(tools), "results" := VList(results),
        "images" := VList(images), "files" := VList(files)]
  }

  /** The five namespaces, each flattened to the list of its dereferenced entries. */
  function FlattenNamespaces(s: Step, base: Kwargs, objects: map<string, Object>, rs: ResourceStore): Result<Kwargs>
  {
    var parts :- FlattenObjNamespace(s.parts, base, "parts", objects, rs);
    var tools :- FlattenObjNamespace(s.tools, base, "tools", objects, rs);
    var results :- FlattenObjNamespace(s.results, base, "results", objects, rs);
    var images :- FlattenResNamespace(s.images, base, "images", rs);
    var files :- FlattenResNamespace(s.files, base, "files", rs);
    Success(NamespaceLists(parts, tools, results, images, files))
  }

  /**
   * Each flattened namespace is a list: for a converted namespace the
   * dereferenced entries in alias order, otherwise the empty list.
   */
  lemma FlattenNamespacesShape(s: Step, base: Kwargs, objects: map<string, Object>, rs: ResourceStore)
    requires FlattenNamespaces(s, base, objects, rs).Success?
    ensures var ns := FlattenNamespaces(s, base, objects, rs).value;
      ns.Keys == Namespaces && forall k :: k in Namespaces ==> ns[k].VList?
    ensures var ns := FlattenNamespaces(s, base, objects, rs).value;
      && ObjEntries(s.parts, ns["parts"].items, objects, rs)
      && ObjEntries(s.tools, ns["tools"].items, objects, rs)
      && ObjEntries(s.results, ns["results"].items, objects, rs)
      && ResEntries(s.images, ns["images"].items, rs)
      && ResEntries(s.files, ns["files"].items, rs)
  {
    var parts := FlattenObjNamespace(s.parts, base, "parts", objects, rs).value;
    var tools := FlattenObjNamespace(s.tools, base, "tools", objects, rs).value;
    var results := FlattenObjNamespace(s.results, base, "results", objects, rs).value;
    var images := FlattenResNamespace(s.images, base, "images", rs).value;
    var files := FlattenResNamespace(s.files, base, "files", rs).value;
    FlattenObjEntries(s.parts, base, "parts", objects, rs);
    FlattenObjEntries(s.tools, base, "tools", objects, rs);
    FlattenObjEntries(s.results, base, "results", objects, rs);
    FlattenResEntries(s.images, base, "images", rs);
    FlattenResEntries(s.files, base, "files", rs);
    assert FlattenNamespaces(s, base, objects, rs).value == NamespaceLists(parts, tools, results, images, files);
  }

  /**
   * `Step.dereference`: the step's fields, with every namespace replaced by
   * the list of its dereferenced entries.  It keeps every other field, and a
   * converted namespace becomes its dereferenced entries in alias order.
   */
  function StepDereference(s: Step, objects: map<string, Object>, rs: ResourceStore): Result<Kwargs>
  {
    var base := StepBase(s);
    var ns :- FlattenNamespaces(s, base, objects, rs);
    Success(base + ns)
  }

  lemma StepDereferenceFlattens(s: Step, objects: map<string, Object>, rs: ResourceStore)
    requires StepDereference(s, objects, rs).Success?
    ensures var res := StepDereference(s, objects, rs).value;
      && res.Keys == StepBase(s).Keys + Namespaces
      && (forall k :: k in StepBase(s) && k !in Namespaces ==> res[k] == StepBase(s)[k])
      && (forall k :: k in Namespaces ==> res[k].VList?)
    ensures var res := StepDereference(s, objects, rs).value;
      && ObjEntries(s.parts, res["parts"].items, objects, rs)
      && ObjEntries(s.tools, res["tools"].items, objects, rs)
      && ObjEntries(s.results, res["results"].items, objects, rs)
      && ResEntries(s.images, res["images"].items, rs)
      && ResEntries(s.files, res["files"].items, rs)
  {
    FlattenNamespacesShape(s, StepBase(s), objects, rs);
  }
}
