/**
 * `DataStruct`, the base of every value object of the newer package: the
 * constructor keyword arguments are kept as given, schema defaults for the
 * fields that were not passed are kept beside them, and attribute access
 * looks at the defaults first.  Also the key-sorted token stream that the
 * checksum functions feed to the hash.
 */
module DataStructs {
  import opened Wrappers
  import opened Values

  /** One entry of a JSON schema's "properties". */
  datatype Property = Property(default: Option<Value>)

  /**
   * The parts of a JSON schema the constructor reads: the properties, the
   * required field names, and the verdict of schema validation, which is
   * left abstract.
   */
  datatype Schema = Schema(properties: map<string, Property>, required: set<string>, accepts: Kwargs -> bool)

  /** `_kwargs` as passed to the constructor and `_calculated`, the values filled in later. */
  datatype DataStruct = DataStruct(kwargs: Kwargs, calculated: Kwargs)

  /** Some optional property has no default: construction raises ValueError. */
  predicate LacksDefault(schema: Schema)
  {
    exists f :: f in schema.properties && f !in schema.required && schema.properties[f].default.None?
  }

  /** The defaults of the properties that were not passed. */
  function Defaults(schema: Schema, kwargs: Kwargs): Kwargs
  {
    map f | f in schema.properties && f !in kwargs && schema.properties[f].default.Some? :: schema.properties[f].default.value
  }

  /** The outcome of `DataStruct.__init__`, as a value. */
  function Construct(schema: Schema, kwargs: Kwargs): Result<DataStruct>
  {
    if !schema.accepts(kwargs) then Failure(ValidationError)
    else if LacksDefault(schema) then Failure(ValueError)
    else Success(DataStruct(kwargs, Defaults(schema, kwargs)))
  }

  /**
   * `DataStruct.__init__`: validate, then visit the schema properties in
   * any order, failing on an optional property without a default and
   * copying the default of every property that was not passed.
   */
  method Create(schema: Schema, kwargs: Kwargs) returns (r: Result<DataStruct>)
    ensures r == Construct(schema, kwargs)
  {
    if !schema.accepts(kwargs) {
      return Failure(ValidationError);
    }
    var calculated: Kwargs := map[];
    var todo := schema.properties.Keys;
    while todo != {}
      invariant todo <= schema.properties.Keys
      invariant forall f :: f in schema.properties && f !in todo ==> f in schema.required || schema.properties[f].default.Some?
      invariant calculated == map f | f in schema.properties && f !in todo && f !in kwargs && schema.properties[f].default.Some? :: schema.properties[f].default.value
      decreases todo
    {
      var field :| field in todo;
      var prop := schema.properties[field];
      if field !in schema.required && prop.default.None? {
        assert LacksDefault(schema);
        return Failure(ValueError);
      }
      if field !in kwargs && prop.default.Some? {
        calculated := calculated[field := prop.default.value];
      }
      todo := todo - {field};
    }
    assert calculated == Defaults(schema, kwargs);
    r := Success(DataStruct(kwargs, calculated));
  }

  /** `__getattr__`: a calculated value hides a passed one; an unknown name raises AttributeError. */
  function GetAttr(d: DataStruct, name: string): Result<Value>
  {
    if name in d.calculated then Success(d.calculated[name])
    else if name in d.kwargs then Success(d.kwargs[name])
    else Failure(AttributeError(name))
  }

  /** `as_dict`: the constructor arguments. */
  function AsDict(d: DataStruct): Kwargs
  {
    d.kwargs
  }

  /** `DataStruct.dereference`: the arguments overlaid by the calculated values. */
  function Dereference(d: DataStruct): Kwargs
  {
    d.kwargs + d.calculated
  }

  /** After construction `_calculated` holds exactly the defaults of the fields that were not passed. */
  lemma DefaultsOnlyForAbsentFields(schema: Schema, kwargs: Kwargs, d: DataStruct)
    requires Construct(schema, kwargs) == Success(d)
    ensures d.kwargs == kwargs
    ensures forall f :: f in d.calculated ==> f !in kwargs && f in schema.properties && schema.properties[f].default == Some(d.calculated[f])
    ensures forall f :: f in schema.properties && f !in kwargs && f !in schema.required ==> f in d.calculated
  {
  }

  /** A schema with an optional property that has no default makes every valid construction fail. */
  lemma MissingDefaultRejected(schema: Schema, kwargs: Kwargs, f: string)
    requires schema.accepts(kwargs)
    requires f in schema.properties && f !in schema.required && schema.properties[f].default.None?
    ensures Construct(schema, kwargs) == Failure(ValueError)
  {
  }

  /** Attribute access after construction: the passed value, else the default, else AttributeError. */
  lemma GetAttrAfterConstruct(schema: Schema, kwargs: Kwargs, d: DataStruct, name: string)
    requires Construct(schema, kwargs) == Success(d)
    ensures name in kwargs ==> GetAttr(d, name) == Success(kwargs[name])
    ensures name !in kwargs && name in schema.properties && schema.properties[name].default.Some? ==>
              GetAttr(d, name) == Success(schema.properties[name].default.value)
    ensures name !in kwargs && (name !in schema.properties || schema.properties[name].default.None?) ==>
              GetAttr(d, name) == Failure(AttributeError(name))
  {
  }

  /** Rebuilding from `as_dict` gives back the same data structure. */
  lemma AsDictRoundTrip(schema: Schema, kwargs: Kwargs, d: DataStruct)
    requires Construct(schema, kwargs) == Success(d)
    ensures Construct(schema, AsDict(d)) == Success(d)
  {
  }

  /** `dereference` and `__getattr__` agree: its keys are the union, and calculated values win. */
  lemma DereferenceAgreesWithGetAttr(d: DataStruct, name: string)
    ensures name in Dereference(d) <==> GetAttr(d, name).Success?
    ensures name in Dereference(d) ==> GetAttr(d, name) == Success(Dereference(d)[name])
    ensures Dereference(d).Keys == d.kwargs.Keys + d.calculated.Keys
  {
  }

  // ----- checksum input -----

  /**
   * The range of a Python 2 `int` on a 64-bit platform (`-sys.maxint - 1`
   * to `sys.maxint`); an integer outside it is a `long`, which fails the
   * `isinstance(x, int)` test.
   */
  const PyIntMin: int := -0x8000_0000_0000_0000
  const PyIntMax: int := 0x7fff_ffff_ffff_ffff

  /** The value types the checksum accepts: dicts, lists, str and int (a Python bool is an int). */
  predicate Supported(v: Value)
  {
    match v
    case VNull => false
    case VReal(_) => false
    case VBool(_) => true
    case VInt(i) => PyIntMin <= i <= PyIntMax
    case VStr(_) => true
    case VList(items) => forall i :: 0 <= i < |items| ==> Supported(items[i])
    case VDict(fields) => forall k :: k in fields ==> Supported(fields[k])
  }

  /**
   * The strings `calculate_kwargs_checksum` feeds to the hash, in order:
   * each dict key in sorted order followed by its value's tokens, list items
   * in order, a str as itself and an int as its decimal text.  Any other
   * value type, a `long` among them, raises ValueError.
   */
  function Tokens(v: Value): (r: Result<seq<string>>)
    ensures r.Success? <==> Supported(v)
    ensures r.Failure? ==> r.error == ValueError
    decreases v, 1
  {
    match v
    case VDict(fields) => DictTokens(fields, SortedKeys(fields.Keys))
    case VList(items) => ListTokens(items, 0)
    case VStr(s) => Success([s])
    case VInt(i) => if PyIntMin <= i <= PyIntMax then Success([IntToString(i)]) else Failure(ValueError)
    case VBool(b) => Success([if b then "True" else "False"])
    case VNull => Failure(ValueError)
    case VReal(_) => Failure(ValueError)
  }

  function DictTokens(fields: map<string, Value>, keys: seq<string>): (r: Result<seq<string>>)
    requires forall i :: 0 <= i < |keys| ==> keys[i] in fields
    ensures r.Success? <==> forall i :: 0 <= i < |keys| ==> Supported(fields[keys[i]])
    ensures r.Failure? ==> r.error == ValueError
    decreases VDict(fields), 0, |keys|
  {
    if keys == [] then Success([])
    else
      var head := Tokens(fields[keys[0]]);
      if head.Failure? then head
      else
        var rest := DictTokens(fields, keys[1..]);
        if rest.Failure? then rest
        else Success([keys[0]] + head.value + rest.value)
  }

  function ListTokens(items: seq<Value>, from: nat): (r: Result<seq<string>>)
    requires from <= |items|
    ensures r.Success? <==> forall i :: from <= i < |items| ==> Supported(items[i])
    ensures r.Failure? ==> r.error == ValueError
    decreases VList(items), 0, |items| - from
  {
    if from == |items| then Success([])
    else
      var head := Tokens(items[from]);
      if head.Failure? then head
      else
        var rest := ListTokens(items, from + 1);
        if rest.Failure? then rest
        else Success(head.value + rest.value)
  }

  /**
   * A dict of str values feeds each key, in sorted order, immediately
   * followed by its value, so two dicts with the same entries feed the same
   * stream however their keys were inserted.
   */
  lemma {:induction false} StringDictTokens(fields: map<string, Value>, keys: seq<string>)
    requires forall i :: 0 <= i < |keys| ==> keys[i] in fields && fields[keys[i]].VStr?
    ensures DictTokens(fields, keys).Success?
    ensures |DictTokens(fields, keys).value| == 2 * |keys|
    ensures forall i :: 0 <= i < |keys| ==>
              DictTokens(fields, keys).value[2 * i] == keys[i] &&
              DictTokens(fields, keys).value[2 * i + 1] == fields[keys[i]].s
    decreases |keys|
  {
    if keys != [] {
      StringDictTokens(fields, keys[1..]);
      var rest := DictTokens(fields, keys[1..]).value;
      assert DictTokens(fields, keys).value == [keys[0], fields[keys[0]].s] + rest;
      forall i | 1 <= i < |keys|
        ensures DictTokens(fields, keys).value[2 * i] == keys[i]
        ensures DictTokens(fields, keys).value[2 * i + 1] == fields[keys[i]].s
      {
        assert rest[2 * (i - 1)] == keys[1..][i - 1];
        assert rest[2 * (i - 1) + 1] == fields[keys[1..][i - 1]].s;
      }
    }
  }

  /** The arguments with the id field, filled with "dummy" when it was not passed. */
  function WithId(idField: string, kwargs: Kwargs): Kwargs
  {
    if idField in kwargs then kwargs else kwargs[idField := VStr("dummy")]
  }

  /**
   * The token stream of `calculate_checksum` (`Resource`, `Object`, `Step`):
   * validate the arguments with the id present, drop the id, and feed the rest.
   */
  function ChecksumInput(schema: Schema, idField: string, kwargs: Kwargs): Result<seq<string>>
  {
    var full := WithId(idField, kwargs);
    if !schema.accepts(full) then Failure(ValidationError)
    else Tokens(VDict(full - {idField}))
  }

  /** The id is never fed: arguments that differ only in the id give the same stream. */
  lemma ChecksumIgnoresId(schema: Schema, idField: string, k1: Kwargs, k2: Kwargs)
    requires k1 - {idField} == k2 - {idField}
    requires schema.accepts(WithId(idField, k1)) && schema.accepts(WithId(idField, k2))
    ensures ChecksumInput(schema, idField, k1) == ChecksumInput(schema, idField, k2)
    ensures ChecksumInput(schema, idField, k1) == Tokens(VDict(k1 - {idField}))
  {
    assert WithId(idField, k1) - {idField} == k1 - {idField};
    assert WithId(idField, k2) - {idField} == k2 - {idField};
  }

  // ----- the token stream as written -----

  /**
   * The tokens as the code is written: `check.update(check, key)` passes two
   * arguments to `update`, which raises TypeError at the first key of any
   * non-empty dict.
   */
  function TokensAsWritten(v: Value): (r: Result<seq<string>>)
    decreases v, 1
  {
    match v
    case VDict(fields) => if fields == map[] then Success([]) else Failure(TypeError)
    case VList(items) => ListTokensAsWritten(items, 0)
    case VStr(s) => Success([s])
    case VInt(i) => if PyIntMin <= i <= PyIntMax then Success([IntToString(i)]) else Failure(ValueError)
    case VBool(b) => Success([if b then "True" else "False"])
    case VNull => Failure(ValueError)
    case VReal(_) => Failure(ValueError)
  }

  function ListTokensAsWritten(items: seq<Value>, from: nat): Result<seq<string>>
    requires from <= |items|
    decreases VList(items), 0, |items| - from
  {
    if from == |items| then Success([])
    else
      var head := TokensAsWritten(items[from]);
      if head.Failure? then head
      else
        var rest := ListTokensAsWritten(items, from + 1);
        if rest.Failure? then rest
        else Success(head.value + rest.value)
  }

  function ChecksumInputAsWritten(schema: Schema, idField: string, kwargs: Kwargs): Result<seq<string>>
  {
    var full := WithId(idField, kwargs);
    if !schema.accepts(full) then Failure(ValidationError)
    else TokensAsWritten(VDict(full - {idField}))
  }

  /**
   * As written, the checksum of an Object with a name fails, where the
   * intended stream is the key followed by its value.
   */
  lemma ChecksumAsWrittenFailsOnAnyField(schema: Schema)
    requires schema.accepts(map["name" := VStr("Nut"), "obj_id" := VStr("dummy")])
    ensures ChecksumInputAsWritten(schema, "obj_id", map["name" := VStr("Nut")]) == Failure(TypeError)
    ensures ChecksumInput(schema, "obj_id", map["name" := VStr("Nut")]) == Success(["name", "Nut"])
  {
    var kw: Kwargs := map["name" := VStr("Nut")];
    var full := WithId("obj_id", kw);
    assert full == map["name" := VStr("Nut"), "obj_id" := VStr("dummy")];
    assert full - {"obj_id"} == kw;
    assert kw.Keys == {"name"};
    var keys := SortedKeys(kw.Keys);
    assert keys == ["name"];
    StringDictTokens(kw, keys);
    var t := DictTokens(kw, keys).value;
    assert t[0] == "name" && t[1] == "Nut";
    assert t == ["name", "Nut"];
    assert Tokens(VDict(kw)) == DictTokens(kw, keys);
  }
}
