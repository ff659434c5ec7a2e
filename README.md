# manual-labour: steps, dependency graphs and schedules

manual-labour describes how to assemble something as a set of steps. Each
step uses tools, consumes parts and creates results, and may require other
steps to be done first. Steps, objects and resources live in a store. A
graph records which step requires which, and a schedule puts the steps of a
graph in an order, numbers them, times them and lists their bill of
materials. The greedy scheduler builds that order from a graph.

This Dafny project models both generations of the package's core.

- The older package, `manuallabour/core/__init__.py` and
  `manuallabour/core/stores.py`, has:
  - the id checks;
  - object and BOM references;
  - a `GraphStep` with `as_dict`;
  - a `Graph` built one `add_step` at a time, with a `timing` flag;
  - the timed `Schedule` with its bill of materials;
  - `schedule_greedy`;
  - the in-memory store.
- The newer package, `src/manuallabour/core/{common,graph,schedule,stores}.py`,
  has:
  - `DataStruct`, the keyword-argument base class with schema defaults;
  - the checksum token stream;
  - resource and object references, objects and steps, with their
    constructors and `dereference`;
  - a `Graph` built from a dict of graph steps, with `collect_ids` and
    `all_ancestors`;
  - `Schedule` with `_create_bom`;
  - `schedule_greedy`;
  - the in-memory store of blobs, objects and steps.

Modules follow the program:

| file | module | models |
|---|---|---|
| `values.dfy` | `Values` | the dynamic values passed as keyword arguments; dict iteration order (sorted keys) |
| `wrappers.dfy` | `Wrappers` | `Option`, `Result` and the Python exceptions as error values |
| `conversions.dfy` | `Conversions` | the "convert each entry, the first exception escapes" loops every constructor uses |
| `datastructs.dfy` | `DataStructs` | `DataStruct`, `calculate_kwargs_checksum`, `calculate_checksum` |
| `entities.dfy` | `Entities` | `ResourceReference`, `ObjectReference`, `Object`, `Step`, and their `dereference` |
| `paths.dfy` | `Paths` | `os.path.abspath`, which both stores apply to a recorded path |
| `stores.dfy` | `Stores` | the newer `LocalMemoryStore` (a class) |
| `deps.dfy` | `Deps` | `parents`/`children` bookkeeping and `all_ancestors`, shared by both graphs; the target working set |
| `greedy.dfy` | `Greedy` | the loop both `schedule_greedy` functions share |
| `bom.dfy` | `Bom` | the bill-of-materials fold of both generations |
| `graph.dfy` | `StepGraph` | the newer `Graph` and `GraphStep` |
| `schedule.dfy` | `Scheduling` | the newer `Schedule`, `ScheduleStep` and `schedule_greedy` |
| `ids.dfy` | `Ids` | the older id regular expressions |
| `legacy_stores.dfy` | `LegacyStores` | the older `LocalMemoryStore` (a class) |
| `legacy_core.dfy` | `LegacyCore` | the older references, `GraphStep`, `Graph` (a class), `Schedule` and `schedule_greedy` |

Some code works by changing things step by step: the constructor loops, the
id collection, the schedule loops, the BOM fold and the greedy loop. Each of
these is a `method` with a `while` loop. Each method is proved against a
function or predicate that states what it computes. Objects whose fields
the source updates in place are `class`es with `modifies` clauses: the two
stores and the older `Graph`. The newer graph and schedule build their
fields once in `__init__`, so they are datatypes returned by constructor
methods.

Some model choices:

- A Python exception is a `Failure` carrying the exception's class. The
  first exception escapes, so every conversion loop stops at the first
  failing entry.
- A dict is visited in sorted key order. Every result that does not depend
  on the order is stated order-free, such as `Deps.ChildrenOrderIndependent`.
- Schema validation (`jsonschema`) is an abstract predicate carried by the
  schema value.
- Time spans are whole seconds (`nat`).
- `all_ancestors` terminates only on an acyclic graph. Its callers supply a
  ghost ranking that decreases along `requires` edges.

## Model

| member | source | states |
|---|---|---|
| `DataStructs.Create` | src/manuallabour/core/common.py:94-108 | The constructor fails with ValidationError when the schema rejects the arguments. Otherwise it fails with ValueError when some optional property lacks a default, whichever property the loop reaches first. Otherwise it keeps the arguments as passed and exactly the defaults of the absent fields (`Construct`). |
| `DataStructs.DefaultsOnlyForAbsentFields` | src/manuallabour/core/common.py:107-108 | After construction `_kwargs` is the arguments. `_calculated` holds only properties that were not passed, each equal to its schema default. Every absent optional property gets one. |
| `DataStructs.MissingDefaultRejected` | src/manuallabour/core/common.py:101-105 | An optional property without a default makes every accepted construction fail with ValueError. |
| `DataStructs.GetAttrAfterConstruct` | src/manuallabour/core/common.py:109-116 | Attribute access after construction returns the passed value. For an absent property it returns the schema default. Otherwise it raises AttributeError. |
| `DataStructs.AsDictRoundTrip` | src/manuallabour/core/common.py:123-128 | Constructing again from `as_dict()` gives the same data structure. |
| `DataStructs.DereferenceAgreesWithGetAttr` | src/manuallabour/core/common.py:129-137 | `dereference` has the union of both dicts as keys. A key is present exactly when attribute access succeeds, and then holds the same value (calculated values win). |
| `DataStructs.Tokens` | src/manuallabour/core/common.py:30-47 | The token stream exists exactly for values built from dicts, lists, str and int (a bool is an int). An int must lie in the range of a Python 2 `int` on a 64-bit platform, `-2^63` to `2^63 - 1`. Any other value, a `long` among them, raises ValueError. |
| `DataStructs.DictTokens` | src/manuallabour/core/common.py:35-38 | A dict's stream exists exactly when each of its values has one. It fails with ValueError otherwise. |
| `DataStructs.ListTokens` | src/manuallabour/core/common.py:39-41 | A list's stream exists exactly when each item has one. It fails with ValueError otherwise. |
| `DataStructs.StringDictTokens` | src/manuallabour/core/common.py:35-38 | A dict of str values feeds each key immediately followed by its value, keys in sorted order. Position 2i is the i-th key and position 2i+1 its value, so the insertion order does not matter. |
| `DataStructs.ChecksumIgnoresId` | src/manuallabour/core/common.py:261-276 | The id is filled with "dummy" only for validation and never hashed. Arguments that differ only in the id give the same stream: the tokens of the arguments without the id. `Resource` (lines 175-191) and `Step` (lines 308-323) share this code with the id named `res_id` and `step_id`. |
| `DataStructs.ChecksumAsWrittenFailsOnAnyField` | src/manuallabour/core/common.py:37 | Finding F3. As written, the checksum of an object with a name raises TypeError. The intended stream is `["name", "Nut"]`. |
| `Conversions.ConvertAllSucceeds` | src/manuallabour/core/common.py:255-258 | A conversion loop over a list succeeds exactly when every item converts. |
| `Conversions.ConvertAllElements` | src/manuallabour/core/common.py:255-258 | A successful loop keeps each item's conversion at the item's own position. |
| `Conversions.ConvertAllFirstError` | src/manuallabour/core/common.py:255-258 | When item j is the first item that fails to convert, the whole loop fails with that item's exception. |
| `Conversions.ConvertAllFailurePersists` | src/manuallabour/core/common.py:255-258 | Once an item has failed, the items after it do not matter. |
| `Conversions.ConvertEach` | src/manuallabour/core/schedule.py:47-70 | The `for` loop that appends one converted item per input item computes `ConvertAll` over the whole list. |
| `Conversions.ConvertEntriesElements` | src/manuallabour/core/common.py:292-296 | A successful loop over a dict's items keeps every key and maps it to the conversion of its own value. |
| `Conversions.ConvertEntriesFails` | src/manuallabour/core/common.py:292-296 | An entry that fails to convert makes the whole dict loop fail with its exception. |
| `Conversions.CollectIdsOf` | src/manuallabour/core/graph.py:78-79 | `set(x.id for x in items)` computes `IdsOf`: the set of the items' ids, or the first failure to read one. |
| `Conversions.IdsOfMembers` | src/manuallabour/core/graph.py:78-79 | A collected id set holds exactly the ids of the items. |
| `Conversions.Items` | src/manuallabour/core/graph.py:45-46 | `iteritems()` visits every key once, with its value. |
| `Values.SortedKeys` | src/manuallabour/core/graph.py:45-46 | The visiting order of a dict lists every key once. |
| `Entities.StrAttr` | src/manuallabour/core/stores.py:89-95 | Reading `obj.obj_id` succeeds exactly when attribute access gives a string, and returns that string. |
| `Entities.NewResourceRef` | src/manuallabour/core/common.py:160-161 | `ResourceReference(**v)`: TypeError when `v` is not a dict, otherwise the `DataStruct` construction (`ResourceRefOf`). |
| `Entities.NewImages` | src/manuallabour/core/common.py:255-258 | The image loop appends one converted reference per iterated entry, in order. The first failure escapes (`ImagesOf`, via `ConvertAll`). |
| `Entities.NewObject` | src/manuallabour/core/common.py:253-258 | `Object(**kw)` constructs the data structure. It converts the images only when they were passed (`ObjectOf`). |
| `Entities.CreatedOptionalCheck` | src/manuallabour/core/common.py:232 | The assertion fails exactly when `created` and `optional` are both truthy. `optional` is read only after a truthy `created`. |
| `Entities.NewObjectRef` | src/manuallabour/core/common.py:226-232 | `ObjectReference(**kw)` with the image list built by appending, as `Object` builds it (`ObjectRefOf`, the corrected form of finding F4). |
| `Entities.ObjectRefNotCreatedAndOptional` | src/manuallabour/core/common.py:221-232 | No constructed object reference is both created and optional. |
| `Entities.ObjectRefImagesAsWrittenFail` | src/manuallabour/core/common.py:228-231 | Finding F4. As written, an image list with one convertible entry raises IndexError. The corrected constructor keeps that one reference. |
| `Entities.ObjectRefAsWrittenAgreesWithoutImages` | src/manuallabour/core/common.py:228-229 | Without images, or with an empty image list, the code as written and the corrected constructor agree. |
| `Entities.TimedeltaOneUnit` | src/manuallabour/core/common.py:288-290 | `timedelta(unit=n)` is n times the unit's seconds (weeks, days, hours, minutes, seconds). |
| `Entities.TimedeltaAdds` | src/manuallabour/core/common.py:290 | Adding an amount in a new unit adds that amount times the unit's seconds to the span. |
| `Entities.PlainNamespaceWalked` | src/manuallabour/core/graph.py:83-93 | `.values()` over a namespace that was not converted: the read's own error passes through; a non-dict fails with AttributeError('values'); a non-empty dict fails on the entry's attribute (`blob_id`, `obj_id` or `created`); the walk succeeds exactly for an empty dict. |
| `Entities.AllCreated` | src/manuallabour/core/common.py:304-305 | The results check passes exactly when every result, in key order, has a truthy `created`. |
| `Entities.StepOf` | src/manuallabour/core/common.py:285-305 | A constructed step passed the results check. Its duration and waiting time are the `timedelta`s of the passed arguments, or None when absent. |
| `Entities.NewStep` | src/manuallabour/core/common.py:285-305 | `Step(**kw)`, field by field: construct, convert both time spans, the three object namespaces and the two resource namespaces, then check the results. The first failure escapes (`StepOf`). |
| `Entities.NewObjNamespace` | src/manuallabour/core/common.py:292-296 | An object namespace that was passed must be a dict. Each entry is converted to an `ObjectReference`. |
| `Entities.NewResNamespace` | src/manuallabour/core/common.py:298-302 | A resource namespace that was passed must be a dict. Each entry is converted to a `ResourceReference`. |
| `Entities.NewObjRefs` | src/manuallabour/core/common.py:295-296 | The loop over one object namespace computes `ConvertEntries`: every alias keeps its converted reference. |
| `Entities.NewResRefs` | src/manuallabour/core/common.py:301-302 | The loop over one resource namespace computes `ConvertEntries`. |
| `Entities.NewObjRefEntry` | src/manuallabour/core/common.py:296 | `ObjectReference(**objref)` for one entry: TypeError unless it is a dict. |
| `Entities.StepResultsAreCreated` | src/manuallabour/core/common.py:304-305 | Each result of a constructed step has a truthy `created`. |
| `Entities.StepRejectsUncreatedResult` | src/manuallabour/core/common.py:305 | A step with a result that is not created is rejected with AssertionError. |
| `Entities.AllCreatedFailsWithAssertion` | src/manuallabour/core/common.py:304-305 | When every result has a `created` attribute, a failing check fails with AssertionError. |
| `Entities.ObjectRefDereferenceOverlay` | src/manuallabour/core/common.py:234-242 | A dereferenced object reference has the keys of the reference and of the stored object, and the object's fields win. Fields only the reference has, such as quantity and optional, survive. `images` holds, position by position, the dereferenced dict of each of the object's image references, and each of those dereferences succeeds. |
| `Entities.ResourceRefDereferenceOverlay` | src/manuallabour/core/common.py:162-168 | A resource reference dereferences exactly when its `res_id` is a stored resource with a path, otherwise KeyError for that id. The result's `url` is `file://` followed by the path. Every other key comes from the reference or the resource, the resource's fields win, and the reference's own fields survive where the resource has none. |
| `Entities.FlattenObjEntries` | src/manuallabour/core/common.py:333-334 | A converted object namespace flattens exactly when every alias dereferences. Its list then holds, in alias order, the dereferenced dict of each alias's reference. A namespace that was not converted flattens to the empty list. |
| `Entities.FlattenResEntries` | src/manuallabour/core/common.py:333-334 | A converted resource namespace flattens exactly when every alias dereferences. Its list then holds, in alias order, the dereferenced dict of each resource reference. |
| `Entities.FlattenNamespacesShape` | src/manuallabour/core/common.py:333-334 | The flattened fields are exactly the five namespaces, each a list. A converted namespace holds its dereferenced entries in alias order. A namespace that was not converted holds the empty list. |
| `Entities.StepDereferenceFlattens` | src/manuallabour/core/common.py:325-335 | `Step.dereference` keeps every non-namespace field of the step. It adds the five namespaces. Each is the list of the dereferenced dicts of its entries, in alias order. |
| `Stores.LocalMemoryStore.constructor` | src/manuallabour/core/stores.py:65-68 | A new store is empty. |
| `Stores.LocalMemoryStore.GetBlobUrl` | src/manuallabour/core/stores.py:74-75 | Known blob: `file://` followed by its recorded path, which `add_blob` resolved with `abspath`. Unknown blob: KeyError. |
| `Stores.LocalMemoryStore.IterBlob` | src/manuallabour/core/stores.py:71-73 | Every stored blob id once. |
| `Stores.LocalMemoryStore.AddBlob` | src/manuallabour/core/stores.py:76-82 | A known id raises KeyError and changes nothing. Otherwise `abspath(path)` is recorded, resolved against the working directory (`Paths.AbsPath`). The other dicts never change. |
| `Stores.LocalMemoryStore.GetObj` | src/manuallabour/core/stores.py:85-86 | The stored object, or KeyError for an unknown id. |
| `Stores.LocalMemoryStore.IterObj` | src/manuallabour/core/stores.py:87-88 | Every stored `(obj_id, obj)` pair once. |
| `Stores.LocalMemoryStore.AddObj` | src/manuallabour/core/stores.py:89-95 | The key is the object's `obj_id`. A known key raises KeyError and changes nothing. Otherwise the object is stored under it. Blobs and steps are untouched. |
| `Stores.LocalMemoryStore.GetStep` | src/manuallabour/core/stores.py:99-100 | The stored step, or KeyError for an unknown id. |
| `Stores.LocalMemoryStore.IterStep` | src/manuallabour/core/stores.py:101-102 | Every stored `(step_id, step)` pair once. |
| `Stores.LocalMemoryStore.AddStep` | src/manuallabour/core/stores.py:103-109 | Works as `add_obj`, keyed by `step_id`. |
| `Stores.AddBlobThenUrl` | src/manuallabour/core/stores.py:74-82 | After adding a new blob, its URL is `file://` followed by `abspath(path)`. In an absolute working directory that path is absolute and already normalised. |
| `Stores.AddThenGet` | src/manuallabour/core/stores.py:83-95 | After adding a new object, `has_obj` holds and `get_obj` returns it. Adding it again raises KeyError. |
| `Deps.RegisterStep` | src/manuallabour/core/graph.py:56-63 | Registering a step gives it an entry. It appends the step to the entry of each requirement, creating entries as needed. Keys gain the alias and the requirements, and the count of the alias in each requirement's entry grows by its multiplicity. |
| `Deps.AppendEntries` | src/manuallabour/core/graph.py:59-63 | One append adds the requirement as a key and one occurrence of the alias to its entry, and nothing else. |
| `Deps.RegisterKeepsChildrenOf` | src/manuallabour/core/graph.py:53-63 | Registering a new step keeps `children` the inverse of `parents`. Every step and every required alias has an entry, and `children[r]` lists `a` once per occurrence of `r` in `parents[a]`. |
| `Deps.RegisterKeys` | src/manuallabour/core/graph.py:56-61 | After registering, the keys of `children` are the steps and the required aliases. |
| `Deps.RegisterCounts` | src/manuallabour/core/graph.py:59-63 | After registering, the entry counts match the requirement occurrences. |
| `Deps.EmptyChildrenOf` | src/manuallabour/core/graph.py:50-51 | The empty maps are inverse to each other. |
| `Deps.ChildrenOrderIndependent` | src/manuallabour/core/graph.py:53-63 | Any two `children` maps inverse to the same `parents` have the same keys and the same entries up to order. The result does not depend on the order in which steps are registered. |
| `Deps.SameCounts` | src/manuallabour/core/graph.py:53-63 | Two inverse maps have the same multiset under each key. |
| `Deps.ChildrenOfStep` | src/manuallabour/core/graph.py:56-57 | Every step has a `children` entry. A step that no step requires has an empty one. |
| `Deps.NoParentsNoAncestors` | src/manuallabour/core/graph.py:106-116 | A step without requirements has no ancestors. |
| `Deps.AncestorsSound` | src/manuallabour/core/graph.py:112-116 | The ancestors contain every direct parent and are closed under `parents`. |
| `Deps.CollectSound` | src/manuallabour/core/graph.py:113-115 | The loop over the parents collects each parent it visits, into a closed set. |
| `Deps.AncestorsLeast` | src/manuallabour/core/graph.py:106-116 | The ancestors lie inside every closed set that holds the direct parents. Together with `AncestorsSound`, they are the least such set, the transitive closure. |
| `Deps.CollectLeast` | src/manuallabour/core/graph.py:113-115 | The loop collects nothing outside a closed set that holds the parents. |
| `Deps.AncestorsDefined` | src/manuallabour/core/graph.py:106-116 | `all_ancestors` raises no KeyError when the requirements reachable from the alias are all steps. |
| `Deps.CollectDefined` | src/manuallabour/core/graph.py:113-115 | The loop raises no KeyError when the requirements reachable from the alias are all steps. |
| `Deps.AncestorsTransitive` | src/manuallabour/core/graph.py:106-116 | An ancestor's ancestors are ancestors. |
| `Deps.CollectTargets` | src/manuallabour/core/schedule.py:210-214 | The targets loop adds each target and its ancestors. The first KeyError escapes (`TargetSteps`). |
| `Deps.TargetStepsFailurePersists` | src/manuallabour/core/schedule.py:211-213 | Once a target fails, the whole working set fails with that error. |
| `Deps.TargetStepsClosed` | src/manuallabour/core/schedule.py:210-214 | The working set of targets holds every target and is closed under `parents`. |
| `Deps.TargetStepsLeast` | src/manuallabour/core/schedule.py:210-214 | The working set lies inside every closed set that holds the targets. |
| `StepGraph.NewGraphStep` | src/manuallabour/core/graph.py:17-18 | `GraphStep(**ref)`: TypeError when `ref` is not a dict, otherwise the `DataStruct` construction. |
| `StepGraph.NewGraphSteps` | src/manuallabour/core/graph.py:45-47 | The first loop: KeyError without `steps`, AttributeError when `steps` is not a dict. Otherwise every alias is converted to a graph step (`StepsOf`). |
| `StepGraph.NewGraph` | src/manuallabour/core/graph.py:42-63 | `Graph(**kw)` returns the fields, the converted steps and their `requires` as parents (`GraphParts`), or the first failure. `requires` is walked as Python walks it: list items, dict keys or string characters, and anything else is a TypeError. `children` is the inverse of `parents`. |
| `StepGraph.GraphPartsShape` | src/manuallabour/core/graph.py:45-54 | A built graph has one step per entry of `kw["steps"]`, each the conversion of its entry. It has one `parents` entry per step, holding that step's `requires`. |
| `StepGraph.StepsOfShape` | src/manuallabour/core/graph.py:45-47 | The steps are keyed by the aliases of `kw["steps"]`, each converted from its entry. |
| `StepGraph.ParentsOfShape` | src/manuallabour/core/graph.py:53-54 | `parents` has the aliases of the steps as keys, each holding its step's `requires`. |
| `StepGraph.GraphStepIdsMembers` | src/manuallabour/core/graph.py:78-79 | The collected step ids are exactly the `step_id`s of the graph's steps, whatever their aliases. |
| `StepGraph.CollectResNamespace` | src/manuallabour/core/graph.py:84-87 | The blob ids of one resource namespace of a step. |
| `StepGraph.CollectObjNamespace` | src/manuallabour/core/graph.py:89-94 | The object ids of one object namespace of a step. |
| `StepGraph.CollectStepRefs` | src/manuallabour/core/graph.py:84-94 | A step's blob ids (images, then files) and object ids (tools, parts, results). |
| `StepGraph.CollectStepsRefs` | src/manuallabour/core/graph.py:81-94 | The loop over the step ids succeeds exactly when every step is stored and readable. It then returns the union of their blob ids and the union of their object ids. |
| `StepGraph.CollectObjectsBlobs` | src/manuallabour/core/graph.py:96-99 | The loop over the object ids succeeds exactly when every object is stored with readable images. It then returns the union of their image blob ids. |
| `StepGraph.CollectObjectBlobs` | src/manuallabour/core/graph.py:98-99 | One object's image blob ids (`ObjectBlobIds`). Converted images give their blob ids. A plain `images` value is walked as a `for` loop walks it: an empty list, dict or string gives no ids, a non-empty one fails with AttributeError('blob_id'), and a non-iterable is TypeError. |
| `StepGraph.PlainImagesWalked` | src/manuallabour/core/graph.py:97-98 | Over a plain `images` value: an empty list, dict or string gives no ids, a non-empty one is AttributeError('blob_id'), and anything not iterable is TypeError. |
| `StepGraph.CollectIds` | src/manuallabour/core/graph.py:65-104 | `collect_ids` fails exactly when some referenced step or object is missing from the store or lacks an id. Otherwise it returns the graph's step ids, the object ids of those steps, and the blob ids of those steps and objects. |
| `StepGraph.CollectedAreStored` | src/manuallabour/core/graph.py:81-99 | Every collected step id and object id is stored. |
| `StepGraph.CollectedObjects` | src/manuallabour/core/graph.py:89-94 | An object id is collected exactly when some collected step references it. |
| `StepGraph.GraphStepDereferenceOverlay` | src/manuallabour/core/graph.py:19-25 | The stored step's dereferenced fields win. Fields only the graph step has, such as `requires`, survive. The five namespaces come out as lists. |
| `Greedy.AllScheduled` | src/manuallabour/core/schedule.py:228-230 | The `for/else` test holds exactly when every requirement is scheduled. |
| `Greedy.AddReady` | src/manuallabour/core/schedule.py:224-232 | Afterwards `possible` holds exactly the unscheduled steps whose requirements are all scheduled. |
| `Greedy.BestCandidate` | src/manuallabour/core/schedule.py:234-244 | No candidate exactly when `possible` is empty. Otherwise the best starts at `time`, stops one duration later, and has the least duration, hence the earliest stop. |
| `Greedy.GreedyOrder` | src/manuallabour/core/schedule.py:223-257 | Success: a topological order listing each step of the working set once, with every pick of least duration among the ready steps, started back to back from 0. Failure: TypeError (unpacking `None`) exactly when the working set has no topological order. |
| `Greedy.StillReady` | src/manuallabour/core/schedule.py:255 | Ready candidates stay ready after another one is scheduled. |
| `Greedy.PartialComplete` | src/manuallabour/core/schedule.py:223 | Once every step is scheduled, the partial schedule is a complete greedy schedule. |
| `Greedy.StuckFailure` | src/manuallabour/core/schedule.py:246-248 | With no candidate left, the loop is stuck and no topological order exists. |
| `Greedy.ExtendPartial` | src/manuallabour/core/schedule.py:250-256 | Appending a ready, greedy candidate started at the current time keeps the schedule topological, greedy and timed. |
| `Greedy.DistinctSize` | src/manuallabour/core/schedule.py:223 | A list without repeats has as many members as entries. The loop's `len(scheduled)` counts the scheduled steps. |
| `Greedy.GreedyStep` | src/manuallabour/core/schedule.py:250-253 | Appending the chosen candidate keeps the order topological and greedy. |
| `Greedy.TimedStep` | src/manuallabour/core/schedule.py:250-256 | Appending a step started when the previous one stops keeps the start times right. |
| `Greedy.ProperSubset` | src/manuallabour/core/schedule.py:223 | While fewer steps are scheduled than there are, one remains. |
| `Greedy.SubsetSameSize` | src/manuallabour/core/schedule.py:223 | When the loop ends, the scheduled steps are the working set. |
| `Greedy.TopoOrderHasReady` | src/manuallabour/core/schedule.py:224-232 | Given any topological order, some unscheduled step is ready. |
| `Greedy.StuckNotSchedulable` | src/manuallabour/core/schedule.py:246-248 | A stuck loop means no topological order exists. |
| `Greedy.CycleNotSchedulable` | src/manuallabour/core/schedule.py:223-248 | A non-empty working set in which every step requires another step of the set has no topological order, so the loop fails on it. |
| `Greedy.RankedNeverStuck` | src/manuallabour/core/schedule.py:223-232 | On an acyclic graph, with every requirement inside the working set, the loop never gets stuck. |
| `Greedy.LeastRanked` | src/manuallabour/core/schedule.py:224-232 | A non-empty set of ranked steps has a member of least rank. |
| `Greedy.RankedSchedulableOrder` | src/manuallabour/core/schedule.py:223-257 | Such a working set is always scheduled. |
| `Greedy.ElapsedMonotone` | src/manuallabour/core/schedule.py:256 | Elapsed time never decreases along the order. |
| `Greedy.ScheduleRespectsDependencies` | src/manuallabour/core/schedule.py:236-242 | A step starts no earlier than each of its requirements stops. |
| `Greedy.StopsBefore` | src/manuallabour/core/schedule.py:256 | A step stops no later than any later step starts. |
| `Greedy.BackToBack` | src/manuallabour/core/schedule.py:236-256 | Each step starts exactly when the one before it stops. The waiting times the loop consults are never recorded. |
| `Bom.TallyAppend` | src/manuallabour/core/schedule.py:87-114 | Folding one more use updates only its own id's count. |
| `Bom.TallyUnused` | src/manuallabour/core/schedule.py:90-93 | An id without uses keeps its initial count. |
| `Bom.TallyInto` | src/manuallabour/core/schedule.py:88-114 | The inner loops hold a count for exactly the ids used so far, each the fold of that id's uses. |
| `Bom.TalliedStep` | src/manuallabour/core/schedule.py:90-100 | One more use creates its id's count from the initial value when new, then applies the rule. |
| `Bom.CreateBom` | src/manuallabour/core/schedule.py:81-122 | Every tool used is reported, with its count, or 0 when that is negative. A part or result is reported exactly when its count lists it (quantity or optional above 0), with that count. Uses are folded in step order, tools then parts then results. |
| `Bom.ToolQuantities` | src/manuallabour/core/schedule.py:116-118 | Same keys as the counts, each clamped at 0. The `created` entry popped there is always 0. |
| `Bom.ListedParts` | src/manuallabour/core/schedule.py:120-122 | Exactly the parts with a positive quantity or a positive optional count, with their counts. |
| `Bom.SumOfAppend` | src/manuallabour/core/schedule.py:101-114 | A sum over uses grows by one use's quantity when that use matches. |
| `Bom.PartTallyIsNetSum` | src/manuallabour/core/schedule.py:101-114 | A part's optional count is the total of its optional uses. Its quantity is the total of its other uses minus the total it was created. |
| `Bom.SelfProducedPartOmitted` | src/manuallabour/core/schedule.py:120-122 | A part created at least as often as it is consumed, and never used optionally, is not listed. |
| `Bom.ToolTallyIsPeak` | src/manuallabour/core/schedule.py:96-100 | Without created uses, a tool's count is its peak: at least 0, at least every non-optional quantity, and either 0 or one of those quantities. |
| `Bom.OldCreateBom` | manuallabour/core/__init__.py:435-456 | The older fold holds a count for every tool and every part seen. Tools take their peak non-optional quantity. Parts sum their optional and their other quantities. Results are not looked at. |
| `Bom.OldToolTallyIsPeak` | manuallabour/core/__init__.py:441-446 | An older tool count is at least 0 and at least every non-optional quantity. It is either 0 or one of them, and optional uses never count. |
| `Bom.OldPartTallyIsSum` | manuallabour/core/__init__.py:447-456 | An older part's counts are the totals of its optional uses and of its other uses. |
| `Scheduling.ScheduleStepsNumbered` | src/manuallabour/core/schedule.py:47-70 | With the keyword clash resolved (finding F5), the scheduled steps keep the input order. The step at position i has index i, number i+1, the graph step's id and fields. Untimed steps carry no times. A timed step starts at its start time and stops exactly one duration later. |
| `Scheduling.ScheduleStepsSucceed` | src/manuallabour/core/schedule.py:49-70 | Scheduling succeeds exactly when every step has a `step_id` and, when timed, a start time and a duration (otherwise KeyError or TypeError). |
| `Scheduling.IdToNr` | src/manuallabour/core/schedule.py:72-75 | The reverse lookup maps exactly the ids of the steps, each to the number of its last step. |
| `Scheduling.AssembleSchedule` | src/manuallabour/core/schedule.py:72-122 | Keeps the steps and builds the reverse lookup. The uses are read from the scheduled steps themselves: each step's tools, then its parts and results, each entry as an object reference. The first failure escapes. On success the bill of materials is `BillOf` those uses. |
| `Scheduling.StepUsesShape` | src/manuallabour/core/schedule.py:87-102 | A step's tool uses are its `tools` entries read as object references, in alias order. Its part and result uses are its `parts` then `results` entries, read the same way. |
| `Scheduling.BomAsWrittenFailsOnAnyTool` | src/manuallabour/core/schedule.py:88-89 | Finding F8. As written, the bill of materials of a step with any tool raises AttributeError for `obj_id`. An entry that builds an object reference with readable attributes gives its use once it is converted. |
| `Scheduling.NewSchedule` | src/manuallabour/core/schedule.py:39-122 | `Schedule(steps, store, start)`, with the clash resolved, fails exactly as the step loop does. Once the steps are scheduled it fails exactly when reading their uses fails, with that error. On success it holds the scheduled steps and the reverse lookup: with distinct ids, each id maps to its position plus one. Its bill of materials is that of the uses read from the scheduled steps. |
| `Scheduling.ScheduleAsWrittenFails` | src/manuallabour/core/schedule.py:25 | Finding F5. As written, no schedule of a non-empty step list can be built. |
| `Scheduling.ScheduleStepResolvedSucceeds` | src/manuallabour/core/schedule.py:52-56 | A step with an id schedules once the clash is resolved, and raises TypeError as written. |
| `Scheduling.NewDurations` | src/manuallabour/core/schedule.py:243 | Reads the duration of every step of the working set, in seconds (`Durations`). |
| `Scheduling.DurationsCover` | src/manuallabour/core/schedule.py:243 | Durations are read for exactly the working set. |
| `Scheduling.OrderWorkingSet` | src/manuallabour/core/schedule.py:217-259 | Once the durations are read: success exactly when the working set has a topological order, failure only with TypeError. On an acyclic graph, a working set closed under `parents` never fails. On success the steps come in a topological, greedy, back-to-back order, each the graph's step for its alias. |
| `Scheduling.ScheduleGreedy` | src/manuallabour/core/schedule.py:193-259 | No timing raises ValueError first. Otherwise, with every step or with the targets and their ancestors (KeyError for an unknown alias), the loop gives a greedy order as `OrderWorkingSet` states. With `Greedy.CycleNotSchedulable`, a cyclic graph without targets fails with TypeError. A target working set is closed under `parents`, so it always schedules. |
| `Scheduling.ReadyScanAsWrittenAliased` | src/manuallabour/core/schedule.py:225-232 | Where every step's `step_id` is its alias, the readiness scan as written finds exactly the unscheduled steps whose requirements are all scheduled. |
| `Scheduling.GreedyAsWrittenCounterexample` | src/manuallabour/core/schedule.py:227-230 | Finding F7. As written, a graph whose step "a" has `step_id` "s1" raises KeyError for "s1", although the one-step working set has an order by alias. |
| `Ids.CheckStepId` | manuallabour/core/__init__.py:195-198 | Corrected form of finding F1. A step id passes exactly when the pattern as written accepts it and it neither starts with '-' nor ends in a newline. It then starts with a letter and holds no newline. Otherwise ValueError. |
| `Ids.CheckObjId` | manuallabour/core/__init__.py:180-181 | Corrected form of finding F2. An object or resource id passes exactly when the pattern as written accepts it and it holds no newline. It then holds neither a newline nor '-'. Otherwise ValueError. |
| `Ids.StepIdAsWrittenDiffers` | manuallabour/core/__init__.py:12 | Finding F1. The step-id pattern as written accepts every intended id. It accepts more only through a leading '-' or a trailing newline. |
| `Ids.IdPatternCounterexamples` | manuallabour/core/__init__.py:12-14 | "-a" and "a\n" match the step pattern as written. "nut\n" matches the object pattern as written. None of them is a valid id. |
| `Ids.ObjIdAsWrittenDiffers` | manuallabour/core/__init__.py:13-14 | Finding F2. The object- and resource-id pattern as written accepts every intended id, and more only through a trailing newline. |
| `LegacyStores.LocalMemoryStore.constructor` | manuallabour/core/stores.py:57-60 | A new store is empty and valid. |
| `LegacyStores.LocalMemoryStore.GetRes` | manuallabour/core/stores.py:63-64 | The stored resource, or KeyError for an unknown id. |
| `LegacyStores.LocalMemoryStore.GetResUrl` | manuallabour/core/stores.py:65-66 | Known resource: `file://` followed by its recorded path, which `add_res` resolved with `abspath`. Unknown resource: KeyError. |
| `LegacyStores.LocalMemoryStore.IterRes` | manuallabour/core/stores.py:67-69 | Every stored resource once, with its id and its recorded path, as `add_res` resolved it with `abspath`. |
| `LegacyStores.LocalMemoryStore.AddRes` | manuallabour/core/stores.py:70-78 | A known id raises KeyError and leaves both resource dicts unchanged. Otherwise the resource and `abspath(path)`, resolved against the working directory (`Paths.AbsPath`), are recorded together. Every resource keeps a path. |
| `LegacyStores.LocalMemoryStore.GetObj` | manuallabour/core/stores.py:81-82 | The stored object, or KeyError for an unknown id. |
| `LegacyStores.LocalMemoryStore.IterObj` | manuallabour/core/stores.py:83-84 | Every stored `(obj_id, obj)` pair once. |
| `LegacyStores.LocalMemoryStore.AddObj` | manuallabour/core/stores.py:85-91 | A known id raises KeyError and changes nothing. Otherwise the object is stored under its id. |
| `LegacyStores.AddResThenGet` | manuallabour/core/stores.py:61-78 | After adding a new resource, `get_res` returns it. `get_res_url` gives `file://` followed by `abspath(path)`, and `iter_res` lists it with that path. In an absolute working directory the recorded path is absolute and already normalised. Adding it again raises KeyError. |
| `Paths.AbsPathNormal` | manuallabour/core/stores.py:78 | `abspath` in an absolute working directory gives one or two slashes, then components that are not empty, `.` or `..`. Applying it again changes nothing. |
| `Paths.AbsPathOfAbsolute` | src/manuallabour/core/stores.py:82 | An absolute path is only normalised; the working directory is not consulted. |
| `Paths.AbsPathExample` | src/manuallabour/core/stores.py:82 | A `..` component cancels the one before it: `abspath("../b")` in `/w` is `/b`. |
| `Paths.SplitJoin` | src/manuallabour/core/stores.py:82 | Splitting a `/`-joined list of slash-free components at `/` gives the list back. This is the step `normpath`'s idempotence rests on. |
| `LegacyCore.NewObjectRef` | manuallabour/core/__init__.py:179-187 | A bad id raises ValueError, before the schema is consulted. A schema rejection raises ValidationError. Otherwise the reference keeps the id, `optional` defaults to False and `quantity` defaults to 1. |
| `LegacyCore.NewBomRef` | manuallabour/core/__init__.py:382-390 | The same checks, with `optional` a count defaulting to 0 and `quantity` defaulting to 1. |
| `LegacyCore.NewGraphStep` | manuallabour/core/__init__.py:204-229 | A bad id raises ValueError, a schema rejection of the remaining arguments raises ValidationError, and a missing title or description raises KeyError. Namespaces default to empty, waiting to 0, duration to None and attention to None. |
| `LegacyCore.AsDict` | manuallabour/core/__init__.py:230-245 | `as_dict` omits `step_id`. It omits the duration exactly when it is None, the waiting time exactly when it is 0, and the attention exactly when it is None. |
| `LegacyCore.AsDictRoundTrip` | manuallabour/core/__init__.py:233-235 | `GraphStep(step.step_id, **step.as_dict())` is the same step again. |
| `LegacyCore.AddStepKeepsInvariant` | manuallabour/core/__init__.py:264-288 | Adding a step under a new id keeps the graph invariant. Steps are keyed by their id and each has a `parents` entry. `children` is the inverse of `parents`. `timing` says whether every step has a duration. |
| `LegacyCore.AddStepKeepsSteps` | manuallabour/core/__init__.py:273-277 | After adding, the steps and `parents` still share their keys, and `timing` still matches the durations. |
| `LegacyCore.Graph.constructor` | manuallabour/core/__init__.py:251-262 | A new graph is empty, valid and timed. |
| `LegacyCore.Graph.AddStep` | manuallabour/core/__init__.py:264-288 | A known id raises KeyError before anything changes. Otherwise the step and its requirements are recorded, the step is registered as a child of each requirement, and `timing` is cleared by a step without a duration. Either way the graph invariant is kept. |
| `LegacyCore.ScheduleStepTimed` | manuallabour/core/__init__.py:415-427 | Corrected form of finding F6. A scheduled step is numbered from its index and holds the input step. Untimed, it carries no times. Timed, it stops one duration after its start, and its waiting ends the step's waiting time after that. |
| `LegacyCore.ScheduleStepSucceeds` | manuallabour/core/__init__.py:406-427 | A step schedules exactly when it can be rebuilt from `as_dict` and, when timed, has a start time and a duration. |
| `LegacyCore.ScheduleStepsTimed` | manuallabour/core/__init__.py:404-428 | The scheduled steps keep the input steps and their order, numbered from 1. |
| `LegacyCore.ScheduleStepsSucceed` | manuallabour/core/__init__.py:404-428 | Scheduling succeeds exactly when every step can be scheduled. |
| `LegacyCore.ScheduleStepAsWrittenLosesWaiting` | manuallabour/core/__init__.py:373-376 | Finding F6. As written, a scheduled step never keeps its waiting time and never records when waiting ends. A timed step with a waiting time cannot be scheduled at all, although the intended step can. |
| `LegacyCore.UsesOf` | manuallabour/core/__init__.py:441-447 | A namespace's references as BOM uses: one per reference, never created. |
| `LegacyCore.KeyedUses` | manuallabour/core/__init__.py:441-447 | The uses are exactly those of the namespace's references. |
| `LegacyCore.ScheduleUses` | manuallabour/core/__init__.py:440-447 | The tools and parts of each scheduled step, in schedule order. |
| `LegacyCore.IdToNr` | manuallabour/core/__init__.py:430-433 | The reverse lookup maps exactly the ids of the steps, each to the number of its last step. |
| `LegacyCore.ScheduleBom` | manuallabour/core/__init__.py:436-462 | The older fold of the scheduled steps' uses, each entry turned into a validated `BOMReference` in key order. The first failure escapes. |
| `LegacyCore.NumbersScheduledSteps` | manuallabour/core/__init__.py:430-433 | The lookup over the scheduled steps numbers the input steps by position plus one. |
| `LegacyCore.AssembleSchedule` | manuallabour/core/__init__.py:430-462 | Keeps the steps, builds the reverse lookup, and produces the bill of materials (`BomOf`). |
| `LegacyCore.NewSchedule` | manuallabour/core/__init__.py:396-462 | `Schedule(steps, store, start)` fails exactly as the step loop does; the first exception escapes. On success the steps are the scheduled inputs. An id no later step repeats maps to its position plus one. The BOM is the tallies of the steps' uses. |
| `LegacyCore.GreedyScheduleOf` | manuallabour/core/__init__.py:547-582 | A greedy order with its start times, read back as the returned pair of lists, is a greedy schedule. |
| `LegacyCore.OrderSteps` | manuallabour/core/__init__.py:540-582 | Success exactly when the working set has a topological order, failure only with TypeError. On an acyclic graph, a closed working set never fails. On success the result is a topological, greedy list with starts back to back from 0. |
| `LegacyCore.ScheduleGreedy` | manuallabour/core/__init__.py:516-582 | Without timing, ValueError. Otherwise the working set (every step, or the targets and their ancestors) is ordered greedily. A target working set is closed, so it always schedules. |

## Left out

- No rendering: `to_svg`, the graphviz helpers and the exporters are not part of this model.
- No schema file handling: `load_schema`, `dereference_schema` and the JSON schema files are not modelled. Validation is the abstract `accepts` predicate of a schema.
- No hashing: `calculate_blob_checksum` and the SHA-512 digest are not modelled. The model states the token stream fed to the digest, not the digest.
- No floating-point time: time spans are whole seconds, and only the five `timedelta` keywords weeks, days, hours, minutes and seconds with non-negative integer amounts are accepted. Other arguments are a TypeError.
- Dict and set iteration order is modelled as sorted key order. A result that depends on the order, such as the greedy tie-break between candidates with the same stop time, is stated for any order (`Greedy.BestCandidate` picks one candidate of least duration).
- Python 2 strings: text strings are modelled as `str`, with no distinction between `str` and `unicode`.
- Error messages: exceptions keep their class and, for KeyError and AttributeError, the key. The message text is not modelled.
- The topological scheduler and `collect_bom` are not called by either core and are not part of this model.
- `Deps.Ancestors`: `all_ancestors` recurses without end on a cyclic graph. The model requires a ranking that decreases along `requires` edges, so it covers acyclic graphs only.
- `Scheduling.ScheduleGreedy`: the model identifies the steps of the working set by alias, as `parents` is keyed. The source looks them up by `step_id` (finding F7), so the model states the intended behaviour. It requires the graph's `parents` and `steps` to have the same keys, which the constructor guarantees.
- `Scheduling.ScheduleGreedy` and `Scheduling.OrderWorkingSet`: the guarantee that a closed working set always schedules holds on an acyclic graph, given by a ranking. Without targets no ranking is required, and success is still stated exactly (a topological order exists).
- `Scheduling.OrderWorkingSet`: it reads every duration of the working set before ordering. The source reads a duration only for a step that becomes a candidate. So a step with an unreadable duration fails here even where the source would fail first for another reason, or would never reach that step.
- `Entities.StrAttr`: an id that is not a string is a TypeError. The source stores and looks up any hashable value as an id.
- `StepGraph.NewGraph`: a requirement that is not a string is a TypeError. The source accepts any hashable value, such as a number, as a key of `children`.
- `Scheduling.EntryUse`: it reads all four attributes of an entry, and a non-integer quantity is a TypeError. The source reads `optional` only when `created` is false, and adds or compares any quantity values.
- `Scheduling.DurationOf` and `Scheduling.SpanOf`: a duration is a whole number of seconds. Any other value is AttributeError (no `total_seconds`) or TypeError (cannot be added to a start time).
- `LegacyCore.ScheduleGreedy`: requires the graph invariant, which the constructor establishes and `Graph.AddStep` keeps. The guarantee that a closed working set always schedules holds on an acyclic graph, given by a ranking, which is required only with targets.
- The newer `Graph` computes no timing. `graph.timing` is read as a field of the graph's data, and AttributeError escapes when it is absent.
- The newer store has no `get_res`, which `ResourceReference.dereference` calls. Resource dereference takes a resource store as a parameter instead (`Entities.ResourceStore`).
- `ContentBase` and `BOMReference` are not defined in the newer `common.py`. The newer graph is constructed as a `DataStruct`, and the bill of materials is kept as counts rather than `BOMReference` objects.
- `LegacyCore.NewObjectRef`: the source stores any `quantity` value. The model stores integers only and reports a non-integer quantity as TypeError. `LegacyCore.NewBomRef` does the same.
- The older `Graph.store` field is read only by `to_svg` and is not modelled.
- `ScheduleStep.as_dict` of the newer package is not modelled. It is only used for serialisation.
- `collect_ids` converts its sets to lists at the end. The model returns the sets.
- The older `Resource`, `File` and `Image` constructors are modelled only by their id check (`Ids.CheckObjId`). Their metadata is kept as validated fields.
- I/O: stores keep paths as strings, and no file is opened. `os.getcwd()` is the `cwd` parameter of `add_blob`/`add_res`, and `abspath` is modelled as the POSIX `posixpath` of Python 2 (`Paths.AbsPath`). Symbolic links are not resolved, and neither does `abspath`.
- `DataStructs.Tokens`: the `int`/`long` boundary is that of a 64-bit platform. On a 32-bit Python 2 it lies at `2^31`.

## Findings

| source | as written | input that shows it | evidently intended | confidence | as-written member | corrected member |
|---|---|---|---|---|---|---|
| manuallabour/core/__init__.py:12 | `STEP_ID = '^[a-z-A-Z][a-zA-Z0-9]*$'`: the class `[a-z-A-Z]` admits '-', and `$` admits a trailing newline | "-a" and "a\n" are accepted as step ids | a letter, then letters and digits | not executed | `Ids.StepIdAsWrittenDiffers` | `Ids.CheckStepId` |
| manuallabour/core/__init__.py:13-14 | `OBJ_ID`/`RES_ID` end in `$`, which `re.match` also lets match before a final newline | "nut\n" is accepted as an object id | letters, digits and underscores only | not executed | `Ids.ObjIdAsWrittenDiffers` | `Ids.CheckObjId` |
| src/manuallabour/core/common.py:37 | `check.update(check,key)` passes two arguments to `update` | `Object.calculate_checksum(name="Nut")` raises TypeError | feed the key, then the value | not executed | `DataStructs.ChecksumAsWrittenFailsOnAnyField` | `DataStructs.ChecksumIgnoresId` |
| src/manuallabour/core/common.py:229-231 | assigns to index `i` of an empty list | `ObjectReference(obj_id="nut", images=[{...}])` raises IndexError | append each reference, as `Object.__init__` does | not executed | `Entities.ObjectRefImagesAsWrittenFail` | `Entities.NewObjectRef` |
| src/manuallabour/core/schedule.py:25 | `GraphStep.__init__(self,step_id,**kwargs)` passes the id positionally to a keyword-only constructor | any `Schedule` of one or more steps raises TypeError | pass the graph step's fields (which hold `step_id`) as keywords | not executed | `Scheduling.ScheduleAsWrittenFails` | `Scheduling.ScheduleStepsNumbered` |
| manuallabour/core/__init__.py:373-376 | `ScheduleStep` pops `waiting`, then `GraphStep.__init__` resets it, and a timed step passes `waiting` twice | a timed schedule of a step with a waiting time raises TypeError; untimed steps lose their waiting time | keep the step's waiting time and record when the waiting ends | not executed | `LegacyCore.ScheduleStepAsWrittenLosesWaiting` | `LegacyCore.ScheduleStepTimed` |
| src/manuallabour/core/schedule.py:227-230 | the readiness scan reads `step.step_id` and looks it up in `graph.parents`, which is keyed by alias | a graph with step alias "a" whose `step_id` is "s1" raises KeyError('s1') | identify the steps of the working set by alias, as `graph.parents` and `graph.steps` are keyed | not executed | `Scheduling.GreedyAsWrittenCounterexample` | `Scheduling.ScheduleGreedy` |
| src/manuallabour/core/schedule.py:88-89 | `tool.obj_id` reads an attribute of a namespace entry, which in a graph step is a plain dict | with the clash of finding F5 resolved, a schedule of a step with one tool raises AttributeError | read the entry as an object reference (its `obj_id`, `quantity`, `created`, `optional`) | not executed | `Scheduling.BomAsWrittenFailsOnAnyTool` | `Scheduling.AssembleSchedule` |
