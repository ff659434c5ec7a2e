/**
 * `LocalMemoryStore` of the older package (defined in `manuallabour/core/stores.py`
 * and again, identically, in `manuallabour/core/__init__.py`): resources by
 * `res_id` with their file paths, and objects by `obj_id`.  `add_res`
 * writes the two resource dicts together, so every resource has a path.
 */
module LegacyStores {
  import opened Wrappers
  import opened Values
  import opened Conversions
  import opened Paths

  /** A `Resource` (a `File` or an `Image`): its id and its validated metadata. */
  datatype Resource = Resource(resId: string, meta: Kwargs)

  /** An `Object`: its id and its validated fields (`name`, `description`, `images`). */
  datatype Object = Object(objId: string, fields: Kwargs)

  class LocalMemoryStore {
    var objects: map<string, Object>
    var resources: map<string, Resource>
    var paths: map<string, string>

    /**
     * Every resource is stored under its own id and has a path, and
     * every object is stored under its own id.
     */
    ghost predicate Valid()
      reads this
    {
      && resources.Keys == paths.Keys
      && (forall id :: id in resources ==> resources[id].resId == id)
      && (forall id :: id in objects ==> objects[id].objId == id)
    }

    /** An empty store. */
    constructor ()
      ensures Valid()
      ensures objects == map[] && resources == map[] && paths == map[]
    {
      objects := map[];
      resources := map[];
      paths := map[];
    }

    predicate HasRes(resId: string)
      reads this
    {
      resId in resources
    }

    /** `get_res`: the stored resource, KeyError for an unknown id. */
    function GetRes(resId: string): (r: Result<Resource>)
      reads this
      ensures r.Success? <==> HasRes(resId)
      ensures r.Success? ==> r.value == resources[resId]
      ensures r.Failure? ==> r.error == KeyError(resId)
    {
      if resId in resources then Success(resources[resId]) else Failure(KeyError(resId))
    }

    /** `get_res_url`: a file URL for the stored path, KeyError for an unknown id. */
    function GetResUrl(resId: string): (r: Result<string>)
      reads this
      requires Valid()
      ensures r.Success? <==> HasRes(resId)
      ensures r.Success? ==> r.value == "file://" + paths[resId]
      ensures r.Failure? ==> r.error == KeyError(resId)
    {
      if resId in paths then Success("file://" + paths[resId]) else Failure(KeyError(resId))
    }

    /** `iter_res`: every stored resource once, with its id and its recorded (resolved) path. */
    function IterRes(): (r: seq<(string, Resource, string)>)
      reads this
      requires Valid()
      ensures |r| == |resources|
      ensures forall id, res, p :: (id, res, p) in r <==>
        id in resources && resources[id] == res && paths[id] == p
    {
      var keys, res, ps := SortedKeys(resources.Keys), resources, paths;
      var r := seq(|keys|, i requires 0 <= i < |keys| => (keys[i], res[keys[i]], ps[keys[i]]));
      forall id | id in resources ensures (id, resources[id], paths[id]) in r {
        var i :| 0 <= i < |keys| && keys[i] == id;
        assert r[i] == (id, resources[id], paths[id]);
      }
      r
    }

    /**
     * `add_res`: KeyError on a known id, leaving both resource dicts as
     * they were; otherwise the resource and `abspath(path)`, resolved
     * against the working directory `cwd`, are recorded together.
     */
    method AddRes(res: Resource, path: string, cwd: string) returns (r: Result<()>)
      requires Valid()
      modifies this
      ensures Valid()
      ensures old(res.resId in resources) ==>
        r == Failure(KeyError(res.resId)) && resources == old(resources) && paths == old(paths)
      ensures res.resId !in old(resources) ==>
        && r == Success(())
        && resources == old(resources)[res.resId := res]
        && paths == old(paths)[res.resId := AbsPath(cwd, path)]
      ensures objects == old(objects)
    {
      var id := res.resId;
      if id in resources {
        return Failure(KeyError(id));
      }
      resources := resources[id := res];
      paths := paths[id := AbsPath(cwd, path)];
      return Success(());
    }

    predicate HasObj(objId: string)
      reads this
    {
      objId in objects
    }

    /** `get_obj`: the stored object, KeyError for an unknown id. */
    function GetObj(objId: string): (r: Result<Object>)
      reads this
      ensures r.Success? <==> HasObj(objId)
      ensures r.Success? ==> r.value == objects[objId]
      ensures r.Failure? ==> r.error == KeyError(objId)
    {
      if objId in objects then Success(objects[objId]) else Failure(KeyError(objId))
    }

    /** `iter_obj`: every stored `(obj_id, obj)` pair once. */
    function IterObj(): (r: seq<(string, Object)>)
      reads this
      ensures |r| == |objects|
      ensures forall id, o :: (id, o) in r <==> id in objects && objects[id] == o
    {
      Items(objects)
    }

    /** `add_obj`: KeyError on a known id, otherwise the object is stored under its id. */
    method AddObj(obj: Object) returns (r: Result<()>)
      requires Valid()
      modifies this
      ensures Valid()
      ensures old(obj.objId in objects) ==> r == Failure(KeyError(obj.objId)) && objects == old(objects)
      ensures obj.objId !in old(objects) ==> r == Success(()) && objects == old(objects)[obj.objId := obj]
      ensures resources == old(resources) && paths == old(paths)
    {
      if obj.objId in objects {
        return Failure(KeyError(obj.objId));
      }
      objects := objects[obj.objId := obj];
      return Success(());
    }
  }

  /**
   * After `add_res` of a fresh resource, `get_res` returns it and
   * `get_res_url` the file URL of its resolved path, which in an absolute
   * working directory is absolute and normalised; adding it again fails.
   */
  method AddResThenGet(store: LocalMemoryStore, res: Resource, path: string, cwd: string)
    returns (first: Result<()>, second: Result<()>)
    requires store.Valid() && !store.HasRes(res.resId)
    modifies store
    ensures store.Valid()
    ensures first == Success(()) && second == Failure(KeyError(res.resId))
    ensures store.GetRes(res.resId) == Success(res)
    ensures store.GetResUrl(res.resId) == Success("file://" + AbsPath(cwd, path))
    ensures (res.resId, res, AbsPath(cwd, path)) in store.IterRes()
    ensures IsAbs(cwd) ==> IsAbs(store.paths[res.resId]) && AbsPath(cwd, store.paths[res.resId]) == store.paths[res.resId]
  {
    first := store.AddRes(res, path, cwd);
    second := store.AddRes(res, path, cwd);
    if IsAbs(cwd) {
      AbsPathNormal(cwd, path);
    }
  }
}
