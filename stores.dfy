/**
 * `LocalMemoryStore` of the newer package: objects by `obj_id`, steps by
 * `step_id` and blob paths by blob id, each in its own dict, with every
 * insertion checking for a collision first.
 */
module Stores {
  import opened Wrappers
  import opened Values
  import opened DataStructs
  import opened Conversions
  import opened Entities
  import opened Paths

  class LocalMemoryStore {
    var objects: map<string, Object>
    var paths: map<string, string>
    var steps: map<string, Step>

    /** An empty store. */
    constructor ()
      ensures objects == map[] && paths == map[] && steps == map[]
    {
      objects := map[];
      paths := map[];
      steps := map[];
    }

    predicate HasBlob(blobId: string)
      reads this
    {
      blobId in paths
    }

    /** `get_blob_url`: a file URL for the stored path; KeyError for an unknown id. */
    function GetBlobUrl(blobId: string): (r: Result<string>)
      reads this
      ensures r.Success? <==> HasBlob(blobId)
      ensures r.Success? ==> r.value == "file://" + paths[blobId]
      ensures r.Failure? ==> r.error == KeyError(blobId)
    {
      if blobId in paths then Success("file://" + paths[blobId]) else Failure(KeyError(blobId))
    }

    /** The blob ids, in the order the model visits a dict. */
    function IterBlob(): (r: seq<string>)
      reads this
      ensures forall b :: b in r <==> HasBlob(b)
      ensures |r| == |paths|
    {
      SortedKeys(paths.Keys)
    }

    /**
     * `add_blob`: KeyError on a known id, otherwise record `abspath(path)`,
     * resolved against the working directory `cwd`; nothing else changes.
     */
    method AddBlob(blobId: string, path: string, cwd: string) returns (r: Result<()>)
      modifies this
      ensures old(blobId in paths) ==> r == Failure(KeyError(blobId)) && paths == old(paths)
      ensures !old(blobId in paths) ==> r == Success(()) && paths == old(paths)[blobId := AbsPath(cwd, path)]
      ensures objects == old(objects) && steps == old(steps)
    {
      if blobId in paths {
        return Failure(KeyError(blobId));
      }
      paths := paths[blobId := AbsPath(cwd, path)];
      return Success(());
    }

    predicate HasObj(objId: string)
      reads this
    {
      objId in objects
    }

    /** `get_obj`: KeyError for an unknown id. */
    function GetObj(objId: string): (r: Result<Object>)
      reads this
      ensures r.Success? <==> HasObj(objId)
      ensures r.Success? ==> r.value == objects[objId]
      ensures r.Failure? ==> r.error == KeyError(objId)
    {
      if objId in objects then Success(objects[objId]) else Failure(KeyError(objId))
    }

    /** `iter_obj`: every stored `(obj_id, obj)` pair once. */
    function IterObj(): (r: seq<(string, Object)>)
      reads this
      ensures |r| == |objects|
      ensures forall id, o :: (id, o) in r <==> id in objects && objects[id] == o
    {
      Items(objects)
    }

    /**
     * `add_obj`: the id is the object's `obj_id` attribute; KeyError on a
     * known id, otherwise the object is stored under it.
     */
    method AddObj(obj: Object) returns (r: Result<()>)
      modifies this
      ensures StrAttr(obj.data, "obj_id").Failure? ==> r == Failure(StrAttr(obj.data, "obj_id").error) && objects == old(objects)
      ensures StrAttr(obj.data, "obj_id").Success? ==> var id := StrAttr(obj.data, "obj_id").value;
        && (id in old(objects) ==> r == Failure(KeyError(id)) && objects == old(objects))
        && (id !in old(objects) ==> r == Success(()) && objects == old(objects)[id := obj])
      ensures paths == old(paths) && steps == old(steps)
    {
      var id := StrAttr(obj.data, "obj_id");
      if id.Failure? {
        return Failure(id.error);
      }
      if id.value in objects {
        return Failure(KeyError(id.value));
      }
      objects := objects[id.value := obj];
      return Success(());
    }

    predicate HasStep(stepId: string)
      reads this
    {
      stepId in steps
    }

    /** `get_step`: KeyError for an unknown id. */
    function GetStep(stepId: string): (r: Result<Step>)
      reads this
      ensures r.Success? <==> HasStep(stepId)
      ensures r.Success? ==> r.value == steps[stepId]
      ensures r.Failure? ==> r.error == KeyError(stepId)
    {
      if stepId in steps then Success(steps[stepId]) else Failure(KeyError(stepId))
    }

    /** `iter_step`: every stored `(step_id, step)` pair once. */
    function IterStep(): (r: seq<(string, Step)>)
      reads this
      ensures |r| == |steps|
      ensures forall id, s :: (id, s) in r <==> id in steps && steps[id] == s
    {
      Items(steps)
    }

    /** `add_step`: as `add_obj`, keyed by the step's `step_id`. */
    method AddStep(step: Step) returns (r: Result<()>)
      modifies this
      ensures StrAttr(step.data, "step_id").Failure? ==> r == Failure(StrAttr(step.data, "step_id").error) && steps == old(steps)
      ensures StrAttr(step.data, "step_id").Success? ==> var id := StrAttr(step.data, "step_id").value;
        && (id in old(steps) ==> r == Failure(KeyError(id)) && steps == old(steps))
        && (id !in old(steps) ==> r == Success(()) && steps == old(steps)[id := step])
      ensures paths == old(paths) && objects == old(objects)
    {
      var id := StrAttr(step.data, "step_id");
      if id.Failure? {
        return Failure(id.error);
      }
      if id.value in steps {
        return Failure(KeyError(id.value));
      }
      steps := steps[id.value := step];
      return Success(());
    }
  }

  /**
   * After a successful `add_obj`, `has_obj` holds and `get_obj` returns the
   * object; a second `add_obj` of the same id fails and leaves it in place.
   */
  method AddThenGet(store: LocalMemoryStore, obj: Object) returns (first: Result<()>, second: Result<()>)
    modifies store
    requires StrAttr(obj.data, "obj_id").Success? && !store.HasObj(StrAttr(obj.data, "obj_id").value)
    ensures var id := StrAttr(obj.data, "obj_id").value;
      && first == Success(()) && store.HasObj(id) && store.GetObj(id) == Success(obj)
      && second == Failure(KeyError(id))
  {
    first := store.AddObj(obj);
    second := store.AddObj(obj);
  }

  /**
   * After `add_blob` of a new id, `get_blob_url` gives `file://` followed by
   * the resolved path; in an absolute working directory that is an absolute,
   * normalised path, so the URL names a local file.
   */
  method AddBlobThenUrl(store: LocalMemoryStore, blobId: string, path: string, cwd: string)
    returns (first: Result<()>, url: Result<string>)
    requires !store.HasBlob(blobId)
    modifies store
    ensures first == Success(())
    ensures url == Success("file://" + AbsPath(cwd, path))
    ensures IsAbs(cwd) ==> IsAbs(url.value[|"file://"|..]) && AbsPath(cwd, url.value[|"file://"|..]) == url.value[|"file://"|..]
  {
    first := store.AddBlob(blobId, path, cwd);
    url := store.GetBlobUrl(blobId);
    if IsAbs(cwd) {
      AbsPathNormal(cwd, path);
      assert url.value[|"file://"|..] == AbsPath(cwd, path);
    }
  }
}
