/** External object storage (S3 in the running system), as the handlers use
    it: `put` of an uploaded file and `delete` of a stored object. Its
    implementation is not part of this model; only its contract is. Every
    delete call is recorded, in order, in a ghost log so that the handlers'
    ordering guarantees can be stated. */
module ObjectStorage {
  import opened Common

  class Storage {
    /** The references of the objects the store holds. */
    var objects: set<Ref>
    /** The failure oracle: while set, every delete call is rejected. */
    var failing: bool
    /** Every delete call issued, in order, with the key it was given
        (`None` for an undefined key, such as a user without a profile
        image). */
    ghost var deletes: seq<Option<Ref>>

    constructor (objects: set<Ref>, failing: bool)
      ensures this.objects == objects && this.failing == failing && deletes == []
    {
      this.objects, this.failing, deletes := objects, failing, [];
    }

    /** A completed upload: the object is stored under `location`. */
    method Put(location: Ref)
      modifies this`objects
      ensures objects == old(objects) + {location}
    {
      objects := objects + {location};
    }

    /** `deleteItem(key)`: the call is logged; when the store accepts it the
        object is gone, when it rejects it nothing changes. */
    method Delete(key: Option<Ref>) returns (ok: bool)
      modifies this`objects, this`deletes
      ensures deletes == old(deletes) + [key]
      ensures ok == !failing
      ensures ok && key.Some? ==> objects == old(objects) - {key.value}
      ensures !ok || key.None? ==> objects == old(objects)
    {
      deletes := deletes + [key];
      ok := !failing;
      if ok && key.Some? {
        objects := objects - {key.value};
      }
    }
  }
}
