/**
 * The pickledb-backed key-value store (utils/knowledge_db.py). Its dictionary is a
 * JSON object kept in memory and flushed after every change; the flush itself is
 * not modelled. The class-level registry `_instances`, which hands out one store
 * per file path, is an explicit Registry object here.
 */
module KnowledgeDb {
  import opened Wrappers
  import opened Dicts
  import opened Json

  class KnowledgeDB {
    const path: string
    /** The loaded pickledb dictionary, in insertion order. */
    var db: Table<JsonValue>

    ghost predicate Valid()
      reads this
    {
      WellFormed(db)
    }

    /** Loading the store: `persisted` is what the file at `path` holds (empty when there is no file). */
    constructor (path: string, persisted: Table<JsonValue>)
      requires WellFormed(persisted)
      ensures Valid()
      ensures this.path == path && db == persisted
    {
      this.path := path;
      db := persisted;
    }

    /** db.get(key); pickledb answers False for a missing key, here None. */
    function Get(key: string): (r: Option<JsonValue>)
      reads this
      ensures r.Some? <==> key in db.entries
      ensures r.Some? ==> r.value == db.entries[key]
    {
      Lookup(db, key)
    }

    /** db.getall(): the keys in insertion order. */
    function GetAll(): (keys: seq<string>)
      reads this
      requires Valid()
      ensures Distinct(keys)
      ensures forall k :: k in keys <==> k in db.entries
    {
      db.order
    }

    method Set(key: string, value: JsonValue) returns (ok: bool)
      requires Valid()
      modifies this
      ensures Valid()
      ensures db == Put(old(db), key, value)
      ensures ok
    {
      db := Put(db, key, value);
      ok := true;
    }

    /** Removes a present key and answers true; an absent key is not an error and changes nothing. */
    method Delete(key: string) returns (removed: bool)
      requires Valid()
      modifies this
      ensures Valid()
      ensures removed <==> key in old(db.entries)
      ensures removed ==> db == Remove(old(db), key)
      ensures !removed ==> db == old(db)
    {
      if key !in db.entries {
        return false;
      }
      db := Remove(db, key);
      removed := true;
    }

    /** db.deldb(): drops every entry. Removing the backing file is not modelled. */
    method Clear() returns (ok: bool)
      requires Valid()
      modifies this
      ensures Valid()
      ensures db.entries == map[] && db.order == []
      ensures ok
    {
      db := Empty();
      ok := true;
    }
  }

  /** KnowledgeDB._instances: at most one store per path. */
  class Registry {
    var instances: map<string, KnowledgeDB>

    ghost predicate Valid()
      reads this, instances.Values
    {
      forall p :: p in instances ==> instances[p].path == p && instances[p].Valid()
    }

    constructor ()
      ensures Valid() && instances == map[]
    {
      instances := map[];
    }

    /**
     * KnowledgeDB(db_path): the first call for a path loads `persisted` into a new store;
     * every later call returns that same store, whatever is on disk by then.
     */
    method Open(path: string, persisted: Table<JsonValue>) returns (store: KnowledgeDB)
      requires Valid() && WellFormed(persisted)
      modifies this
      ensures Valid()
      ensures store.path == path && store.Valid()
      ensures path in instances && instances[path] == store
      ensures path in old(instances) ==>
        store == old(instances)[path] && instances == old(instances) && store.db == old(store.db)
      ensures path !in old(instances) ==>
        fresh(store) && store.db == persisted && instances == old(instances)[path := store]
    {
      if path in instances {
        store := instances[path];
      } else {
        store := new KnowledgeDB(path, persisted);
        instances := instances[path := store];
      }
    }
  }

  /** Different paths never share a store. This holds by construction: Valid() ties each registered store to its own path. */
  lemma DistinctPathsDistinctStores(r: Registry, p: string, q: string)
    requires r.Valid() && p in r.instances && q in r.instances && p != q
    ensures r.instances[p] != r.instances[q]
  {
  }
}
