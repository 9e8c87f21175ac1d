/**
 * ORM entities and the session, as the middleware changes them in place. The
 * value `EntityState` is what an entity holds (its fields and which of them are
 * dirty); the classes hold it in fields their methods update.
 */
module Entities {
  import opened Values

  datatype EntityState = EntityState(fields: Fields, dirty: set<string>)

  /** `isDirty()` without arguments: some field is dirty. */
  predicate IsDirty(e: EntityState)
  {
    e.dirty != {}
  }

  /** `newEntity($data)`: a new entity, all of whose given fields are dirty. */
  function NewEntity(data: Fields): EntityState
  {
    EntityState(data, data.Keys)
  }

  /** A row as the finder returns it: nothing is dirty. */
  function LoadedEntity(data: Fields): EntityState
  {
    EntityState(data, {})
  }

  /** `set($k, $v)`: the field takes the value and is marked dirty. */
  function SetField(e: EntityState, k: string, v: Value): EntityState
  {
    EntityState(e.fields[k := v], e.dirty + {k})
  }

  /** `unset($k)`: the field and its dirty mark are removed. */
  function UnsetField(e: EntityState, k: string): EntityState
  {
    EntityState(e.fields - {k}, e.dirty - {k})
  }

  /**
   * After a successful save: the fields the save writes back into the entity
   * (a generated primary key, timestamp columns) replace the entity's own, and
   * nothing is dirty.
   */
  function Saved(e: EntityState, written: Fields): (r: EntityState)
    ensures !IsDirty(r)
    ensures forall k :: Get(r.fields, k) == if k in written then written[k] else Get(e.fields, k)
  {
    EntityState(e.fields + written, {})
  }

  /**
   * `patchEntity($e, $data)`: each given field whose value differs from the
   * current one is set and marked dirty; a field given its current value is
   * skipped. The ORM skips equal values only for scalar, null and object values
   * of table columns; the model assumes every patched field is such a column
   * (an array value or a key without a column would always be marked dirty).
   */
  function PatchEntity(e: EntityState, data: Fields): (r: EntityState)
    ensures forall k :: Get(r.fields, k) == if k in data then data[k] else Get(e.fields, k)
    ensures forall k :: k in r.dirty <==> k in e.dirty || (k in data && data[k] != Get(e.fields, k))
    ensures r.fields.Keys <= e.fields.Keys + data.Keys
  {
    var changed := set k | k in data && data[k] != Get(e.fields, k);
    EntityState(e.fields + map k | k in changed :: data[k], e.dirty + changed)
  }

  /** Patching a clean entity with the values it already holds leaves it clean and unchanged. */
  lemma PatchWithSameValuesIsClean(e: EntityState, data: Fields)
    requires !IsDirty(e)
    requires forall k :: k in data ==> data[k] == Get(e.fields, k)
    ensures PatchEntity(e, data) == e
  {
    var r := PatchEntity(e, data);
    assert r.dirty == {};
    forall k | k in r.fields
      ensures k in e.fields && r.fields[k] == e.fields[k]
    {
      assert Get(r.fields, k) == Get(e.fields, k);
    }
    assert r.fields == e.fields;
  }

  /** An ORM entity: its fields and its dirty marks. */
  class Entity {
    var fields: Fields
    var dirty: set<string>

    function State(): EntityState
      reads this
    {
      EntityState(fields, dirty)
    }

    /** `newEntity($data)`. */
    constructor Create(data: Fields)
      ensures State() == NewEntity(data)
    {
      fields := data;
      dirty := data.Keys;
    }

    /** An entity loaded by `find()->first()`. */
    constructor Load(data: Fields)
      ensures State() == LoadedEntity(data)
    {
      fields := data;
      dirty := {};
    }

    method Set(k: string, v: Value)
      modifies this
      ensures State() == SetField(old(State()), k, v)
    {
      fields := fields[k := v];
      dirty := dirty + {k};
    }

    method Unset(k: string)
      modifies this
      ensures State() == UnsetField(old(State()), k)
    {
      fields := fields - {k};
      dirty := dirty - {k};
    }

    method Patch(data: Fields)
      modifies this
      ensures State() == PatchEntity(old(State()), data)
    {
      var changed := set k | k in data && data[k] != Get(fields, k);
      fields := fields + map k | k in changed :: data[k];
      dirty := dirty + changed;
    }

    /** What a successful `save()` does to the entity: takes the written-back fields, then `clean()`. */
    method MarkSaved(written: Fields)
      modifies this
      ensures State() == Saved(old(State()), written)
    {
      fields := fields + written;
      dirty := {};
    }
  }

  /** The request's session: a key-value store. */
  class Session {
    var data: Fields

    constructor(data: Fields)
      ensures this.data == data
    {
      this.data := data;
    }

    function Read(k: string): Value
      reads this
    {
      Get(data, k)
    }

    method Write(k: string, v: Value)
      modifies this
      ensures data == old(data)[k := v]
    {
      data := data[k := v];
    }

    method Delete(k: string)
      modifies this
      ensures data == old(data) - {k}
    {
      data := data - {k};
    }
  }
}
