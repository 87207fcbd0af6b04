/**
 * `get_dal_handler` (catalog_backend/dal/__init__.py): a memoised factory
 * (`lru_cache`) over the singleton metaclass. Because the metaclass keys its
 * instance by class only, every table name yields the same handler, and that
 * handler keeps the table name of the very first request in the process.
 */
module Dal {
  import opened Wrappers
  import opened DynamoDal
  import opened DbHandler

  /**
   * The observable cache state: the table name of the `DynamoDalHandler`
   * singleton (if one was built) and the table names the memo holds.
   */
  datatype CacheState = CacheState(instance: Option<string>, memo: set<string>)

  /** A memo entry always points at the singleton, so a non-empty memo implies one exists. */
  predicate Wf(s: CacheState)
  {
    s.memo != {} ==> s.instance.Some?
  }

  /** One `get_dal_handler(tableName)` call: the new cache state and the returned handler's table name. */
  function Request(s: CacheState, tableName: string): (r: (CacheState, string))
    requires Wf(s)
    ensures Wf(r.0) && r.0.memo == s.memo + {tableName}
    ensures r.0.instance == Some(r.1)
    // the first table name wins
    ensures s.instance.Some? ==> r.1 == s.instance.value && r.0.instance == s.instance
    ensures s.instance.None? ==> r.1 == tableName
  {
    if tableName in s.memo then (s, s.instance.value)
    else
      var name := if s.instance.Some? then s.instance.value else tableName;
      (CacheState(Some(name), s.memo + {tableName}), name)
  }

  /** A series of `get_dal_handler` calls: the final state and each returned handler's table name. */
  function Replay(s: CacheState, names: seq<string>): (r: (CacheState, seq<string>))
    requires Wf(s)
    decreases |names|
  {
    if names == [] then (s, [])
    else
      var first := Request(s, names[0]);
      var rest := Replay(first.0, names[1..]);
      (rest.0, [first.1] + rest.1)
  }

  /** The table name every call of a series binds to: the existing singleton's, else the first requested. */
  function Bound(s: CacheState, names: seq<string>): string
    requires |names| > 0
  {
    if s.instance.Some? then s.instance.value else names[0]
  }

  /**
   * Every call of a series returns a handler whose table name is the first
   * one ever requested (or the pre-existing singleton's), whatever table
   * names the later calls pass; the memo gains every requested name.
   */
  lemma {:induction false} FirstTableNameWins(s: CacheState, names: seq<string>)
    requires Wf(s) && |names| > 0
    decreases |names|
    ensures var r := Replay(s, names);
      && |r.1| == |names|
      && (forall i :: 0 <= i < |names| ==> r.1[i] == Bound(s, names))
      && r.0.instance == Some(Bound(s, names))
      && r.0.memo == s.memo + set n | n in names
  {
    var first := Request(s, names[0]);
    if |names| > 1 {
      FirstTableNameWins(first.0, names[1..]);
      assert Bound(first.0, names[1..]) == Bound(s, names);
      assert (set n | n in names) == {names[0]} + set n | n in names[1..];
    } else {
      assert (set n | n in names) == {names[0]};
    }
  }

  /** Asking again for a table name already requested changes nothing. */
  lemma RequestIdempotent(s: CacheState, tableName: string)
    requires Wf(s)
    ensures var r := Request(s, tableName);
            Request(r.0, tableName) == r
  {
  }

  class DalFactory {
    /** The metaclass whose `_instances` the factory's constructor calls go through. */
    const meta: SingletonMeta
    /** The `lru_cache` of `get_dal_handler`, by table name. */
    var memo: map<string, DynamoDalHandler>

    ghost predicate Valid()
      reads this, meta
    {
      && meta.Valid()
      && forall t :: t in memo ==>
           DynamoDalHandlerClass in meta.instances && memo[t] == meta.instances[DynamoDalHandlerClass]
    }

    ghost function Abstract(): (s: CacheState)
      reads this, meta
      requires Valid()
      ensures Wf(s)
    {
      CacheState(
        if DynamoDalHandlerClass in meta.instances
        then Some(meta.instances[DynamoDalHandlerClass].tableName) else None,
        memo.Keys)
    }

    constructor (meta: SingletonMeta)
      requires meta.Valid()
      ensures Valid() && this.meta == meta && memo == map[]
    {
      this.meta := meta;
      memo := map[];
    }

    /** `get_dal_handler(table_name)`. */
    method GetDalHandler(tableName: string) returns (h: DynamoDalHandler)
      requires Valid()
      modifies this, meta
      ensures Valid()
      ensures Abstract() == Request(old(Abstract()), tableName).0
      ensures h.tableName == Request(old(Abstract()), tableName).1
      // the same object every time, through the memo or the metaclass
      ensures DynamoDalHandlerClass in meta.instances && h == meta.instances[DynamoDalHandlerClass]
      ensures old(DynamoDalHandlerClass in meta.instances) ==> h == old(meta.instances)[DynamoDalHandlerClass]
      ensures old(DynamoDalHandlerClass !in meta.instances) ==> fresh(h) && !h.connected
      ensures tableName in memo && memo[tableName] == h
      ensures forall x :: x in meta.instances.Values ==> x in old(meta.instances.Values) || fresh(x)
    {
      if tableName in memo {
        return memo[tableName];
      }
      var r := meta.Call(DynamoDalHandlerClass, tableName);
      h := r.value;
      memo := memo[tableName := h];
    }
  }
}
