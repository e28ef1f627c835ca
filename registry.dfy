/** The key registry (RLookup) as the compiler uses it: an interning map
    from a property name to its key.  Its own source is not part of this
    model; the three accessors carry the contracts their call sites rely
    on: reading finds only existing keys, writing refuses an existing key
    unless asked to override it, and loading refuses an existing key. */
module Registry {
  import opened Errors

  /** An RLookupKey: the document path it is loaded from, whether the
      index schema knows it (RLOOKUP_F_SCHEMASRC) and whether it is hidden
      from the reply (RLOOKUP_F_HIDDEN). */
  datatype LookupKey = LookupKey(path: string, schemaSrc: bool, hidden: bool)

  type Keys = map<string, LookupKey>

  /** RLookup_GetKey_Read: the key if it exists. */
  function ReadKey(keys: Keys, name: string): (r: Option<LookupKey>)
    ensures r.None? <==> name !in keys
    ensures r.Some? ==> name in keys && r.value == keys[name]
  {
    if name in keys then Some(keys[name]) else None
  }

  /** RLookup_GetKey_Write: a new key, or the existing one replaced when
      `override` is given (RLOOKUP_F_OVERRIDE); otherwise an existing key
      makes it fail. */
  function WriteKey(keys: Keys, name: string, hidden: bool, override: bool): (r: Option<Keys>)
    ensures r.None? <==> name in keys && !override
    ensures r.Some? ==> r.value == keys[name := LookupKey(name, false, hidden)]
  {
    if name in keys && !override then None else Some(keys[name := LookupKey(name, false, hidden)])
  }

  /** RLookup_GetKey_Load: a new key read from `path`, marked as coming
      from the schema when the schema has that path; an existing key makes
      it fail. */
  function LoadKey(keys: Keys, schema: set<string>, name: string, path: string): (r: Option<Keys>)
    ensures r.None? <==> name in keys
    ensures r.Some? ==> r.value == keys[name := LookupKey(path, path in schema, false)]
  {
    if name in keys then None else Some(keys[name := LookupKey(path, path in schema, false)])
  }

  /** An RLookup.  `schema` holds the paths of the index schema when the
      registry has a spec cache, and nothing otherwise. */
  class Lookup {
    var keys: Keys
    /** RLOOKUP_OPT_ALL_LOADED: every field of the document is available. */
    var allLoaded: bool
    const hasSpecCache: bool
    const schema: set<string>

    constructor (hasSpecCache: bool, schema: set<string>)
      ensures this.hasSpecCache == hasSpecCache && this.schema == (if hasSpecCache then schema else {})
      ensures keys == map[] && !allLoaded
    {
      this.hasSpecCache := hasSpecCache;
      this.schema := if hasSpecCache then schema else {};
      keys := map[];
      allLoaded := false;
    }

    method GetKeyWrite(name: string, hidden: bool, override: bool) returns (ok: bool)
      modifies this`keys
      ensures ok == WriteKey(old(keys), name, hidden, override).Some?
      ensures keys == if ok then WriteKey(old(keys), name, hidden, override).value else old(keys)
    {
      var w := WriteKey(keys, name, hidden, override);
      ok := w.Some?;
      if ok {
        keys := w.value;
      }
    }

    method GetKeyLoad(name: string, path: string) returns (k: Option<LookupKey>)
      modifies this`keys
      ensures k.Some? == LoadKey(old(keys), schema, name, path).Some?
      ensures keys == if k.Some? then LoadKey(old(keys), schema, name, path).value else old(keys)
      ensures k.Some? ==> k.value == LookupKey(path, path in schema, false)
    {
      var l := LoadKey(keys, schema, name, path);
      if l.Some? {
        keys := l.value;
        k := Some(LookupKey(path, path in schema, false));
      } else {
        k := None;
      }
    }
  }
}
