/**
 * The per-class metadata record of src/meta.ts and its lazily initialising
 * lookup. In the source the record hangs off the class itself, in its static
 * `__mongoose_meta__` property; here the `Registry` holds that property for
 * every function, as a table from the function to the contents of its record.
 */
module Meta {
  import opened JsValues

  /** The contents of one `MongooseMeta` record. */
  datatype MongooseMeta = MongooseMeta(
    schemaObj: map<string, Value>,       // field name -> Mongoose field options
    options: Value,                      // schema options given to @schema
    statics: map<string, Value>,         // static properties and functions
    methods: map<string, Func>,          // instance methods
    virtuals: map<string, Descriptor>)   // getters, setters and virtual references

  /** What a fresh record holds: `{}` for schemaObj, `[]` for the other four. */
  const EMPTY_META := MongooseMeta(map[], Arr([]), map[], map[], map[])

  /** The record of every function that has one. */
  type Table = map<Func, MongooseMeta>

  /** The record `getMetadata(c)` returns, read from `t`. */
  function MetaOf(t: Table, c: Func): MongooseMeta
  {
    if c in t then t[c] else EMPTY_META
  }

  /** The effect of `getMetadata(c)` on the records of all functions. */
  function Install(t: Table, c: Func): (r: Table)
    ensures r.Keys == t.Keys + {c}
    ensures forall d :: d in t ==> r[d] == t[d]
    ensures c !in t ==> r[c] == EMPTY_META
    ensures r[c] == MetaOf(t, c)
  {
    if c in t then t else t[c := EMPTY_META]
  }

  /** `r` differs from `t` at most in the record of `c`, which it has. */
  ghost predicate OnlyEntryChanged(t: Table, r: Table, c: Func)
  {
    && r.Keys == t.Keys + {c}
    && forall d :: d in t && d != c ==> r[d] == t[d]
  }

  /** A second `getMetadata(c)` finds the record the first one installed and changes nothing. */
  lemma InstallIdempotent(t: Table, c: Func)
    ensures Install(Install(t, c), c) == Install(t, c)
    ensures MetaOf(Install(t, c), c) == MetaOf(t, c)
  {
  }

  /** The `__mongoose_meta__` property of every function. */
  class Registry {
    var table: Table

    constructor ()
      ensures table == map[]
    {
      table := map[];
    }

    /** `hasMetadata(c)`: the function already carries a record, so `getMetadata(c)` would change nothing. */
    predicate HasMetadata(c: Func)
      reads this
      ensures HasMetadata(c) <==> Install(table, c) == table
    {
      c in table
    }

    /**
     * `getMetadata(target)`: installs an empty record on a function that has
     * none, and returns the function's record.
     */
    method GetMetadata(target: Func) returns (meta: MongooseMeta)
      modifies this
      ensures HasMetadata(target) && meta == table[target]
      ensures old(target in table) ==> table == old(table)
      ensures old(target !in table) ==> meta == EMPTY_META
      ensures OnlyEntryChanged(old(table), table, target)
      ensures table == Install(old(table), target)
    {
      if target !in table {
        table := table[target := EMPTY_META];
      }
      meta := table[target];
    }
  }
}
