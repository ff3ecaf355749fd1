/** The shared memory of a run: one dict per context id, merged one level deep. */
module Memory {
  import opened JsonData
  import PyDict

  /** One context's memory: top-level keys (agent names, `summary`, ...) to values. */
  type Entry = PyDict.Dict<string, Json>

  /** The whole store, as a value: what `MemoryStore.Contents()` returns. */
  type Store = map<string, Entry>

  /** `store.get(ctx, {})`: an unknown context reads as an empty dict. */
  function EntryOf(s: Store, ctx: string): (e: Entry)
    ensures ctx !in s ==> e == []
    ensures ctx in s ==> e == s[ctx]
  {
    if ctx in s then s[ctx] else []
  }

  /** `update(ctx, newData)`: create an empty entry if needed, then `dict.update`. */
  function Merged(s: Store, ctx: string, newData: Entry): (r: Store)
    ensures ctx in r && r.Keys == s.Keys + {ctx}
    ensures forall c :: c in s && c != ctx ==> r[c] == s[c]
  {
    s[ctx := PyDict.Update(EntryOf(s, ctx), newData)]
  }

  /** After `update(ctx, d)` the context is present, each key of `d` reads its
      value from `d`, every other key of that context keeps its value, and the
      other contexts are untouched. */
  lemma MergedSpec(s: Store, ctx: string, newData: Entry)
    requires PyDict.UniqueKeys(newData)
    ensures ctx in Merged(s, ctx, newData)
    ensures forall k, dflt: Json :: PyDict.HasKey(newData, k) ==>
      PyDict.Get(EntryOf(Merged(s, ctx, newData), ctx), k, dflt) == PyDict.Get(newData, k, dflt)
    ensures forall k, dflt: Json :: !PyDict.HasKey(newData, k) ==>
      PyDict.Get(EntryOf(Merged(s, ctx, newData), ctx), k, dflt) == PyDict.Get(EntryOf(s, ctx), k, dflt)
    ensures forall k :: PyDict.HasKey(EntryOf(Merged(s, ctx, newData), ctx), k) <==>
      PyDict.HasKey(EntryOf(s, ctx), k) || PyDict.HasKey(newData, k)
    ensures forall c :: c != ctx ==> EntryOf(Merged(s, ctx, newData), c) == EntryOf(s, c)
  {
    PyDict.UpdateSpec(EntryOf(s, ctx), newData);
  }

  /** `update(ctx, {})` on an unknown context makes it present with an empty dict. */
  lemma MergedEmptyCreates(s: Store, ctx: string)
    requires ctx !in s
    ensures ctx in Merged(s, ctx, []) && Merged(s, ctx, [])[ctx] == []
  {
  }

  /** Repeating an update changes nothing. */
  lemma MergedIdempotent(s: Store, ctx: string, newData: Entry)
    requires PyDict.UniqueKeys(newData)
    ensures Merged(Merged(s, ctx, newData), ctx, newData) == Merged(s, ctx, newData)
  {
    PyDict.UpdateIdempotent(EntryOf(s, ctx), newData);
  }

  /** A key written by two updates holds the later write. */
  lemma LastWriteWins(s: Store, ctx: string, first: Entry, second: Entry, k: string, dflt: Json)
    requires PyDict.UniqueKeys(first) && PyDict.UniqueKeys(second)
    requires PyDict.HasKey(second, k)
    ensures PyDict.Get(EntryOf(Merged(Merged(s, ctx, first), ctx, second), ctx), k, dflt)
         == PyDict.Get(second, k, dflt)
  {
    MergedSpec(Merged(s, ctx, first), ctx, second);
  }

  /** A Python dict object: `MemoryStore.get` hands out the object itself. */
  class MutableDict {
    var entries: Entry

    constructor()
      ensures entries == []
    {
      entries := [];
    }
  }

  /** `MemoryStore` of mcp/memory.py. */
  class MemoryStore {
    var store: map<string, MutableDict>

    /** No two contexts share a dict object. */
    ghost predicate Valid()
      reads this
    {
      forall c, c' :: c in store && c' in store && c != c' ==> store[c] != store[c']
    }

    ghost function Contents(): Store
      reads this, store.Values
    {
      map c | c in store :: store[c].entries
    }

    constructor()
      ensures Valid() && Contents() == map[]
    {
      store := map[];
    }

    method Update(ctx: string, newData: Entry)
      requires Valid()
      modifies this, store.Values
      ensures Valid()
      ensures Contents() == Merged(old(Contents()), ctx, newData)
      ensures forall c :: c in old(store) ==> c in store && store[c] == old(store[c])
      ensures ctx !in old(store) ==> fresh(store[ctx])
      ensures forall d :: d in store.Values ==> d in old(store.Values) || fresh(d)
    {
      if ctx !in store {
        var d := new MutableDict();
        store := store[ctx := d];
      }
      var d := store[ctx];
      d.entries := PyDict.Update(d.entries, newData);
    }

    /** The stored dict object itself, or a fresh empty one that is not stored. */
    method Get(ctx: string) returns (d: MutableDict)
      ensures ctx in store ==> d == store[ctx]
      ensures ctx !in store ==> fresh(d) && d.entries == []
      ensures d.entries == EntryOf(Contents(), ctx)
    {
      if ctx in store {
        d := store[ctx];
      } else {
        d := new MutableDict();
      }
    }
  }
}
