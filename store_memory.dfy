/**
 * The in-memory identity store of store_memory.go: a table from a
 * credential string to an identity pointer, where nil (`None`) is both
 * "never saved" and "saved as nil".
 */
module StoreMemory {
  import opened Wrappers
  import opened Identities

  /** The table's contents; a Go map may hold nil values, hence `Option`. */
  type Table = map<string, Option<Identity>>

  /** Indexing a Go map: the stored value, or the zero value nil when absent. */
  function Lookup(t: Table, creds: string): Option<Identity>
  {
    if creds in t then t[creds] else None
  }

  /** An empty table answers nil for every credential. */
  lemma LookupEmpty(creds: string)
    ensures Lookup(map[], creds) == None
  {
  }

  /** After storing `idt` under `creds`, that credential yields `idt` and
      every other credential yields what it yielded before. */
  lemma LookupAfterStore(t: Table, creds: string, idt: Option<Identity>, other: string)
    ensures Lookup(t[creds := idt], creds) == idt
    ensures other != creds ==> Lookup(t[creds := idt], other) == Lookup(t, other)
  {
  }

  /** Last write wins: a second store under the same credential erases the first. */
  lemma StoreOverwrites(t: Table, creds: string, a: Option<Identity>, b: Option<Identity>)
    ensures t[creds := a][creds := b] == t[creds := b]
  {
  }

  /** Absence and a stored nil read alike. */
  lemma NilAndAbsentAlike(t: Table, creds: string)
    requires creds !in t
    ensures Lookup(t[creds := None], creds) == Lookup(t, creds) == None
  {
  }

  /** `MemoryStore`; its read/write lock is not modelled. */
  class MemoryStore {
    var idts: Table

    /** `NewMemoryStore`: an empty table. */
    constructor ()
      ensures idts == map[]
    {
      idts := map[];
    }

    /** `Load`: the identity stored for `creds`, nil when there is none. */
    method Load(creds: string) returns (idt: Option<Identity>)
      ensures creds in idts ==> idt == idts[creds]
      ensures creds !in idts ==> idt == None
      ensures idt == Lookup(idts, creds)
    {
      if creds in idts {
        idt := idts[creds];
      } else {
        idt := None;
      }
    }

    /** `Save`: store `idt` under `creds`, replacing any earlier entry. */
    method Save(creds: string, idt: Option<Identity>)
      modifies this
      ensures idts == old(idts)[creds := idt]
    {
      idts := idts[creds := idt];
    }
  }

  /** A fresh store answers nil, and keeps answering nil (store_memory_test.go,
      TestLoadUnexisting). */
  method LoadUnexisting(creds: string) returns (first: Option<Identity>, second: Option<Identity>)
    ensures first == None && second == None
  {
    var store := new MemoryStore();
    first := store.Load(creds);
    second := store.Load(creds);
  }

  /** What was saved is what is loaded, and a credential never saved still
      yields nil (store_memory_test.go, TestSaveAndLoad). */
  method SaveAndLoad(creds: string, other: string, idt: Identity)
    returns (loaded: Option<Identity>, unsaved: Option<Identity>)
    requires other != creds
    ensures loaded == Some(idt)
    ensures unsaved == None
  {
    var store := new MemoryStore();
    store.Save(creds, Some(idt));
    loaded := store.Load(creds);
    unsaved := store.Load(other);
  }

  /** Saving twice under one credential keeps the second identity, and leaves
      what another credential yields as it was. */
  method SaveTwice(store: MemoryStore, creds: string, other: string, a: Option<Identity>, b: Option<Identity>)
    returns (loaded: Option<Identity>, otherBefore: Option<Identity>, otherAfter: Option<Identity>)
    requires other != creds
    modifies store
    ensures loaded == b
    ensures otherAfter == otherBefore
  {
    otherBefore := store.Load(other);
    store.Save(creds, a);
    store.Save(creds, b);
    loaded := store.Load(creds);
    otherAfter := store.Load(other);
  }

  /** `Load` changes nothing: two loads in a row agree. */
  method LoadTwice(store: MemoryStore, creds: string) returns (first: Option<Identity>, second: Option<Identity>)
    ensures first == second
  {
    first := store.Load(creds);
    second := store.Load(creds);
  }
}
