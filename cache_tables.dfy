/** The two-level table of the response cache, as values: method name ->
    serialized params -> response bytes, with the store (first writer wins),
    the lookup and the single-key eviction that the cache applies to it. */
module CacheTables {
  import opened Wrappers

  newtype byte = x: int | 0 <= x < 256

  type Tables = map<string, map<string, seq<byte>>>

  /** A cache entry's identity: method name and serialized params. */
  type EntryKey = (string, string)

  /** The inner table of method `name`, empty when that method has none yet. */
  function Inner(t: Tables, name: string): map<string, seq<byte>> {
    if name in t then t[name] else map[]
  }

  /** The two-level lookup: present only when both the method's table and the key exist. */
  function Lookup(t: Tables, name: string, key: string): (r: Option<seq<byte>>)
    ensures r.Some? <==> name in t && key in t[name]
    ensures r.Some? ==> r.value == t[name][key]
  {
    if name in t && key in t[name] then Some(t[name][key]) else None
  }

  /** Every (name, key) that holds a response. */
  function LiveKeys(t: Tables): set<EntryKey> {
    set m, k | m in t && k in t[m] :: (m, k)
  }

  /** The store step: the inner table of `name` is created when absent, and
      `response` is installed only when no entry for `key` exists. */
  function StoreEntry(t: Tables, name: string, key: string, response: seq<byte>): (t': Tables)
    ensures t'.Keys == t.Keys + {name}
    ensures t'[name].Keys == Inner(t, name).Keys + {key}
  {
    var inner := Inner(t, name);
    t[name := if key in inner then inner else inner[key := response]]
  }

  /** The eviction step, Go's `delete(methods[name], key)`: removes the one
      key and keeps the (possibly now empty) inner table; a no-op when the
      method has no table. */
  function EvictEntry(t: Tables, name: string, key: string): (t': Tables)
    ensures t'.Keys == t.Keys
    ensures name in t ==> t'[name].Keys == t[name].Keys - {key}
  {
    if name in t then t[name := t[name] - {key}] else t
  }

  /** A store makes the key present with the first writer's response and
      leaves every other entry as it was. */
  lemma LookupAfterStore(t: Tables, name: string, key: string, response: seq<byte>,
                         m: string, k: string)
    ensures Lookup(StoreEntry(t, name, key, response), m, k) ==
      if m == name && k == key then Some(Lookup(t, name, key).GetOr(response))
      else Lookup(t, m, k)
  {
  }

  /** Storing into an occupied key changes nothing: first writer wins. */
  lemma StoreOccupiedIsNoOp(t: Tables, name: string, key: string, response: seq<byte>)
    requires Lookup(t, name, key).Some?
    ensures StoreEntry(t, name, key, response) == t
  {
    assert name in t;
    assert t[name := t[name]] == t;
  }

  /** An eviction makes its key absent and leaves every other entry as it was. */
  lemma LookupAfterEvict(t: Tables, name: string, key: string, m: string, k: string)
    ensures Lookup(EvictEntry(t, name, key), m, k) ==
      if m == name && k == key then None else Lookup(t, m, k)
  {
  }

  lemma LiveKeysAfterStore(t: Tables, name: string, key: string, response: seq<byte>)
    ensures LiveKeys(StoreEntry(t, name, key, response)) == LiveKeys(t) + {(name, key)}
  {
    var t' := StoreEntry(t, name, key, response);
    forall e | e in LiveKeys(t') ensures e in LiveKeys(t) + {(name, key)} {
      LookupAfterStore(t, name, key, response, e.0, e.1);
    }
    forall e | e in LiveKeys(t) + {(name, key)} ensures e in LiveKeys(t') {
      LookupAfterStore(t, name, key, response, e.0, e.1);
    }
  }

  lemma LiveKeysAfterEvict(t: Tables, name: string, key: string)
    ensures LiveKeys(EvictEntry(t, name, key)) == LiveKeys(t) - {(name, key)}
  {
    var t' := EvictEntry(t, name, key);
    forall e | e in LiveKeys(t') ensures e in LiveKeys(t) - {(name, key)} {
      LookupAfterEvict(t, name, key, e.0, e.1);
    }
    forall e | e in LiveKeys(t) - {(name, key)} ensures e in LiveKeys(t') {
      LookupAfterEvict(t, name, key, e.0, e.1);
    }
  }

  // ---------------------------------------------------------------------
  // Sequences of cache operations

  /** A store or an eviction, with the params already serialized. */
  datatype Op = Store(name: string, key: string, response: seq<byte>) | Evict(name: string, key: string)

  function Apply(t: Tables, op: Op): Tables {
    match op
    case Store(m, k, r) => StoreEntry(t, m, k, r)
    case Evict(m, k) => EvictEntry(t, m, k)
  }

  function Run(t: Tables, ops: seq<Op>): Tables
    decreases |ops|
  {
    if ops == [] then t else Run(Apply(t, ops[0]), ops[1..])
  }

  /** Nothing in `ops` evicts (name, key). */
  predicate NoEvictionOf(ops: seq<Op>, name: string, key: string) {
    forall i :: 0 <= i < |ops| ==> ops[i] != Evict(name, key)
  }

  /** Once a response is stored, every later lookup of that key yields it, and
      later stores of the key do not replace it, until the key is evicted. */
  lemma {:induction false} StoredSurvivesUntilEvicted(t: Tables, name: string, key: string,
                                                      response: seq<byte>, ops: seq<Op>)
    requires Lookup(t, name, key) == Some(response)
    requires NoEvictionOf(ops, name, key)
    ensures Lookup(Run(t, ops), name, key) == Some(response)
    decreases |ops|
  {
    if ops != [] {
      var t1 := Apply(t, ops[0]);
      match ops[0] {
        case Store(m, k, r) =>
          LookupAfterStore(t, m, k, r, name, key);
        case Evict(m, k) =>
          assert ops[0] != Evict(name, key);
          LookupAfterEvict(t, m, k, name, key);
      }
      assert NoEvictionOf(ops[1..], name, key) by {
        forall i | 0 <= i < |ops[1..]| ensures ops[1..][i] != Evict(name, key) {
          assert ops[1..][i] == ops[i + 1];
        }
      }
      StoredSurvivesUntilEvicted(t1, name, key, response, ops[1..]);
    }
  }

  /** Store then lookup: the first response stored for a key is the one
      every later lookup returns until that key is evicted. */
  lemma StoreThenLookup(t: Tables, name: string, key: string, response: seq<byte>, ops: seq<Op>)
    requires Lookup(t, name, key).None?
    requires NoEvictionOf(ops, name, key)
    ensures Lookup(Run(StoreEntry(t, name, key, response), ops), name, key) == Some(response)
  {
    LookupAfterStore(t, name, key, response, name, key);
    StoredSurvivesUntilEvicted(StoreEntry(t, name, key, response), name, key, response, ops);
  }

  /** An absent key stays absent until something stores it again; with
      LookupAfterEvict this says an evicted key reads as absent from then on. */
  lemma {:induction false} EvictedStaysAbsent(t: Tables, name: string, key: string, ops: seq<Op>)
    requires Lookup(t, name, key).None?
    requires forall i :: 0 <= i < |ops| ==> !(ops[i].Store? && ops[i].name == name && ops[i].key == key)
    ensures Lookup(Run(t, ops), name, key).None?
    decreases |ops|
  {
    if ops != [] {
      match ops[0] {
        case Store(m, k, r) =>
          LookupAfterStore(t, m, k, r, name, key);
        case Evict(m, k) =>
          LookupAfterEvict(t, m, k, name, key);
      }
      EvictedStaysAbsent(Apply(t, ops[0]), name, key, ops[1..]);
    }
  }
}
