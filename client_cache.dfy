/** The per-method response cache of the Qtum client: which upstream RPC
    methods are cached, and the cache object itself, whose table maps a
    method name to serialized params to the upstream response bytes. */
module QtumClientCache {
  import opened Wrappers
  import opened CacheTables

  // ---------------------------------------------------------------------
  // Method names and the allow-list

  const MethodGetblock: string := "getblock"
  const MethodGetblockhash: string := "getblockhash"
  const MethodGetblockheader: string := "getblockheader"
  const MethodGetblockchaininfo: string := "getblockchaininfo"
  const MethodGethexaddress: string := "gethexaddress"
  const MethodGetrawtransaction: string := "getrawtransaction"
  const MethodGettransaction: string := "gettransaction"
  const MethodGettxout: string := "gettxout"
  const MethodDecoderawtransaction: string := "decoderawtransaction"

  /** The cached methods, in declaration order; getblockhash, getblockheader,
      getblockchaininfo and gettransaction are named but not listed. */
  const CachableMethods: seq<string> := [
    MethodGetblock,
    MethodGethexaddress,
    MethodGetrawtransaction,
    MethodGettxout,
    MethodDecoderawtransaction
  ]

  /** The lookup table that package initialisation builds from the list. */
  function CachableMethodsMap(): (table: map<string, bool>)
    ensures table.Keys == set m | m in CachableMethods
    ensures forall m :: m in table ==> table[m]
  {
    map m | m in CachableMethods :: true
  }

  /** Package initialisation: marks every listed method as cachable. */
  method InitCachableMethodsMap() returns (table: map<string, bool>)
    ensures table.Keys == set m | m in CachableMethods
    ensures forall m :: m in table ==> table[m]
    ensures table == CachableMethodsMap()
  {
    table := map[];
    for i := 0 to |CachableMethods|
      invariant table.Keys == set m | m in CachableMethods[..i]
      invariant forall m :: m in table ==> table[m]
    {
      assert CachableMethods[..i + 1] == CachableMethods[..i] + [CachableMethods[i]];
      table := table[CachableMethods[i] := true];
    }
    assert CachableMethods[..|CachableMethods|] == CachableMethods;
  }

  /** Go's map index yields `false` for a name that is not in the table. */
  function IsCachable(name: string): (b: bool)
    ensures b <==> name in CachableMethods
  {
    name in CachableMethodsMap() && CachableMethodsMap()[name]
  }

  /** Exactly five names are cachable, and the comparison is exact (case-sensitive). */
  lemma IsCachableExactly(name: string)
    ensures IsCachable(name) <==>
      name == "getblock" || name == "gethexaddress" || name == "getrawtransaction" ||
      name == "gettxout" || name == "decoderawtransaction"
  {
  }

  /** The named-but-commented-out methods are not cached, nor is any other call. */
  lemma NotCachable()
    ensures !IsCachable(MethodGetblockhash) && !IsCachable(MethodGetblockheader)
    ensures !IsCachable(MethodGetblockchaininfo) && !IsCachable(MethodGettransaction)
    ensures !IsCachable("sendtoaddress") && !IsCachable("GetBlock")
  {
    IsCachableExactly(MethodGetblockhash);
    IsCachableExactly(MethodGetblockheader);
    IsCachableExactly(MethodGetblockchaininfo);
    IsCachableExactly(MethodGettransaction);
    IsCachableExactly("sendtoaddress");
    IsCachableExactly("GetBlock");
  }

  // ---------------------------------------------------------------------
  // Expiry

  /** Go's time.Duration: a count of nanoseconds. */
  type Duration = int

  const Second: Duration := 1_000_000_000

  /** How long a cached response lives unless the store says otherwise. */
  const CacheTimeout: Duration := 15 * Second

  /** The flush timer's duration: a zero duration means the default. */
  function FlushTimeout(length: Duration): (d: Duration)
    ensures d != 0
    ensures length != 0 ==> d == length
    ensures length == 0 ==> d == CacheTimeout
  {
    if length == 0 then CacheTimeout else length
  }

  /** The duration a store asks for: `nil` is passed on as zero. */
  function RequestedLength(length: Option<Duration>): (d: Duration)
    ensures length.None? ==> d == 0
    ensures length.Some? ==> d == length.value
  {
    if length.None? then 0 else length.value
  }

  /** Neither an absent nor a zero duration ever schedules a zero-length timer:
      both mean 15 seconds. */
  lemma DefaultTimeout(length: Option<Duration>)
    ensures length == None ==> FlushTimeout(RequestedLength(length)) == CacheTimeout
    ensures length == Some(0) ==> FlushTimeout(RequestedLength(length)) == CacheTimeout
    ensures length.Some? && length.value != 0 ==> FlushTimeout(RequestedLength(length)) == length.value
  {
  }

  // ---------------------------------------------------------------------
  // The cache object

  /** A lifecycle (shutdown) signal; only its identity matters here. */
  datatype Context = Context(id: nat)

  /** The cache. `P` is the type of request params and `marshal` stands for
      their JSON serialization: deterministic, and `None` where it fails.
      `timers` holds the flush timers that have been started and have not yet
      fired, with their durations. */
  class ClientCache<P> {
    const marshal: P -> Option<string>
    var methods: Tables
    var ctx: Option<Context>
    var timers: map<EntryKey, Duration>

    /** Every cached entry has exactly one pending flush timer, and every
        pending timer belongs to a cached entry. */
    ghost predicate Valid()
      reads this
    {
      timers.Keys == LiveKeys(methods)
    }

    constructor (marshal: P -> Option<string>)
      ensures Valid()
      ensures this.marshal == marshal
      ensures methods == map[] && ctx == None && timers == map[]
    {
      this.marshal := marshal;
      methods := map[];
      ctx := None;
      timers := map[];
    }

    /** Stores with the default expiry. */
    method StoreResponse(name: string, params: P, response: seq<byte>) returns (res: Outcome)
      requires Valid()
      modifies this`methods, this`timers
      ensures Valid()
      ensures marshal(params).None? ==>
        res == Fail(SerializationFailure) && methods == old(methods) && timers == old(timers)
      ensures marshal(params).Some? ==> res == Pass
      ensures marshal(params).Some? ==>
        var key := marshal(params).value;
        && methods == StoreEntry(old(methods), name, key, response)
        && timers == if Lookup(old(methods), name, key).Some? then old(timers)
                     else old(timers)[(name, key) := CacheTimeout]
    {
      res := StoreResponseFor(name, params, response, None);
    }

    /** Stores `response` for (name, params) unless an entry is already there,
        and starts that entry's flush timer. */
    method StoreResponseFor(name: string, params: P, response: seq<byte>, length: Option<Duration>)
      returns (res: Outcome)
      requires Valid()
      modifies this`methods, this`timers
      ensures Valid()
      ensures marshal(params).None? ==>
        res == Fail(SerializationFailure) && methods == old(methods) && timers == old(timers)
      ensures marshal(params).Some? ==> res == Pass
      ensures marshal(params).Some? ==>
        var key := marshal(params).value;
        && methods == StoreEntry(old(methods), name, key, response)
        && timers == if Lookup(old(methods), name, key).Some? then old(timers)
                     else old(timers)[(name, key) := FlushTimeout(RequestedLength(length))]
    {
      var len := RequestedLength(length);
      var paramBytes := marshal(params);
      if paramBytes.None? {
        return Fail(SerializationFailure);
      }
      var key := paramBytes.value;
      ghost var before := methods;
      LiveKeysAfterStore(methods, name, key, response);
      var responses: map<string, seq<byte>>;
      if name in methods {
        responses := methods[name];
      } else {
        responses := map[];
        methods := methods[name := responses];
      }
      if key !in responses {
        methods := methods[name := responses[key := response]];
        SetFlushResponseTimer(name, key, len);
      }
      assert methods == StoreEntry(before, name, key, response);
      return Pass;
    }

    /** Starts the flush timer of one entry. */
    method SetFlushResponseTimer(name: string, key: string, length: Duration)
      modifies this`timers
      ensures timers == old(timers)[(name, key) := FlushTimeout(length)]
    {
      var d := length;
      if d == 0 {
        d := CacheTimeout;
      }
      timers := timers[(name, key) := d];
    }

    /** Looks the response up; a miss is `Success(None)`, not an error. */
    method GetResponse(name: string, params: P) returns (r: Result<Option<seq<byte>>>)
      ensures marshal(params).None? ==> r == Failure(SerializationFailure)
      ensures marshal(params).Some? ==> r == Success(Lookup(methods, name, marshal(params).value))
    {
      var paramBytes := marshal(params);
      if paramBytes.None? {
        return Failure(SerializationFailure);
      }
      if name in methods {
        var resp := methods[name];
        if paramBytes.value in resp {
          return Success(Some(resp[paramBytes.value]));
        }
      }
      return Success(None);
    }

    /** The flush timer of (name, key) fires: that one response is deleted
        and its timer is gone. */
    method Evict(name: string, key: string)
      requires Valid()
      modifies this`methods, this`timers
      ensures Valid()
      ensures methods == EvictEntry(old(methods), name, key)
      ensures timers == old(timers) - {(name, key)}
    {
      LiveKeysAfterEvict(methods, name, key);
      if name in methods {
        methods := methods[name := methods[name] - {key}];
      }
      timers := timers - {(name, key)};
    }

    /** Installs the lifecycle signal; once one is set, later calls do nothing. */
    method SetContext(c: Context)
      modifies this`ctx
      ensures ctx == if old(ctx).None? then Some(c) else old(ctx)
    {
      if ctx.None? {
        ctx := Some(c);
      }
    }
  }

  /** Store, then look up with the same params: the response comes back, and a
      second store of the same key neither replaces it nor starts a second timer. */
  method StoreThenGet<P>(cache: ClientCache<P>, name: string, params: P, first: seq<byte>, second: seq<byte>)
    returns (r: Result<Option<seq<byte>>>)
    requires cache.Valid()
    requires cache.marshal(params).Some?
    requires Lookup(cache.methods, name, cache.marshal(params).value).None?
    modifies cache`methods, cache`timers
    ensures r == Success(Some(first))
    ensures |cache.timers| == |old(cache.timers)| + 1
  {
    var key := cache.marshal(params).value;
    assert (name, key) !in cache.timers;
    var _ := cache.StoreResponse(name, params, first);
    ghost var afterFirst := cache.methods;
    var timersAfterFirst := cache.timers;
    LookupAfterStore(old(cache.methods), name, key, first, name, key);
    StoreOccupiedIsNoOp(afterFirst, name, key, second);
    var _ := cache.StoreResponse(name, params, second);
    assert cache.methods == afterFirst && cache.timers == timersAfterFirst;
    r := cache.GetResponse(name, params);
  }
}
