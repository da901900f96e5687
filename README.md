# Qtum contract-script decoder and response cache, in Dafny

This project models two pieces of the Qtum side of the Janus gateway, which serves an
Ethereum JSON-RPC interface on top of a Qtum node.

1. **The contract-invocation ASM decoder.** A Qtum transaction that calls or creates a
   contract carries a script. Its disassembly, split at spaces, is a token list. The
   decoder turns the list into a `ContractInvokeInfo` with the fields `from`, `gasLimit`,
   `gasPrice`, `callData` and `to`. There are four entry points, one per script shape:
   `ParseCallSenderASM`, `ParseCreateSenderASM`, `ParseCreateASM` and `ParseCallASM`.
   The grammar is positional:
   - an optional sender prefix `[version, senderAddress, signatureScript, OP_SENDER]`;
   - then `[vmVersion, gasLimit, gasPrice, callData]`;
   - for calls, the contract address;
   - the closing `OP_CALL` or `OP_CREATE`.

   The gas-limit token is a little-endian byte string. The decoder emits it with its
   byte pairs reversed and its leading zeros dropped (`90d003` becomes `3d090`). Every
   other field is copied verbatim. The version tokens and the signature script are dropped.
2. **The per-method response cache (`clientCache`).** It is a two-level table: method
   name, then serialized params, then response bytes. Only an allow-list of methods is
   cacheable. Stores are first-writer-wins, and each stored entry gets its own flush
   timer (15 seconds by default). A lookup reports a miss as "absent", not as an error.
   The lifecycle context is set at most once.

Files:
- `wrappers.dfy`: module `Wrappers` holds `Option`, `Result`, `Outcome` and the two error
  kinds, `MalformedScript` and `SerializationFailure`.
- `hex_bytes.dfy`: module `HexBytes` holds byte-pair reversal and leading-zero trimming. It
  also gives the numeric reading of a hex string in both byte orders.
- `btcasm.dfy`: module `BtcAsm` holds the decoder, a script assembler that is its inverse,
  the round trips and the recorded vectors.
- `cache_tables.dfy`: module `CacheTables` models the cache table as a value: its store,
  lookup and eviction steps, and what holds over any sequence of them.
- `client_cache.dfy`: module `QtumClientCache` holds the allow-list, its initialisation
  loop, the default timeout, and the `ClientCache` class whose methods update the table
  in place.

How the model reads the source:
- The decoder's implementation file is not part of this model. Its behaviour is taken from
  the four test vectors in `pkg/qtum/btcasm_test.go`. Each shape must match exactly: the
  token count, and each marker at its position. Anything else is `Failure(MalformedScript)`.
  So is a gas-limit token of odd length, which is not a whole number of bytes. No other
  failure is modelled, and no error message is claimed.
- An all-zero or empty gas-limit token decodes to `"0"`. This is the number the token
  denotes. The vectors do not cover this case.
- `ParseCallSenderASM` and `ParseCreateSenderASM` are written as a shared sender-prefix
  step followed by the call or create body. `SenderPrefixOnlySetsFrom` proves that this
  agrees with decoding the body alone.
- `json.Marshal` is the class's `marshal` constant. It is a deterministic function from
  params to `Option<string>`, where `None` is a serialization failure. It is passed to the
  constructor; in Go it is a package-level function.
- The flush goroutines that have started and not yet fired are the `timers` field, which
  maps each `(method, key)` to its duration. `Valid()` requires that the entries holding a
  response are exactly the keys of `timers`. So every cached entry has exactly one pending
  flush, and no store ever schedules a second one.
- A timer firing is the explicit method `Evict(name, key)`. Like Go's `delete`, it keeps
  the inner table even when that table becomes empty, and does nothing when the method has
  no table.
- `storeResponseFor` does not consult `isCachable`. Filtering by the allow-list is left to
  its callers, and the model does the same. The allow-list is therefore a rule the
  callers keep, not one the cache enforces.
- On a miss, Go's `getResponse` returns `nil, nil`. The model returns `Success(None)`. So
  it separates a miss from a stored nil response, which Go's callers cannot tell apart. A
  stored empty, non-nil slice is still distinguishable from a miss in Go.

## Model

| member | source | states |
|---|---|---|
| `HexBytes.ReversePairsAt` | pkg/qtum/btcasm_test.go:13-20 | byte j of the reversed gas token is byte n-1-j of the original, and the two digits inside each byte keep their order |
| `HexBytes.ReversePairsInvolution` | pkg/qtum/btcasm_test.go:13-20 | reversing the byte pairs of an even-length string twice gives the original back |
| `HexBytes.TrimLeadingZeros` | pkg/qtum/btcasm_test.go:13-20 | the result is a suffix of the input, does not start with '0', and only '0' characters were removed |
| `HexBytes.ValueReversePairs` | pkg/qtum/btcasm_test.go:13-20 | read big-endian, the reversed string denotes the same number as the token read little-endian |
| `HexBytes.ValueTrimLeadingZeros` | pkg/qtum/btcasm_test.go:13-20 | dropping leading zeros keeps the hex value |
| `BtcAsm.GasLimitFromToken` | pkg/qtum/btcasm_test.go:13-20 | the gas limit decodes exactly when the token is a whole number of bytes, and the result has no leading zero (zero is "0") |
| `BtcAsm.GasLimitValue` | pkg/qtum/btcasm_test.go:60-67 | for a hex token, the emitted gas limit is the big-endian hex of the little-endian number in the token |
| `BtcAsm.GasLimitRoundTrip` | pkg/qtum/btcasm_test.go:36-43 | encoding a canonical gas limit as a script token and decoding it gives the gas limit back |
| `BtcAsm.GasLimitVector1` | pkg/qtum/btcasm_test.go:13-20 | `90d003` decodes to `3d090` |
| `BtcAsm.GasLimitVector2` | pkg/qtum/btcasm_test.go:36-43 | `b79166` decodes to `6691b7` |
| `BtcAsm.GasLimitVector3` | pkg/qtum/btcasm_test.go:60-67 | `a02526` decodes to `2625a0` |
| `HexBytes.ReversePairs` | pkg/qtum/btcasm_test.go:13-20 | reverses the byte order of the gas token and keeps its length; ReversePairsAt gives each byte's position and ReversePairsInvolution shows reversing twice is the identity |
| `BtcAsm.CallBody` | pkg/qtum/btcasm_test.go:82-100 | the call body succeeds exactly for 6 tokens ending in OP_CALL with a whole-byte gas token; the gas limit comes from token 1, then price, call data and contract address verbatim |
| `BtcAsm.CreateBody` | pkg/qtum/btcasm_test.go:58-71 | the create body succeeds exactly for 5 tokens ending in OP_CREATE with a whole-byte gas token; the gas limit comes from token 1, then price and bytecode verbatim, and to is "" |
| `BtcAsm.SenderPrefix` | pkg/qtum/btcasm_test.go:13-19 | the sender prefix is accepted exactly when OP_SENDER is the fourth token; it yields token 1 as sender and the tokens after the marker |
| `BtcAsm.ParseCallSenderASM` | pkg/qtum/btcasm_test.go:10-24 | succeeds exactly for 10 tokens with OP_SENDER at 3, OP_CALL at 9 and a whole-byte gas token; from = tok[1], gasLimit from tok[5], gasPrice = tok[6], callData = tok[7], to = tok[8] |
| `BtcAsm.ParseCreateSenderASM` | pkg/qtum/btcasm_test.go:35-47 | succeeds exactly for 9 tokens with OP_SENDER at 3, OP_CREATE last and a whole-byte gas token; from = tok[1], gasLimit from tok[5], gasPrice = tok[6], callData = tok[7] verbatim, to = "" |
| `BtcAsm.ParseCreateASM` | pkg/qtum/btcasm_test.go:58-71 | succeeds exactly for 5 tokens ending in OP_CREATE with a whole-byte gas token; from and to are "", gasLimit from tok[1], gasPrice = tok[2], callData = tok[3] verbatim |
| `BtcAsm.ParseCallASM` | pkg/qtum/btcasm_test.go:82-100 | succeeds exactly for 6 tokens ending in OP_CALL with a whole-byte gas token; from is "", gasLimit from tok[1], gasPrice = tok[2], callData = tok[3] verbatim, to = tok[4], the token just before OP_CALL |
| `BtcAsm.CallSenderRoundTrip` | pkg/qtum/btcasm_test.go:13-24 | decoding an assembled call-with-sender script recovers every field of the invocation |
| `BtcAsm.CreateSenderRoundTrip` | pkg/qtum/btcasm_test.go:36-47 | decoding an assembled create-with-sender script recovers every field, with to = "" |
| `BtcAsm.CreateRoundTrip` | pkg/qtum/btcasm_test.go:60-71 | decoding an assembled create script recovers every field, with from = to = "" |
| `BtcAsm.CallRoundTrip` | pkg/qtum/btcasm_test.go:88-100 | decoding an assembled call script recovers every field, with from = "" |
| `BtcAsm.SenderPrefixOnlySetsFrom` | pkg/qtum/btcasm_test.go:13-24 | a sender prefix in front of a call or create body changes only `from`, which becomes the sender address; failures are the same |
| `BtcAsm.VersionsAndSignatureIgnored` | pkg/qtum/btcasm_test.go:13-24 | the version token, the signature script and the VM version of a sender-prefixed script do not affect the result |
| `BtcAsm.VmVersionIgnored` | pkg/qtum/btcasm_test.go:60-71 | the VM version token of a script without sender does not affect the result |
| `BtcAsm.CallSenderVector` | pkg/qtum/btcasm_test.go:13-24 | the recorded call-with-sender vector (versions 01/04, gas 90d003, price 28) decodes to from = sender, gasLimit 3d090, gasPrice 28, the call data and contract verbatim |
| `BtcAsm.CreateSenderVector` | pkg/qtum/btcasm_test.go:36-47 | the recorded create-with-sender vector decodes to the recorded record, for any bytecode token |
| `BtcAsm.CreateVector` | pkg/qtum/btcasm_test.go:60-71 | the recorded create vector decodes to the recorded record, for any bytecode token |
| `BtcAsm.CallVector` | pkg/qtum/btcasm_test.go:85-100 | the recorded call vector (4, 90d003, 28) decodes to from = "", gasLimit 3d090, gasPrice 28, the call data and contract address verbatim |
| `CacheTables.Lookup` | pkg/qtum/client_cache.go:111-113 | a response is found exactly when the method's table exists and holds the key, and it is the stored bytes |
| `CacheTables.StoreEntry` | pkg/qtum/client_cache.go:91-98 | a store creates the method's inner table when absent, and afterwards the key is present in it |
| `CacheTables.EvictEntry` | pkg/qtum/client_cache.go:141 | an eviction keeps every method table and removes exactly the one key from its method's table |
| `CacheTables.LookupAfterStore` | pkg/qtum/client_cache.go:91-99 | after a store, the stored key holds the first writer's response; every other (method, key) reads as before |
| `CacheTables.StoreOccupiedIsNoOp` | pkg/qtum/client_cache.go:96-99 | storing into an occupied key leaves the whole table unchanged |
| `CacheTables.LookupAfterEvict` | pkg/qtum/client_cache.go:139-141 | after an eviction the key is absent, and every other entry reads as before |
| `CacheTables.LiveKeysAfterStore` | pkg/qtum/client_cache.go:91-98 | a store adds exactly its own (method, key) to the set of occupied entries |
| `CacheTables.LiveKeysAfterEvict` | pkg/qtum/client_cache.go:139-141 | an eviction removes exactly its own (method, key) from the set of occupied entries |
| `CacheTables.StoredSurvivesUntilEvicted` | pkg/qtum/client_cache.go:89-116 | a stored response is what every later lookup returns, through any stores and evictions that do not evict that key |
| `CacheTables.StoreThenLookup` | pkg/qtum/client_cache.go:89-116 | the first response stored for an absent key is returned by lookups until that key is evicted |
| `CacheTables.EvictedStaysAbsent` | pkg/qtum/client_cache.go:109-116 | an absent key (never stored, or evicted) stays absent through operations that do not store it |
| `QtumClientCache.CachableMethodsMap` | pkg/qtum/client_cache.go:42 | the allow-list table has exactly the listed methods as keys, each mapped to true |
| `QtumClientCache.InitCachableMethodsMap` | pkg/qtum/client_cache.go:42-48 | the init loop marks every listed method true and no other name |
| `QtumClientCache.IsCachable` | pkg/qtum/client_cache.go:71-73 | true exactly for the names on the list; the map lookup defaults to false |
| `QtumClientCache.IsCachableExactly` | pkg/qtum/client_cache.go:30-40 | true exactly for getblock, gethexaddress, getrawtransaction, gettxout and decoderawtransaction, compared case-sensitively |
| `QtumClientCache.NotCachable` | pkg/qtum/client_cache.go:18-40 | the commented-out getblockhash, getblockheader, getblockchaininfo and gettransaction are not cacheable, nor `sendtoaddress` or the case variant `GetBlock` |
| `QtumClientCache.FlushTimeout` | pkg/qtum/client_cache.go:120-123 | a zero duration becomes the 15-second default, and any other duration is kept |
| `QtumClientCache.RequestedLength` | pkg/qtum/client_cache.go:81-84 | a nil duration is passed on as zero, and a given one unchanged |
| `QtumClientCache.DefaultTimeout` | pkg/qtum/client_cache.go:80-84 | a nil or zero duration on a store means the 15-second default timer |
| `QtumClientCache.ClientCache.constructor` | pkg/qtum/client_cache.go:64-68 | a new cache has an empty table, no context and no pending timers |
| `QtumClientCache.ClientCache.StoreResponse` | pkg/qtum/client_cache.go:75-77 | a store with the default expiry of 15 seconds |
| `QtumClientCache.ClientCache.StoreResponseFor` | pkg/qtum/client_cache.go:80-101 | a serialization failure returns an error and changes nothing; otherwise the table becomes StoreEntry of the old one, and a timer is started only when the key was absent |
| `QtumClientCache.ClientCache.SetFlushResponseTimer` | pkg/qtum/client_cache.go:120-125 | records one pending timer for the key, applying the default-timeout rule |
| `QtumClientCache.ClientCache.GetResponse` | pkg/qtum/client_cache.go:104-117 | fails only on serialization failure; otherwise it reports the two-level `CacheTables.Lookup` of the current table: the stored response, or absent on a miss without an error; it changes nothing |
| `QtumClientCache.ClientCache.Evict` | pkg/qtum/client_cache.go:139-141 | the timer of (method, key) fires: only that entry is deleted and its timer is gone; the rest of the cache is unchanged |
| `QtumClientCache.ClientCache.SetContext` | pkg/qtum/client_cache.go:145-151 | the context is installed only when none is set; later calls are no-ops |
| `QtumClientCache.StoreThenGet` | pkg/qtum/client_cache.go:89-116 | store, store again, then get returns the first response, and exactly one timer was started |

## Left out

- Concurrency: the goroutine, `time.After`, the `select` over `ctx.Done()` and the `sync.RWMutex` (pkg/qtum/client_cache.go:89-90, 109-110, 125-142) are not modelled. Each method is treated as one atomic step, which is what the lock provides.
- Timer firing is not automatic: it is the explicit `Evict` call, which may happen at any time. Each flush goroutine reads `ctx` once, when it starts, and without holding the lock (pkg/qtum/client_cache.go:127-132). Only timers started after a context is set also evict when that context is cancelled. A timer started while `ctx` was nil waits on the never-ready `context.Background().Done()`, so it evicts only when its full duration has passed. Cancellation is not modelled as a separate operation. Clock time is not modelled, so durations are only recorded.
- Response aliasing: Go stores the caller's own `response` slice in the table (pkg/qtum/client_cache.go:97) and `getResponse` hands that same slice to every caller (pkg/qtum/client_cache.go:113), so the bytes are shared by reference. The model treats responses as immutable `seq<byte>` values. A write through the stored slice or a returned one would change what later lookups see, so `CacheTables.StoredSurvivesUntilEvicted`, `CacheTables.StoreThenLookup` and `QtumClientCache.StoreThenGet` describe the Go code only as long as no caller mutates such a slice in place.
- `QtumClientCache.ClientCache.SetContext` takes a `Context`, not an optional one, so Go's `setContext(nil)` is not an operation of the model. In Go that call leaves `ctx` unset, which is the state the model keeps without it, and a later call still installs a context.
- Logging (`configLogger`, `getDebugLogger`, `isDebugEnabled`, pkg/qtum/client_cache.go:153-175) is left out; it is I/O with no effect on the cache.
- `json.Marshal` internals: serialization is the opaque `marshal` function.
- The decoder's hex-character validation and its error messages are left out. The decoder source is not part of this model, so no failure beyond the generic `MalformedScript` is claimed. `GasLimitValue` assumes a hex token.
- `BtcAsm.CallSenderVector`: the sender, signature-script, call-data and contract tokens are parameters of the lemma, not the recorded literals, which are named in its comment. So the vector holds for every value of the tokens that are copied verbatim or dropped.
- `BtcAsm.CallVector`: the call-data and contract tokens are parameters, for the same reason.
- `BtcAsm.CreateSenderVector`, `BtcAsm.CreateVector`: the long recorded bytecode tokens and the signature script are parameters of the lemmas. So the vectors are proved for every bytecode token, not only the recorded ones.
- The transformers in pkg/transformer (eth_getTransactionReceipt.go, eth_getTransactionByHash.go, eth_syncing.go, eth_mining.go, eth_gasPrice.go, eth_net_peerCount.go and their tests) are left out. They are RPC glue over upstream client calls and an HTTP mock. Some refer to undeclared names or hold unreachable lines.
