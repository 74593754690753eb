# GethClient request shaping, in Dafny

This project models the JSON-RPC client that the bus-mapping crate uses to query a geth or
anvil node (`GethClient` in `bus-mapping/src/rpc.rs`). Each operation builds one method name
and one ordered parameter list, makes exactly one call through the provider, wraps any provider
failure as `Error::JSONRpcError`, and returns the decoded answer. The trace-block calls return
the `result` member of each element of the node's array, in order. The model covers:

- the padded storage-key encoder of `eth_getProof` (EIP-1186). `format!("0x{:064x}", w)` is
  modelled as `{:x}` digits zero-padded to width 64. `serialize_vec_word` is an imperative loop
  that appends one string per key. Both are proved against a fixed-width reference rendering and
  a node-side reader, giving a round trip;
- the tracer configuration: `GethLoggerConfig`, its `Default`, its wire names, the per-transaction
  variant driven by the strictness flag, and the `{"tracer": "prestateTracer"}` directive;
- every `GethClient` operation. Each has a request builder (method name and parameter order), an
  exchange with the provider (`JsonRpcClient::request`), error normalisation (`map_err`), and,
  for the block traces, the projection of `result` members.

Modules: `Wrappers` (Option, Result), `Json` (serde_json values; objects are maps, since
serde_json's default map keeps no insertion order), `Hex` (digits and renderings), `EthTypes`
(the Ethereum value types and `Wire`, their serde encoders and decoders), `PaddedWord`,
`TracerConfig`, `GethRpc` (requests, provider exchange and the client) and `NodeView`.
`NodeView` describes how a node reads each request. It is the independent partner of the request
builders. A node looks the method name up in its method table (`NodeView.Methods`) and reads
the positional parameters that method expects. For every operation, a lemma states that the node
reads the request as the intended call with the operation's own arguments.

The provider is a total function from requests to replies (`GethRpc.Provider`). A client
operation's contract (`GethRpc.Answers`, `GethRpc.AnswersUnwrapped`) says that its result is
determined by the provider's reply to that one request alone: the reply decoded unchanged on
success, and `JSONRpcError` carrying the cause on a transport failure or on an answer that does
not decode. Rust's generic `R: DeserializeOwned` is modelled as a decoder argument
`Json -> Option<R>`. The foreign result types (block, transaction, traces, proof response) are
type parameters.

`{:064x}` writes 64 digits, so key `1` is 63 zeros and a `1` (`PaddedWord.FormatSmallWords`).

Where the doc comments and the code differ, the model follows the code: the doc comment of
`send_raw_transaction` (rpc.rs:299) names `anvil_sendRawTransaction`, while the code sends
`eth_sendRawTransaction` (rpc.rs:303), and so does the model.

## Model

| member | source | states |
|---|---|---|
| `EthTypes.BoundsInHexDigits` | bus-mapping/src/rpc.rs:36 | the ranges of U64 and U256 (`Word`), 2^64 and 2^256, are 16^16 and 16^64: a word has at most 64 hex digits |
| `Hex.Minimal` | bus-mapping/src/rpc.rs:36 | `{:x}` writes at least one lower-case hex digit and no leading zero, except for zero itself |
| `Hex.PadZeros` | bus-mapping/src/rpc.rs:36 | the width-64 `0` flag: the digits end the string and every character before them is `0`; the length is the larger of the width and the digit count |
| `Hex.MinimalLength` | bus-mapping/src/rpc.rs:36 | a value below 16^k needs at most k digits, so a 256-bit word never overflows the width 64 |
| `Hex.PadMinimalIsFixed` | bus-mapping/src/rpc.rs:36 | zero-padding the `{:x}` digits of n to width k gives the k-digit positional rendering of n, for every n below 16^k |
| `Hex.ValueFixed` | bus-mapping/src/rpc.rs:36 | reading the k-digit rendering of n back as hex gives n |
| `PaddedWord.FormatWord` | bus-mapping/src/rpc.rs:36 | a storage key is `0x` and then exactly 64 lower-case hex digits, which are the fixed-width rendering of the key |
| `PaddedWord.FormatWordPadding` | bus-mapping/src/rpc.rs:36 | the 64 digits are the key's minimal hex digits, left-padded with zeros |
| `PaddedWord.ParseFormatWord` | bus-mapping/src/rpc.rs:36 | round trip: a node that reads the encoded key gets the key back, for every word below 2^256 |
| `PaddedWord.FormatWordInjective` | bus-mapping/src/rpc.rs:36 | distinct keys have distinct encodings |
| `PaddedWord.FormatSmallWords` | bus-mapping/src/rpc.rs:36 | key 0 encodes as 64 zeros; key 1 as 63 zeros and `1` |
| `PaddedWord.PaddedWordVec` | bus-mapping/src/rpc.rs:27-28 | what `PaddedWordVecWrapper` serialises to: an array as long as the key list, element i the padded encoding of key i |
| `PaddedWord.SerializeVecWord` | bus-mapping/src/rpc.rs:30-40 | the loop yields an array as long as the key list whose element i is the padded encoding of key i |
| `PaddedWord.ParsePaddedWordVec` | bus-mapping/src/rpc.rs:27-40 | round trip for the whole array: the node reads back exactly the keys, same length and order |
| `TracerConfig.LoggerConfigJson` | bus-mapping/src/rpc.rs:42-57 | a logger configuration is an object with exactly the wire names `EnableMemory`, `DisableStack`, `DisableStorage`, `EnableReturnData` |
| `TracerConfig.ParseLoggerConfigJson` | bus-mapping/src/rpc.rs:42-57 | round trip: each flag is read back from its wire name |
| `TracerConfig.DefaultLoggerConfig` | bus-mapping/src/rpc.rs:59-68 | `Default`: memory capture off, stack and storage capture on, return-data capture on |
| `TracerConfig.DefaultLoggerConfigJson` | bus-mapping/src/rpc.rs:59-68 | the default on the wire: `EnableMemory`, `DisableStack` and `DisableStorage` false, `EnableReturnData` true |
| `TracerConfig.TxTraceConfig` | bus-mapping/src/rpc.rs:168-171 | the transaction-trace configuration has memory capture equal to the strictness flag and agrees with the default everywhere else |
| `TracerConfig.PrestateTracerJson` | bus-mapping/src/rpc.rs:187-189 | the prestate directive is an object whose only member is `tracer`, naming `prestateTracer`; so it carries none of the four logger flags |
| `NodeView.ParseTracerLogger` | bus-mapping/src/rpc.rs:140 | a serialised logger configuration selects the struct logger with the same flags |
| `NodeView.ParseTracerPrestate` | bus-mapping/src/rpc.rs:204-206 | the prestate directive selects the named tracer `prestateTracer` |
| `GethRpc.MapErr` | bus-mapping/src/rpc.rs:85 | `map_err`: it fails exactly when the call failed; a success passes the value unchanged, a failure becomes `JSONRpcError` carrying the cause |
| `GethRpc.CoinbaseRequest` | bus-mapping/src/rpc.rs:83 | method `eth_coinbase`, no parameters |
| `GethRpc.ChainIdRequest` | bus-mapping/src/rpc.rs:92 | method `eth_chainId`, no parameters |
| `GethRpc.BlockByHashRequest` | bus-mapping/src/rpc.rs:101-104 | method `eth_getBlockByHash`, parameters `[hash, true]` |
| `GethRpc.BlockByNumberRequest` | bus-mapping/src/rpc.rs:116-119 | method `eth_getBlockByNumber`, parameters `[block, true]` |
| `GethRpc.TxByHashRequest` | bus-mapping/src/rpc.rs:125-128 | method `eth_getTransactionByHash`, parameters `[hash]` |
| `GethRpc.TraceBlockByHashRequest` | bus-mapping/src/rpc.rs:139-143 | method `debug_traceBlockByHash`, parameters `[hash, default logger configuration]` |
| `GethRpc.TraceBlockByNumberRequest` | bus-mapping/src/rpc.rs:156-160 | method `debug_traceBlockByNumber`, parameters `[block, default logger configuration]` |
| `GethRpc.TraceTxRequest` | bus-mapping/src/rpc.rs:167-175 | method `debug_traceTransaction`, parameters `[hash, logger configuration with memory capture = strict]` |
| `GethRpc.TraceTxPrestateRequest` | bus-mapping/src/rpc.rs:186-192 | method `debug_traceTransaction`, parameters `[hash, {"tracer": "prestateTracer"}]` |
| `GethRpc.TraceBlockPrestateRequest` | bus-mapping/src/rpc.rs:203-209 | method `debug_traceBlockByHash`, parameters `[hash, {"tracer": "prestateTracer"}]` |
| `GethRpc.CodeRequest` | bus-mapping/src/rpc.rs:221-225 | method `eth_getCode`, parameters `[address, block]` |
| `GethRpc.ProofRequest` | bus-mapping/src/rpc.rs:240-245 | method `eth_getProof`, parameters `[account, padded key array, block]` |
| `GethRpc.MinerStopRequest` | bus-mapping/src/rpc.rs:254 | method `miner_stop`, no parameters |
| `GethRpc.MinerStartRequest` | bus-mapping/src/rpc.rs:263 | method `miner_start`, parameters `[1]` |
| `GethRpc.MineRequest` | bus-mapping/src/rpc.rs:272 | method `anvil_mine`, parameters `[1, 12]` |
| `GethRpc.ResetRequest` | bus-mapping/src/rpc.rs:279-285 | method `anvil_reset`, one object with exactly the members `json_rpc_url` and `block_number` |
| `GethRpc.SetNonceRequest` | bus-mapping/src/rpc.rs:291-294 | method `anvil_setNonce`, parameters `[address, nonce]` |
| `GethRpc.SendRawTransactionRequest` | bus-mapping/src/rpc.rs:301-303 | method `eth_sendRawTransaction`, parameters `[raw transaction bytes]` |
| `GethRpc.SetNextBlockBaseFeeRequest` | bus-mapping/src/rpc.rs:311-314 | method `anvil_setNextBlockBaseFeePerGas`, parameters `[base fee]` |
| `GethRpc.DecodeResultWrappers` | bus-mapping/src/rpc.rs:141-145 | a trace-block answer decodes only if it is an array whose every element has a decodable `result`; it then has one wrapper per element, in order |
| `GethRpc.Results` | bus-mapping/src/rpc.rs:146 | the projection keeps the length, and element i is the `result` of wrapper i |
| `GethRpc.ProofRequestForKeysZeroAndOne` | bus-mapping/src/rpc.rs:240-245 | keys `[0, 1]` at `latest` go out as `[account, ["0x00…00", "0x00…01"], latest]`, in that order |
| `GethRpc.GethClient.GetCoinbase` | bus-mapping/src/rpc.rs:81-86 | the result is the provider's reply to the one `eth_coinbase` request, decoded as an address; any failure is `JSONRpcError` with the cause |
| `GethRpc.GethClient.GetChainId` | bus-mapping/src/rpc.rs:89-96 | the reply to `eth_chainId` decoded as U64 and returned with the same value; failures wrapped |
| `GethRpc.GethClient.GetBlockByHash` | bus-mapping/src/rpc.rs:100-107 | the reply to the one block-by-hash request, decoded unchanged; failures wrapped |
| `GethRpc.GethClient.GetBlockByNumber` | bus-mapping/src/rpc.rs:112-122 | the reply to the one block-by-number request, decoded unchanged; failures wrapped |
| `GethRpc.GethClient.GetTxByHash` | bus-mapping/src/rpc.rs:124-133 | the reply to the one transaction request, decoded unchanged; failures wrapped |
| `GethRpc.GethClient.TraceBlockByHash` | bus-mapping/src/rpc.rs:138-147 | on success, one trace per element of the node's array, trace i being the decoded `result` of element i; failures, including an answer of another shape, wrapped |
| `GethRpc.GethClient.TraceBlockByNumber` | bus-mapping/src/rpc.rs:152-164 | the same ordered unwrapping for the by-number block trace |
| `GethRpc.GethClient.TraceTxByHash` | bus-mapping/src/rpc.rs:166-179 | the reply to the one transaction-trace request, decoded unchanged; failures wrapped |
| `GethRpc.GethClient.TraceTxPrestateByHash` | bus-mapping/src/rpc.rs:182-196 | the reply to the one prestate trace request, decoded as an address-to-prestate map; failures wrapped |
| `GethRpc.GethClient.TraceBlockPrestateByHash` | bus-mapping/src/rpc.rs:199-213 | one prestate map per element of the node's array, in order; failures wrapped |
| `GethRpc.GethClient.GetCode` | bus-mapping/src/rpc.rs:216-229 | the reply to `eth_getCode` decoded as bytes and returned as they are; failures wrapped |
| `GethRpc.GethClient.GetProof` | bus-mapping/src/rpc.rs:234-248 | the reply to the one `eth_getProof` request, decoded unchanged; failures wrapped |
| `GethRpc.GethClient.MinerStop` | bus-mapping/src/rpc.rs:252-257 | the reply to `miner_stop` decoded as unit (JSON null); failures wrapped |
| `GethRpc.GethClient.MinerStart` | bus-mapping/src/rpc.rs:261-266 | the reply to `miner_start` decoded as unit; failures wrapped |
| `GethRpc.GethClient.Mine` | bus-mapping/src/rpc.rs:270-275 | the reply to `anvil_mine` decoded as unit; failures wrapped |
| `GethRpc.GethClient.Reset` | bus-mapping/src/rpc.rs:278-287 | the reply to `anvil_reset` decoded as unit; failures wrapped |
| `GethRpc.GethClient.SetNonce` | bus-mapping/src/rpc.rs:290-297 | the reply to `anvil_setNonce` decoded as unit; failures wrapped |
| `GethRpc.GethClient.SendRawTransaction` | bus-mapping/src/rpc.rs:300-306 | the reply to `eth_sendRawTransaction` decoded as a hash; failures wrapped |
| `GethRpc.GethClient.SetNextBlockBaseFeePerGas` | bus-mapping/src/rpc.rs:309-317 | the reply to `anvil_setNextBlockBaseFeePerGas` decoded as unit; failures wrapped |
| `NodeView.CoinbaseMeaning` | bus-mapping/src/rpc.rs:83 | the node reads `eth_coinbase` with no parameters |
| `NodeView.ChainIdMeaning` | bus-mapping/src/rpc.rs:92 | the node reads `eth_chainId` with no parameters |
| `NodeView.BlockByHashMeaning` | bus-mapping/src/rpc.rs:101-104 | the node reads a block fetch of this hash with full transactions requested (`true` second) |
| `NodeView.BlockByNumberMeaning` | bus-mapping/src/rpc.rs:116-119 | the node reads a block fetch of this number with full transactions requested (`true` second) |
| `NodeView.TxByHashMeaning` | bus-mapping/src/rpc.rs:125-128 | the node reads a transaction fetch of this hash |
| `NodeView.TraceBlockByHashMeaning` | bus-mapping/src/rpc.rs:139-143 | the node reads a block trace of this hash with the struct logger at its default flags |
| `NodeView.TraceBlockByNumberMeaning` | bus-mapping/src/rpc.rs:156-160 | the node reads a block trace of this number with the struct logger at its default flags |
| `NodeView.TraceTxMeaning` | bus-mapping/src/rpc.rs:167-175 | the node reads a transaction trace with memory capture equal to the strictness flag, stack and storage capture on, return data on |
| `NodeView.TraceTxPrestateMeaning` | bus-mapping/src/rpc.rs:186-192 | the node reads a `debug_traceTransaction` of this hash with the prestate tracer |
| `NodeView.TraceBlockPrestateMeaning` | bus-mapping/src/rpc.rs:203-209 | the node reads a `debug_traceBlockByHash` of this hash with the prestate tracer |
| `NodeView.CodeMeaning` | bus-mapping/src/rpc.rs:221-225 | the node reads a code fetch of this address at this block, in that order |
| `NodeView.ProofParams` | bus-mapping/src/rpc.rs:240-245 | the three parameters read back as the account, exactly the given keys in their order, and the block |
| `NodeView.ProofMeaning` | bus-mapping/src/rpc.rs:240-245 | the node reads `[account, keys, block]` in that order, and the keys are exactly the given ones |
| `NodeView.MinerStopMeaning` | bus-mapping/src/rpc.rs:254 | the node reads `miner_stop` with no parameters |
| `NodeView.MinerStartMeaning` | bus-mapping/src/rpc.rs:263 | the node reads `miner_start` with the single parameter 1 |
| `NodeView.MineMeaning` | bus-mapping/src/rpc.rs:272 | the node reads `anvil_mine` of one block with interval 12 |
| `NodeView.ResetMeaning` | bus-mapping/src/rpc.rs:279-285 | the node reads a fork reset to this URL and block number |
| `NodeView.SetNonceMeaning` | bus-mapping/src/rpc.rs:291-294 | the node reads a nonce override of this address to this nonce |
| `NodeView.SendRawTransactionMeaning` | bus-mapping/src/rpc.rs:301-303 | the node reads these raw transaction bytes |
| `NodeView.SetNextBlockBaseFeeMeaning` | bus-mapping/src/rpc.rs:311-314 | the node reads a base-fee override of this value |

## Left out

- The network transport and `.await`: the provider is an arbitrary total function from requests to replies. Concurrency, cancellation and timeouts live in the transport.
- The serde encodings of `Hash`, `Address`, `BlockNumber`, `U64`, `U256` and `Bytes` belong to the ethers and eth_types crates, which are not part of this model. They are the fields of `EthTypes.Wire`, and the node-side lemmas assume only that each decoder reads back what its encoder writes. So the value a chain-id answer such as `0x1` decodes to depends on U64's decoder, which is not modelled.
- The decoding and contents of `Block`, `Transaction`, `GethExecTrace`, `GethPrestateTrace` and `EIP1186ProofResponse`: their decoders come in as arguments. The JSON shape assumed for `ResultGethExecTraces` and `ResultGethPrestateTraces` (an array of objects with a `result` member) is read off the field projected at rpc.rs:146 and rpc.rs:212.
- `serialize` and its `expect` panic (rpc.rs:23-25): serialisation is a total function into `Json`. The error path of `serialize_seq` and `serialize_element` is dropped too, because serde_json's value serialiser never takes it.
- The `println!` output at rpc.rs:131 and rpc.rs:312: a side effect with no functional role.
- The process-wide `CHECK_MEM_STRICT` (rpc.rs:16, 169) is the explicit `strict` argument of `TraceTxByHash`.
- `GethClient::new` (rpc.rs:76-78) is the datatype constructor `GethRpc.GethClient(provider)`.
- U256's `LowerHex` implementation (uint crate), which `{:064x}` calls on a `Word`, is not part of this model. `PaddedWord.FormatWord` takes it to honour the width and the `0` flag as Rust's integer formatting does.
- The other variants of the crate's `Error` are not part of this model, because no client operation produces them.
- The benchmark harness in `circuit-benchmarks/src/evm_circuit.rs` (proof generation, timers, environment variables, live network calls) is not part of this model.
