/** `GethClient`: one JSON-RPC exchange per operation. Each operation builds a method name and a
    positional parameter list, makes a single call through the provider, wraps any provider
    failure as `JSONRpcError`, and returns the decoded answer (for the trace-block calls, the
    `result` member of each element, in order). */
module GethRpc {
  import opened Wrappers
  import opened Json
  import Hex
  import opened EthTypes
  import opened PaddedWord
  import opened TracerConfig

  /** Positional parameters, or none at all (Rust's `()`, which sends no `params`). */
  datatype Params = NoParams | Positional(values: seq<Json>)

  datatype RpcRequest = RpcRequest(methodName: string, params: Params)

  /** What the provider can fail with: the connection, an error object from the node, or an
      answer that does not decode into the requested type. */
  datatype ProviderError =
    | Unreachable(detail: string)
    | NodeError(code: int, message: string)
    | Deserialize(response: Json)

  /** The client's one error kind, carrying the provider's cause. */
  datatype Error = JSONRpcError(cause: ProviderError)

  type Reply = Result<Json, ProviderError>

  /** The transport: what the node answers to a request. */
  type Provider = RpcRequest -> Reply

  /** `JsonRpcClient::request`: one exchange, then the answer decoded into the requested type. */
  function Request<R>(provider: Provider, req: RpcRequest, decode: Json -> Option<R>)
    : Result<R, ProviderError>
  {
    match provider(req)
    case Failure(e) => Failure(e)
    case Success(raw) =>
      match decode(raw)
      case Some(v) => Success(v)
      case None => Failure(Deserialize(raw))
  }

  /** `.map_err(|e| Error::JSONRpcError(e.into()))`. */
  function MapErr<R>(r: Result<R, ProviderError>): (m: Result<R, Error>)
    ensures m.Success? <==> r.Success?
    ensures r.Success? ==> m.value == r.value
    ensures r.Failure? ==> m.error == JSONRpcError(r.error)
  {
    match r
    case Success(v) => Success(v)
    case Failure(e) => Failure(JSONRpcError(e))
  }

  /** The contract every operation keeps: `r` is the node's `reply` to the operation's one
      request, decoded unchanged, and every failure (transport or decode) is a `JSONRpcError`
      carrying its cause. */
  ghost predicate Answers<R>(reply: Reply, decode: Json -> Option<R>, r: Result<R, Error>)
  {
    && (reply.Failure? ==> r == Failure(JSONRpcError(reply.error)))
    && (reply.Success? && decode(reply.value).None? ==>
          r == Failure(JSONRpcError(Deserialize(reply.value))))
    && (reply.Success? && decode(reply.value).Some? ==> r == Success(decode(reply.value).value))
  }

  /** `()` as a result: serde_json decodes it from `null` only. */
  function DecodeUnit(j: Json): Option<()>
  {
    if j == JNull then Some(()) else None
  }

  /** One element of a trace-block answer (`ResultGethExecTrace` and its prestate twin). */
  datatype ResultWrapper<T> = ResultWrapper(result: T)

  /** The `result` member of an answer element that is an object and has one. */
  function ResultMember(item: Json): Option<Json>
  {
    if item.JObj? && "result" in item.fields then Some(item.fields["result"]) else None
  }

  predicate Unwraps<T>(item: Json, decodeElement: Json -> Option<T>)
  {
    ResultMember(item).Some? && decodeElement(ResultMember(item).value).Some?
  }

  /** Decoding a trace-block answer: an array whose every element has a decodable `result`. */
  function DecodeResultWrappers<T>(raw: Json, decodeElement: Json -> Option<T>)
    : (r: Option<seq<ResultWrapper<T>>>)
    ensures r.Some? <==>
      raw.JArr? && forall i :: 0 <= i < |raw.items| ==> Unwraps(raw.items[i], decodeElement)
    ensures r.Some? ==> |r.value| == |raw.items|
    ensures r.Some? ==> forall i :: 0 <= i < |raw.items| ==>
      decodeElement(ResultMember(raw.items[i]).value) == Some(r.value[i].result)
  {
    if raw.JArr? && forall i :: 0 <= i < |raw.items| ==> Unwraps(raw.items[i], decodeElement)
    then Some(seq(|raw.items|, i requires 0 <= i < |raw.items| =>
                ResultWrapper(decodeElement(ResultMember(raw.items[i]).value).value)))
    else None
  }

  /** `resp.0.into_iter().map(|step| step.result).collect()`. */
  function Results<T>(steps: seq<ResultWrapper<T>>): (r: seq<T>)
    ensures |r| == |steps| && forall i :: 0 <= i < |steps| ==> r[i] == steps[i].result
  {
    seq(|steps|, i requires 0 <= i < |steps| => steps[i].result)
  }

  /** The contract of the trace-block operations: failures as in `Answers`; on success, one
      result per element of the node's array, element i being the decoded `result` of element i. */
  ghost predicate AnswersUnwrapped<T>(reply: Reply, decodeElement: Json -> Option<T>,
                                      r: Result<seq<T>, Error>)
  {
    && (reply.Failure? ==> r == Failure(JSONRpcError(reply.error)))
    && (reply.Success? && DecodeResultWrappers(reply.value, decodeElement).None? ==>
          r == Failure(JSONRpcError(Deserialize(reply.value))))
    && (reply.Success? && DecodeResultWrappers(reply.value, decodeElement).Some? ==>
          && r.Success?
          && |r.value| == |reply.value.items|
          && forall i :: 0 <= i < |reply.value.items| ==>
               decodeElement(ResultMember(reply.value.items[i]).value) == Some(r.value[i]))
  }

  // The request each operation sends: its method name and its positional parameters, in order.

  function CoinbaseRequest(): (r: RpcRequest)
    ensures r.methodName == "eth_coinbase" && r.params == NoParams
  {
    RpcRequest("eth_coinbase", NoParams)
  }

  function ChainIdRequest(): (r: RpcRequest)
    ensures r.methodName == "eth_chainId" && r.params == NoParams
  {
    RpcRequest("eth_chainId", NoParams)
  }

  /** The hash, then `true`: full transaction objects are always requested. */
  function BlockByHashRequest(w: Wire, hash: Hash): (r: RpcRequest)
    ensures r.methodName == "eth_getBlockByHash" && r.params.Positional? && |r.params.values| == 2
    ensures r.params.values[0] == w.encodeHash(hash) && r.params.values[1] == JBool(true)
  {
    RpcRequest("eth_getBlockByHash", Positional([w.encodeHash(hash), JBool(true)]))
  }

  /** The block number or tag, then `true`: full transaction objects are always requested. */
  function BlockByNumberRequest(w: Wire, blockNum: BlockNumber): (r: RpcRequest)
    ensures r.methodName == "eth_getBlockByNumber" && r.params.Positional?
    ensures |r.params.values| == 2 && r.params.values[0] == w.encodeBlockNumber(blockNum)
    ensures r.params.values[1] == JBool(true)
  {
    RpcRequest("eth_getBlockByNumber", Positional([w.encodeBlockNumber(blockNum), JBool(true)]))
  }

  function TxByHashRequest(w: Wire, hash: Hash): (r: RpcRequest)
    ensures r.methodName == "eth_getTransactionByHash"
    ensures r.params == Positional([w.encodeHash(hash)])
  {
    RpcRequest("eth_getTransactionByHash", Positional([w.encodeHash(hash)]))
  }

  /** The hash, then the default logger configuration. */
  function TraceBlockByHashRequest(w: Wire, hash: Hash): (r: RpcRequest)
    ensures r.methodName == "debug_traceBlockByHash" && r.params.Positional?
    ensures |r.params.values| == 2 && r.params.values[0] == w.encodeHash(hash)
    ensures r.params.values[1] == LoggerConfigJson(DefaultLoggerConfig())
  {
    RpcRequest("debug_traceBlockByHash",
               Positional([w.encodeHash(hash), LoggerConfigJson(DefaultLoggerConfig())]))
  }

  /** The block number or tag, then the default logger configuration. */
  function TraceBlockByNumberRequest(w: Wire, blockNum: BlockNumber): (r: RpcRequest)
    ensures r.methodName == "debug_traceBlockByNumber" && r.params.Positional?
    ensures |r.params.values| == 2 && r.params.values[0] == w.encodeBlockNumber(blockNum)
    ensures r.params.values[1] == LoggerConfigJson(DefaultLoggerConfig())
  {
    RpcRequest("debug_traceBlockByNumber",
               Positional([w.encodeBlockNumber(blockNum), LoggerConfigJson(DefaultLoggerConfig())]))
  }

  /** The hash, then the logger configuration whose memory capture is the strictness flag. */
  function TraceTxRequest(w: Wire, hash: Hash, strict: bool): (r: RpcRequest)
    ensures r.methodName == "debug_traceTransaction" && r.params.Positional?
    ensures |r.params.values| == 2 && r.params.values[0] == w.encodeHash(hash)
    ensures r.params.values[1] == LoggerConfigJson(TxTraceConfig(strict))
  {
    RpcRequest("debug_traceTransaction",
               Positional([w.encodeHash(hash), LoggerConfigJson(TxTraceConfig(strict))]))
  }

  /** The hash, then the prestate tracer directive. */
  function TraceTxPrestateRequest(w: Wire, hash: Hash): (r: RpcRequest)
    ensures r.methodName == "debug_traceTransaction"
    ensures r.params == Positional([w.encodeHash(hash), JObj(map["tracer" := JStr("prestateTracer")])])
  {
    RpcRequest("debug_traceTransaction", Positional([w.encodeHash(hash), PrestateTracerJson()]))
  }

  /** The hash, then the prestate tracer directive. */
  function TraceBlockPrestateRequest(w: Wire, hash: Hash): (r: RpcRequest)
    ensures r.methodName == "debug_traceBlockByHash"
    ensures r.params == Positional([w.encodeHash(hash), JObj(map["tracer" := JStr("prestateTracer")])])
  {
    RpcRequest("debug_traceBlockByHash", Positional([w.encodeHash(hash), PrestateTracerJson()]))
  }

  /** The contract address, then the block. */
  function CodeRequest(w: Wire, contractAddress: Address, blockNum: BlockNumber): (r: RpcRequest)
    ensures r.methodName == "eth_getCode"
    ensures r.params == Positional([w.encodeAddress(contractAddress), w.encodeBlockNumber(blockNum)])
  {
    RpcRequest("eth_getCode",
               Positional([w.encodeAddress(contractAddress), w.encodeBlockNumber(blockNum)]))
  }

  /** The account, the padded key array, then the block. */
  function ProofRequest(w: Wire, account: Address, keys: seq<Word>, blockNum: BlockNumber)
    : (r: RpcRequest)
    ensures r.methodName == "eth_getProof" && r.params.Positional? && |r.params.values| == 3
    ensures r.params.values[0] == w.encodeAddress(account)
    ensures r.params.values[1] == PaddedWordVec(keys)
    ensures r.params.values[2] == w.encodeBlockNumber(blockNum)
  {
    RpcRequest("eth_getProof",
               Positional([w.encodeAddress(account), PaddedWordVec(keys),
                           w.encodeBlockNumber(blockNum)]))
  }

  /** Storage keys 0 and 1 at the latest block: the keys go out as 64-digit strings, between
      the account and the block tag. */
  lemma ProofRequestForKeysZeroAndOne(w: Wire, account: Address)
    ensures ProofRequest(w, account, [0, 1], Latest) == RpcRequest("eth_getProof", Positional([
      w.encodeAddress(account),
      JArr([JStr("0x" + Hex.Zeros(64)), JStr("0x" + Hex.Zeros(63) + "1")]),
      w.encodeBlockNumber(Latest)]))
  {
    PaddedTwoWords(0, 1);
    FormatSmallWords();
  }

  function MinerStopRequest(): (r: RpcRequest)
    ensures r.methodName == "miner_stop" && r.params == NoParams
  {
    RpcRequest("miner_stop", NoParams)
  }

  function MinerStartRequest(): (r: RpcRequest)
    ensures r.methodName == "miner_start" && r.params == Positional([JNum(1)])
  {
    RpcRequest("miner_start", Positional([JNum(1)]))
  }

  /** One block, interval 12. */
  function MineRequest(): (r: RpcRequest)
    ensures r.methodName == "anvil_mine" && r.params == Positional([JNum(1), JNum(12)])
  {
    RpcRequest("anvil_mine", Positional([JNum(1), JNum(12)]))
  }

  /** One object naming the upstream URL and the block to fork from. */
  function ResetRequest(w: Wire, jsonRpcUrl: string, blockNumber: U64): (r: RpcRequest)
    ensures r.methodName == "anvil_reset" && r.params.Positional? && |r.params.values| == 1
    ensures r.params.values[0].JObj?
    ensures r.params.values[0].fields.Keys == {"json_rpc_url", "block_number"}
    ensures r.params.values[0].fields["json_rpc_url"] == JStr(jsonRpcUrl)
    ensures r.params.values[0].fields["block_number"] == w.encodeU64(blockNumber)
  {
    RpcRequest("anvil_reset",
               Positional([JObj(map["json_rpc_url" := JStr(jsonRpcUrl),
                                    "block_number" := w.encodeU64(blockNumber)])]))
  }

  /** The address, then the nonce. */
  function SetNonceRequest(w: Wire, address: Address, nonce: Word): (r: RpcRequest)
    ensures r.methodName == "anvil_setNonce"
    ensures r.params == Positional([w.encodeAddress(address), w.encodeU256(nonce)])
  {
    RpcRequest("anvil_setNonce", Positional([w.encodeAddress(address), w.encodeU256(nonce)]))
  }

  function SendRawTransactionRequest(w: Wire, rawTx: Bytes): (r: RpcRequest)
    ensures r.methodName == "eth_sendRawTransaction" && r.params == Positional([w.encodeBytes(rawTx)])
  {
    RpcRequest("eth_sendRawTransaction", Positional([w.encodeBytes(rawTx)]))
  }

  function SetNextBlockBaseFeeRequest(w: Wire, basefee: Word): (r: RpcRequest)
    ensures r.methodName == "anvil_setNextBlockBaseFeePerGas"
    ensures r.params == Positional([w.encodeU256(basefee)])
  {
    RpcRequest("anvil_setNextBlockBaseFeePerGas", Positional([w.encodeU256(basefee)]))
  }

  /** The client holds only its provider. The foreign result types (blocks, transactions,
      traces, proofs) are type parameters, each decoded by the decoder passed with it. */
  datatype GethClient = GethClient(provider: Provider)
  {
    function GetCoinbase(w: Wire): (r: Result<Address, Error>)
      ensures Answers(provider(CoinbaseRequest()), w.decodeAddress, r)
    {
      MapErr(Request(provider, CoinbaseRequest(), w.decodeAddress))
    }

    function GetChainId(w: Wire): (r: Result<U64, Error>)
      ensures Answers(provider(ChainIdRequest()), w.decodeU64, r)
    {
      var netId :- MapErr(Request(provider, ChainIdRequest(), w.decodeU64));
      Success(netId)
    }

    function GetBlockByHash<Block>(w: Wire, hash: Hash, decodeBlock: Json -> Option<Block>)
      : (r: Result<Block, Error>)
      ensures Answers(provider(BlockByHashRequest(w, hash)), decodeBlock, r)
    {
      MapErr(Request(provider, BlockByHashRequest(w, hash), decodeBlock))
    }

    function GetBlockByNumber<Block>(w: Wire, blockNum: BlockNumber,
                                     decodeBlock: Json -> Option<Block>)
      : (r: Result<Block, Error>)
      ensures Answers(provider(BlockByNumberRequest(w, blockNum)), decodeBlock, r)
    {
      MapErr(Request(provider, BlockByNumberRequest(w, blockNum), decodeBlock))
    }

    function GetTxByHash<Tx>(w: Wire, hash: Hash, decodeTx: Json -> Option<Tx>)
      : (r: Result<Tx, Error>)
      ensures Answers(provider(TxByHashRequest(w, hash)), decodeTx, r)
    {
      MapErr(Request(provider, TxByHashRequest(w, hash), decodeTx))
    }

    function TraceBlockByHash<Trace>(w: Wire, hash: Hash, decodeTrace: Json -> Option<Trace>)
      : (r: Result<seq<Trace>, Error>)
      ensures AnswersUnwrapped(provider(TraceBlockByHashRequest(w, hash)), decodeTrace, r)
    {
      var resp :- MapErr(Request(provider, TraceBlockByHashRequest(w, hash),
                                 raw => DecodeResultWrappers(raw, decodeTrace)));
      Success(Results(resp))
    }

    function TraceBlockByNumber<Trace>(w: Wire, blockNum: BlockNumber,
                                       decodeTrace: Json -> Option<Trace>)
      : (r: Result<seq<Trace>, Error>)
      ensures AnswersUnwrapped(provider(TraceBlockByNumberRequest(w, blockNum)), decodeTrace, r)
    {
      var resp :- MapErr(Request(provider, TraceBlockByNumberRequest(w, blockNum),
                                 raw => DecodeResultWrappers(raw, decodeTrace)));
      Success(Results(resp))
    }

    /** `strict` stands for the process-wide `CHECK_MEM_STRICT`. */
    function TraceTxByHash<Trace>(w: Wire, hash: Hash, strict: bool,
                                  decodeTrace: Json -> Option<Trace>)
      : (r: Result<Trace, Error>)
      ensures Answers(provider(TraceTxRequest(w, hash, strict)), decodeTrace, r)
    {
      var resp :- MapErr(Request(provider, TraceTxRequest(w, hash, strict), decodeTrace));
      Success(resp)
    }

    function TraceTxPrestateByHash<Prestate>(w: Wire, hash: Hash,
                                             decodePrestate: Json -> Option<map<Address, Prestate>>)
      : (r: Result<map<Address, Prestate>, Error>)
      ensures Answers(provider(TraceTxPrestateRequest(w, hash)), decodePrestate, r)
    {
      var resp :- MapErr(Request(provider, TraceTxPrestateRequest(w, hash), decodePrestate));
      Success(resp)
    }

    function TraceBlockPrestateByHash<Prestate>(w: Wire, hash: Hash,
                                                decodePrestate: Json -> Option<map<Address, Prestate>>)
      : (r: Result<seq<map<Address, Prestate>>, Error>)
      ensures AnswersUnwrapped(provider(TraceBlockPrestateRequest(w, hash)), decodePrestate, r)
    {
      var resp :- MapErr(Request(provider, TraceBlockPrestateRequest(w, hash),
                                 raw => DecodeResultWrappers(raw, decodePrestate)));
      Success(Results(resp))
    }

    /** `resp.to_vec()` keeps the bytes as they are. */
    function GetCode(w: Wire, contractAddress: Address, blockNum: BlockNumber)
      : (r: Result<Bytes, Error>)
      ensures Answers(provider(CodeRequest(w, contractAddress, blockNum)), w.decodeBytes, r)
    {
      var resp :- MapErr(Request(provider, CodeRequest(w, contractAddress, blockNum), w.decodeBytes));
      Success(resp)
    }

    function GetProof<Proof>(w: Wire, account: Address, keys: seq<Word>, blockNum: BlockNumber,
                             decodeProof: Json -> Option<Proof>)
      : (r: Result<Proof, Error>)
      ensures Answers(provider(ProofRequest(w, account, keys, blockNum)), decodeProof, r)
    {
      MapErr(Request(provider, ProofRequest(w, account, keys, blockNum), decodeProof))
    }

    function MinerStop(): (r: Result<(), Error>)
      ensures Answers(provider(MinerStopRequest()), DecodeUnit, r)
    {
      MapErr(Request(provider, MinerStopRequest(), DecodeUnit))
    }

    function MinerStart(): (r: Result<(), Error>)
      ensures Answers(provider(MinerStartRequest()), DecodeUnit, r)
    {
      MapErr(Request(provider, MinerStartRequest(), DecodeUnit))
    }

    function Mine(): (r: Result<(), Error>)
      ensures Answers(provider(MineRequest()), DecodeUnit, r)
    {
      MapErr(Request(provider, MineRequest(), DecodeUnit))
    }

    function Reset(w: Wire, jsonRpcUrl: string, blockNumber: U64): (r: Result<(), Error>)
      ensures Answers(provider(ResetRequest(w, jsonRpcUrl, blockNumber)), DecodeUnit, r)
    {
      MapErr(Request(provider, ResetRequest(w, jsonRpcUrl, blockNumber), DecodeUnit))
    }

    function SetNonce(w: Wire, address: Address, nonce: Word): (r: Result<(), Error>)
      ensures Answers(provider(SetNonceRequest(w, address, nonce)), DecodeUnit, r)
    {
      MapErr(Request(provider, SetNonceRequest(w, address, nonce), DecodeUnit))
    }

    function SendRawTransaction(w: Wire, rawTx: Bytes): (r: Result<Hash, Error>)
      ensures Answers(provider(SendRawTransactionRequest(w, rawTx)), w.decodeHash, r)
    {
      MapErr(Request(provider, SendRawTransactionRequest(w, rawTx), w.decodeHash))
    }

    function SetNextBlockBaseFeePerGas(w: Wire, basefee: Word): (r: Result<(), Error>)
      ensures Answers(provider(SetNextBlockBaseFeeRequest(w, basefee)), DecodeUnit, r)
    {
      MapErr(Request(provider, SetNextBlockBaseFeeRequest(w, basefee), DecodeUnit))
    }
  }
}
