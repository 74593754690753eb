/** How a node reads the requests the client sends: the method name picks the call, and the
    positional parameters are decoded with the same wire encodings. This is the partner of the
    request side of every client operation: each lemma below states that the node reads an
    operation's request as the intended call, carrying the operation's own arguments. */
module NodeView {
  import opened Wrappers
  import opened Json
  import opened EthTypes
  import opened PaddedWord
  import opened TracerConfig
  import opened GethRpc

  /** The struct logger with its flags, or a tracer chosen by name. */
  datatype Tracer = StructLogger(config: GethLoggerConfig) | NamedTracer(name: string)

  datatype NodeCall =
    | Coinbase
    | ChainId
    | BlockByHash(hash: Hash, fullTransactions: bool)
    | BlockByNumber(number: BlockNumber, fullTransactions: bool)
    | TransactionByHash(hash: Hash)
    | TraceBlockByHash(hash: Hash, tracer: Tracer)
    | TraceBlockByNumber(number: BlockNumber, tracer: Tracer)
    | TraceTransaction(hash: Hash, tracer: Tracer)
    | Code(address: Address, number: BlockNumber)
    | Proof(address: Address, storageKeys: seq<Word>, number: BlockNumber)
    | StopMiner
    | StartMiner(threads: int)
    | Mine(blocks: int, interval: int)
    | ResetFork(jsonRpcUrl: string, blockNumber: U64)
    | SetNonce(address: Address, nonce: Word)
    | SendRawTransaction(rawTx: Bytes)
    | SetNextBlockBaseFee(baseFee: Word)

  /** Exactly `n` positional parameters. */
  function Args(p: Params, n: nat): (r: Option<seq<Json>>)
    ensures r.Some? ==> |r.value| == n
  {
    if p.Positional? && |p.values| == n then Some(p.values) else None
  }

  function ParseBool(j: Json): Option<bool> {
    if j.JBool? then Some(j.b) else None
  }

  function ParseInt(j: Json): Option<int> {
    if j.JNum? then Some(j.n) else None
  }

  /** An object naming a tracer selects it; otherwise it is read as struct logger flags. */
  function ParseTracer(j: Json): Option<Tracer> {
    if j.JObj? && "tracer" in j.fields then
      (if j.fields["tracer"].JStr? then Some(NamedTracer(j.fields["tracer"].s)) else None)
    else
      var c :- ParseLoggerConfig(j);
      Some(StructLogger(c))
  }

  // One reader per method: each takes the positional parameters that method expects.

  function ParseNoParams(p: Params, call: NodeCall): Option<NodeCall> {
    if p == NoParams then Some(call) else None
  }

  function ParseBlockByHash(w: Wire, p: Params): Option<NodeCall> {
    var a :- Args(p, 2);
    var h :- w.decodeHash(a[0]);
    var full :- ParseBool(a[1]);
    Some(BlockByHash(h, full))
  }

  function ParseBlockByNumber(w: Wire, p: Params): Option<NodeCall> {
    var a :- Args(p, 2);
    var n :- w.decodeBlockNumber(a[0]);
    var full :- ParseBool(a[1]);
    Some(BlockByNumber(n, full))
  }

  function ParseTxByHash(w: Wire, p: Params): Option<NodeCall> {
    var a :- Args(p, 1);
    var h :- w.decodeHash(a[0]);
    Some(TransactionByHash(h))
  }

  function ParseTraceBlockByHash(w: Wire, p: Params): Option<NodeCall> {
    var a :- Args(p, 2);
    var h :- w.decodeHash(a[0]);
    var t :- ParseTracer(a[1]);
    Some(TraceBlockByHash(h, t))
  }

  function ParseTraceBlockByNumber(w: Wire, p: Params): Option<NodeCall> {
    var a :- Args(p, 2);
    var n :- w.decodeBlockNumber(a[0]);
    var t :- ParseTracer(a[1]);
    Some(TraceBlockByNumber(n, t))
  }

  function ParseTraceTransaction(w: Wire, p: Params): Option<NodeCall> {
    var a :- Args(p, 2);
    var h :- w.decodeHash(a[0]);
    var t :- ParseTracer(a[1]);
    Some(TraceTransaction(h, t))
  }

  function ParseCode(w: Wire, p: Params): Option<NodeCall> {
    var a :- Args(p, 2);
    var addr :- w.decodeAddress(a[0]);
    var n :- w.decodeBlockNumber(a[1]);
    Some(Code(addr, n))
  }

  /** The parameters of `eth_getProof`: account, storage keys, block. */
  function ParseProof(w: Wire, p: Params): Option<NodeCall> {
    var a :- Args(p, 3);
    var addr :- w.decodeAddress(a[0]);
    var keys :- ParseWordArray(a[1]);
    var n :- w.decodeBlockNumber(a[2]);
    Some(Proof(addr, keys, n))
  }

  function ParseMinerStart(p: Params): Option<NodeCall> {
    var a :- Args(p, 1);
    var threads :- ParseInt(a[0]);
    Some(StartMiner(threads))
  }

  function ParseMine(p: Params): Option<NodeCall> {
    var a :- Args(p, 2);
    var blocks :- ParseInt(a[0]);
    var interval :- ParseInt(a[1]);
    Some(Mine(blocks, interval))
  }

  /** The one fork-target object of `anvil_reset`. */
  function ParseReset(w: Wire, p: Params): Option<NodeCall> {
    var a :- Args(p, 1);
    var j := a[0];
    if j.JObj? && "json_rpc_url" in j.fields && "block_number" in j.fields
       && j.fields["json_rpc_url"].JStr?
    then
      var n :- w.decodeU64(j.fields["block_number"]);
      Some(ResetFork(j.fields["json_rpc_url"].s, n))
    else None
  }

  function ParseSetNonce(w: Wire, p: Params): Option<NodeCall> {
    var a :- Args(p, 2);
    var addr :- w.decodeAddress(a[0]);
    var nonce :- w.decodeU256(a[1]);
    Some(SetNonce(addr, nonce))
  }

  function ParseSendRawTransaction(w: Wire, p: Params): Option<NodeCall> {
    var a :- Args(p, 1);
    var raw :- w.decodeBytes(a[0]);
    Some(SendRawTransaction(raw))
  }

  function ParseSetNextBlockBaseFee(w: Wire, p: Params): Option<NodeCall> {
    var a :- Args(p, 1);
    var fee :- w.decodeU256(a[0]);
    Some(SetNextBlockBaseFee(fee))
  }

  /** The methods the node serves. */
  datatype Method =
    | EthCoinbase | EthChainId | EthGetBlockByHash | EthGetBlockByNumber | EthGetTransactionByHash
    | DebugTraceBlockByHash | DebugTraceBlockByNumber | DebugTraceTransaction
    | EthGetCode | EthGetProof | MinerStop | MinerStart
    | AnvilMine | AnvilReset | AnvilSetNonce | EthSendRawTransaction | AnvilSetNextBlockBaseFeePerGas

  /** The node's method table, keyed by the name on the wire. */
  const Methods: map<string, Method> := map[
    "eth_coinbase" := EthCoinbase,
    "eth_chainId" := EthChainId,
    "eth_getBlockByHash" := EthGetBlockByHash,
    "eth_getBlockByNumber" := EthGetBlockByNumber,
    "eth_getTransactionByHash" := EthGetTransactionByHash,
    "debug_traceBlockByHash" := DebugTraceBlockByHash,
    "debug_traceBlockByNumber" := DebugTraceBlockByNumber,
    "debug_traceTransaction" := DebugTraceTransaction,
    "eth_getCode" := EthGetCode,
    "eth_getProof" := EthGetProof,
    "miner_stop" := MinerStop,
    "miner_start" := MinerStart,
    "anvil_mine" := AnvilMine,
    "anvil_reset" := AnvilReset,
    "anvil_setNonce" := AnvilSetNonce,
    "eth_sendRawTransaction" := EthSendRawTransaction,
    "anvil_setNextBlockBaseFeePerGas" := AnvilSetNextBlockBaseFeePerGas]

  /** The method name picks the reader; an unknown name is not served. */
  function ParseCall(w: Wire, req: RpcRequest): Option<NodeCall> {
    var p := req.params;
    if req.methodName !in Methods then None
    else match Methods[req.methodName]
      case EthCoinbase => ParseNoParams(p, Coinbase)
      case EthChainId => ParseNoParams(p, ChainId)
      case EthGetBlockByHash => ParseBlockByHash(w, p)
      case EthGetBlockByNumber => ParseBlockByNumber(w, p)
      case EthGetTransactionByHash => ParseTxByHash(w, p)
      case DebugTraceBlockByHash => ParseTraceBlockByHash(w, p)
      case DebugTraceBlockByNumber => ParseTraceBlockByNumber(w, p)
      case DebugTraceTransaction => ParseTraceTransaction(w, p)
      case EthGetCode => ParseCode(w, p)
      case EthGetProof => ParseProof(w, p)
      case MinerStop => ParseNoParams(p, StopMiner)
      case MinerStart => ParseMinerStart(p)
      case AnvilMine => ParseMine(p)
      case AnvilReset => ParseReset(w, p)
      case AnvilSetNonce => ParseSetNonce(w, p)
      case EthSendRawTransaction => ParseSendRawTransaction(w, p)
      case AnvilSetNextBlockBaseFeePerGas => ParseSetNextBlockBaseFee(w, p)
  }

  /** A logger configuration is read back as the struct logger with the same flags. */
  lemma ParseTracerLogger(c: GethLoggerConfig)
    ensures ParseTracer(LoggerConfigJson(c)) == Some(StructLogger(c))
  {
    ParseLoggerConfigJson(c);
  }

  /** The prestate directive is read as the named tracer, not as logger flags. */
  lemma ParseTracerPrestate()
    ensures ParseTracer(PrestateTracerJson()) == Some(NamedTracer("prestateTracer"))
  {
  }

  lemma CoinbaseMeaning(w: Wire)
    ensures ParseCall(w, CoinbaseRequest()) == Some(Coinbase)
  {
  }

  lemma ChainIdMeaning(w: Wire)
    ensures ParseCall(w, ChainIdRequest()) == Some(ChainId)
  {
  }

  /** A block fetch by hash always asks for full transactions. */
  lemma BlockByHashMeaning(w: Wire, hash: Hash)
    requires w.RoundTrips()
    ensures ParseCall(w, BlockByHashRequest(w, hash)) == Some(BlockByHash(hash, true))
  {
    assert ParseBlockByHash(w, BlockByHashRequest(w, hash).params) == Some(BlockByHash(hash, true));
  }

  /** A block fetch by number always asks for full transactions. */
  lemma BlockByNumberMeaning(w: Wire, blockNum: BlockNumber)
    requires w.RoundTrips()
    ensures ParseCall(w, BlockByNumberRequest(w, blockNum)) == Some(BlockByNumber(blockNum, true))
  {
    assert ParseBlockByNumber(w, BlockByNumberRequest(w, blockNum).params) == Some(BlockByNumber(blockNum, true));
  }

  lemma TxByHashMeaning(w: Wire, hash: Hash)
    requires w.RoundTrips()
    ensures ParseCall(w, TxByHashRequest(w, hash)) == Some(TransactionByHash(hash))
  {
    assert ParseTxByHash(w, TxByHashRequest(w, hash).params) == Some(TransactionByHash(hash));
  }

  /** A block trace by hash runs the struct logger with the default flags. */
  lemma TraceBlockByHashMeaning(w: Wire, hash: Hash)
    requires w.RoundTrips()
    ensures ParseCall(w, TraceBlockByHashRequest(w, hash))
         == Some(TraceBlockByHash(hash, StructLogger(DefaultLoggerConfig())))
  {
    ParseTracerLogger(DefaultLoggerConfig());
  }

  /** A block trace by number runs the struct logger with the default flags. */
  lemma TraceBlockByNumberMeaning(w: Wire, blockNum: BlockNumber)
    requires w.RoundTrips()
    ensures ParseCall(w, TraceBlockByNumberRequest(w, blockNum))
         == Some(TraceBlockByNumber(blockNum, StructLogger(DefaultLoggerConfig())))
  {
    ParseTracerLogger(DefaultLoggerConfig());
  }

  /** A transaction trace runs the struct logger with memory capture equal to the strictness
      flag and every other flag at its default. */
  lemma TraceTxMeaning(w: Wire, hash: Hash, strict: bool)
    requires w.RoundTrips()
    ensures ParseCall(w, TraceTxRequest(w, hash, strict))
         == Some(TraceTransaction(hash, StructLogger(GethLoggerConfig(
              enableMemory := strict, disableStack := false, disableStorage := false,
              enableReturnData := true))))
  {
    ParseTracerLogger(TxTraceConfig(strict));
  }

  /** The prestate transaction trace names the prestate tracer and sends no logger flags. */
  lemma TraceTxPrestateMeaning(w: Wire, hash: Hash)
    requires w.RoundTrips()
    ensures ParseCall(w, TraceTxPrestateRequest(w, hash))
         == Some(TraceTransaction(hash, NamedTracer("prestateTracer")))
  {
    ParseTracerPrestate();
  }

  /** The prestate block trace names the prestate tracer and sends no logger flags. */
  lemma TraceBlockPrestateMeaning(w: Wire, hash: Hash)
    requires w.RoundTrips()
    ensures ParseCall(w, TraceBlockPrestateRequest(w, hash))
         == Some(TraceBlockByHash(hash, NamedTracer("prestateTracer")))
  {
    ParseTracerPrestate();
  }

  lemma CodeMeaning(w: Wire, contractAddress: Address, blockNum: BlockNumber)
    requires w.RoundTrips()
    ensures ParseCall(w, CodeRequest(w, contractAddress, blockNum))
         == Some(Code(contractAddress, blockNum))
  {
    assert ParseCode(w, CodeRequest(w, contractAddress, blockNum).params) == Some(Code(contractAddress, blockNum));
  }

  /** The three parameters of the proof request read back as its arguments. */
  lemma ProofParams(w: Wire, account: Address, keys: seq<Word>, blockNum: BlockNumber)
    requires w.RoundTrips()
    ensures ParseProof(w, ProofRequest(w, account, keys, blockNum).params)
         == Some(Proof(account, keys, blockNum))
  {
    var a := ProofRequest(w, account, keys, blockNum).params.values;
    ParsePaddedWordVec(keys);
    assert Args(Positional(a), 3) == Some(a);
    assert ParseWordArray(a[1]) == Some(keys);
  }

  /** The node reads the proof request as the account, exactly the given storage keys in their
      order, and the block. */
  lemma ProofMeaning(w: Wire, account: Address, keys: seq<Word>, blockNum: BlockNumber)
    requires w.RoundTrips()
    ensures ParseCall(w, ProofRequest(w, account, keys, blockNum))
         == Some(Proof(account, keys, blockNum))
  {
    ProofParams(w, account, keys, blockNum);
  }

  lemma MinerStopMeaning(w: Wire)
    ensures ParseCall(w, MinerStopRequest()) == Some(StopMiner)
  {
  }

  lemma MinerStartMeaning(w: Wire)
    ensures ParseCall(w, MinerStartRequest()) == Some(StartMiner(1))
  {
  }

  /** One block, with interval 12. */
  lemma MineMeaning(w: Wire)
    ensures ParseCall(w, MineRequest()) == Some(Mine(1, 12))
  {
  }

  lemma ResetMeaning(w: Wire, jsonRpcUrl: string, blockNumber: U64)
    requires w.RoundTrips()
    ensures ParseCall(w, ResetRequest(w, jsonRpcUrl, blockNumber))
         == Some(ResetFork(jsonRpcUrl, blockNumber))
  {
    assert ParseReset(w, ResetRequest(w, jsonRpcUrl, blockNumber).params) == Some(ResetFork(jsonRpcUrl, blockNumber));
  }

  lemma SetNonceMeaning(w: Wire, address: Address, nonce: Word)
    requires w.RoundTrips()
    ensures ParseCall(w, SetNonceRequest(w, address, nonce)) == Some(SetNonce(address, nonce))
  {
    assert ParseSetNonce(w, SetNonceRequest(w, address, nonce).params) == Some(SetNonce(address, nonce));
  }

  lemma SendRawTransactionMeaning(w: Wire, rawTx: Bytes)
    requires w.RoundTrips()
    ensures ParseCall(w, SendRawTransactionRequest(w, rawTx)) == Some(SendRawTransaction(rawTx))
  {
    assert ParseSendRawTransaction(w, SendRawTransactionRequest(w, rawTx).params) == Some(SendRawTransaction(rawTx));
  }

  lemma SetNextBlockBaseFeeMeaning(w: Wire, basefee: Word)
    requires w.RoundTrips()
    ensures ParseCall(w, SetNextBlockBaseFeeRequest(w, basefee))
         == Some(SetNextBlockBaseFee(basefee))
  {
    assert ParseSetNextBlockBaseFee(w, SetNextBlockBaseFeeRequest(w, basefee).params) == Some(SetNextBlockBaseFee(basefee));
  }
}
