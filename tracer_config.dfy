/** The tracing options sent with `debug_trace*` calls: geth's struct logger flags under their
    wire names, and the directive that selects the prestate tracer instead. */
module TracerConfig {
  import opened Wrappers
  import opened Json

  datatype GethLoggerConfig = GethLoggerConfig(
    enableMemory: bool,
    disableStack: bool,
    disableStorage: bool,
    enableReturnData: bool)

  /** The four wire names, which differ from the field names. */
  function LoggerWireNames(): set<string> {
    {"EnableMemory", "DisableStack", "DisableStorage", "EnableReturnData"}
  }

  /** `GethLoggerConfig::default()`. */
  function DefaultLoggerConfig(): (c: GethLoggerConfig)
    ensures !c.enableMemory && !c.disableStack && !c.disableStorage && c.enableReturnData
  {
    GethLoggerConfig(enableMemory := false, disableStack := false, disableStorage := false,
                     enableReturnData := true)
  }

  /** The configuration of a single-transaction trace: the default with memory capture set to
      the strictness flag. */
  function TxTraceConfig(strict: bool): (c: GethLoggerConfig)
    ensures c.enableMemory == strict
    ensures c.(enableMemory := false) == DefaultLoggerConfig()
  {
    DefaultLoggerConfig().(enableMemory := strict)
  }

  /** `serialize(&cfg)` for a logger configuration: an object with exactly the four wire names. */
  function LoggerConfigJson(c: GethLoggerConfig): (j: Json)
    ensures j.JObj? && j.fields.Keys == LoggerWireNames()
  {
    JObj(map[
      "EnableMemory" := JBool(c.enableMemory),
      "DisableStack" := JBool(c.disableStack),
      "DisableStorage" := JBool(c.disableStorage),
      "EnableReturnData" := JBool(c.enableReturnData)])
  }

  /** How a node reads a logger configuration object. */
  function ParseLoggerConfig(j: Json): (r: Option<GethLoggerConfig>)
  {
    if j.JObj? && j.fields.Keys == LoggerWireNames()
       && j.fields["EnableMemory"].JBool? && j.fields["DisableStack"].JBool?
       && j.fields["DisableStorage"].JBool? && j.fields["EnableReturnData"].JBool?
    then Some(GethLoggerConfig(j.fields["EnableMemory"].b, j.fields["DisableStack"].b,
                               j.fields["DisableStorage"].b, j.fields["EnableReturnData"].b))
    else None
  }

  /** Round trip: the node reads back every flag under its wire name. */
  lemma ParseLoggerConfigJson(c: GethLoggerConfig)
    ensures ParseLoggerConfig(LoggerConfigJson(c)) == Some(c)
  {
  }

  /** The default configuration on the wire: memory, stack and storage flags false, return data
      capture true. */
  lemma DefaultLoggerConfigJson()
    ensures LoggerConfigJson(DefaultLoggerConfig()).fields == map[
      "EnableMemory" := JBool(false), "DisableStack" := JBool(false),
      "DisableStorage" := JBool(false), "EnableReturnData" := JBool(true)]
  {
  }

  /** `json!({"tracer": "prestateTracer"})`: only the tracer name, none of the logger flags. */
  function PrestateTracerJson(): (j: Json)
    ensures j.JObj? && j.fields.Keys == {"tracer"} && j.fields["tracer"] == JStr("prestateTracer")
    ensures j.fields.Keys * LoggerWireNames() == {}
  {
    JObj(map["tracer" := JStr("prestateTracer")])
  }
}
