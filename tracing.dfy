/** `pkg/tracing`: the lifecycle trace emitter. A tracer is a value built once from its
    configuration; emitting a trace builds one `TraceLog` record and hands it to the logger
    at Debug level. The clock reading is a parameter. */
module Tracing {

  import opened Ints
  import opened Slog

  /** The `TraceLog` record of `pkg/tracing/types.go`. */
  datatype TraceLog = TraceLog(
    topology: string,
    benchId: string,
    cni: string,
    operation: string,
    timestamp: int64,
    traceId: string,
    serviceName: string,
    relatedService: string)

  datatype Tracer = Tracer(logger: Logger, topology: string, cni: string, serviceName: string)

  /** `NewTracer`: the tracer keeps its four arguments as they are. */
  function NewTracer(logger: Logger, topology: string, cni: string, serviceName: string): (t: Tracer)
    ensures t.logger == logger && t.topology == topology
    ensures t.cni == cni && t.serviceName == serviceName
  {
    Tracer(logger, topology, cni, serviceName)
  }

  /** `LogTrace`, with `now` standing for `time.Now().UnixNano()`: the one Debug-level record
      the call hands to the logger. The tracer is a value, so the call cannot change it. */
  function LogTrace(t: Tracer, operation: string, benchId: string, traceId: string,
                    relatedService: string, now: int64): (r: Record<TraceLog>)
    ensures r.level == Debug && r.message == "trace_log"
    // configuration fields come from the tracer, never from the arguments
    ensures r.attribute.topology == t.topology && r.attribute.cni == t.cni
    ensures r.attribute.serviceName == t.serviceName
    // per-call fields are the arguments, unchanged
    ensures r.attribute.operation == operation && r.attribute.benchId == benchId
    ensures r.attribute.traceId == traceId && r.attribute.relatedService == relatedService
    ensures r.attribute.timestamp == now
  {
    Record(Debug, "trace_log", TraceLog(t.topology, benchId, t.cni, operation, now, traceId,
                                        t.serviceName, relatedService))
  }

  /** A trace record reaches the output only when the tracer's logger lets Debug through. */
  lemma TraceWrittenOnlyAtDebug(t: Tracer, operation: string, benchId: string, traceId: string,
                                relatedService: string, now: int64)
    ensures Enabled(t.logger, LogTrace(t, operation, benchId, traceId, relatedService, now).level)
            <==> t.logger.minLevel == Debug
  {
  }
}
