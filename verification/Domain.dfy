/** The values the invocation service passes around: records, functions, results and configuration. */
module Domain {

  datatype Option<+T> = None | Some(value: T)

  datatype Status = Pending | Running | Completed | Failed | DeadLetter

  /** An invocation in one of these states still has work to come. */
  predicate Active(s: Status) {
    s == Pending || s == Running
  }

  predicate Terminal(s: Status) {
    s == Completed || s == DeadLetter
  }

  datatype InvocationResult = InvocationResult(output: string, logs: string, durationMs: int)

  /** The value of an asynchronous invocation record. Times are nanoseconds. */
  datatype Record = Record(
    id: string,
    functionID: string,
    status: Status,
    result: Option<InvocationResult>,
    error: string,
    retryCount: int,
    maxRetries: int,
    payload: string,
    traceID: string,
    caller: string,
    createdAt: int,
    completedAt: Option<int>)

  /** The part of a record that is fixed when the record is created. */
  datatype Core = Core(id: string, functionID: string, maxRetries: int, payload: string,
                       traceID: string, caller: string, createdAt: int)

  function CoreOf(r: Record): Core {
    Core(r.id, r.functionID, r.maxRetries, r.payload, r.traceID, r.caller, r.createdAt)
  }

  /** A registered function, reduced to the fields the service reads. */
  datatype Function = Function(id: string, name: string, timeoutSec: int)

  datatype Config = Config(capacity: nat, maxRetries: int, defaultTimeout: int, maxTimeout: int)

  /** The number of retries a worker grants: a negative setting counts as zero. */
  function Retries(cfg: Config): nat {
    if cfg.maxRetries < 0 then 0 else cfg.maxRetries
  }

  /** What configuration loading guarantees about the numbers. */
  predicate Normalised(cfg: Config) {
    cfg.capacity >= 1 && 0 < cfg.defaultTimeout <= cfg.maxTimeout
  }
}
