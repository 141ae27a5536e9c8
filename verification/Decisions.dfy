// Decisions, keys and configuration of the namespace flusher.
module Decisions {
  import opened Basics

  datatype Key = Key(namespace: string, ksvcName: string)

  datatype Decision = Decision(
    namespace: string,
    ksvcName: string,
    adoptionName: string,
    desiredMinScale: int,
    reason: string)
  {
    function KeyOf(): Key { Key(namespace, ksvcName) }
  }

  // Durations are integers in one fixed unit.
  datatype Config = Config(window: int, maxInFlight: int, maxFailures: int, hasSink: bool)

  const DEFAULT_WINDOW := 2000
  const DEFAULT_MAX_IN_FLIGHT := 5
  const DEFAULT_MAX_FAILURES := 5

  // Zero values fall back to the defaults; a negative cap survives and means "no cap".
  function WithDefaults(c: Config): (r: Config)
    ensures r.window > 0 && r.maxFailures > 0 && r.maxInFlight != 0
    ensures (c.window > 0 ==> r.window == c.window) && (c.maxFailures > 0 ==> r.maxFailures == c.maxFailures)
    ensures (c.maxInFlight != 0 ==> r.maxInFlight == c.maxInFlight) && r.hasSink == c.hasSink
    ensures c == Config(0, 0, 0, c.hasSink) ==> r == Config(2000, 5, 5, c.hasSink)
  {
    Config(
      if c.window <= 0 then DEFAULT_WINDOW else c.window,
      if c.maxInFlight == 0 then DEFAULT_MAX_IN_FLIGHT else c.maxInFlight,
      if c.maxFailures <= 0 then DEFAULT_MAX_FAILURES else c.maxFailures,
      c.hasSink)
  }
}
