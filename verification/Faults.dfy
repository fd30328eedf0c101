// Deterministic injected outcomes (faults.py). The seeded generator is an abstract
// draw, a function of the seed and the job id alone.

module Faults {
  import opened Ids

  datatype FaultOutcome = Success | Timeout | Failure

  datatype FaultPolicy = FaultPolicy(seed: int, timeoutRate: real, failureRate: real, draw: (int, Uuid) -> real)

  function Choose(p: FaultPolicy, job: Uuid): FaultOutcome {
    var draw := p.draw(p.seed, job);
    if draw < p.timeoutRate then Timeout
    else if draw < p.timeoutRate + p.failureRate then Failure
    else Success
  }
}
