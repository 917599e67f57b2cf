/** Retry budget, backoff delays and per-agent timeouts (src/core/retry.py). */
module Retry {
  import opened Plans

  const BACKOFF_SECONDS: seq<real> := [1.0, 4.0]

  const RETRY_MAX: nat := |BACKOFF_SECONDS|

  function AgentTimeout(agent: AgentName): real {
    match agent
    case Transcriber => 600.0
    case Ocr => 120.0
    case Summarizer => 90.0
    case TestGenerator => 60.0
    case Terminology => 30.0
    case Recommender => 15.0
  }

  /** How long an attempt may take: as configured for the agent, or else the built-in time. */
  predicate Lasts(timeouts: map<AgentName, real>, agent: AgentName, seconds: real) {
    if agent in timeouts then seconds == timeouts[agent]
    else
      match agent
      case Transcriber => seconds == 600.0
      case Ocr => seconds == 120.0
      case Summarizer => seconds == 90.0
      case TestGenerator => seconds == 60.0
      case Terminology => seconds == 30.0
      case Recommender => seconds == 15.0
  }

  /** The injected override first, the built-in default otherwise. */
  function TimeoutFor(overrides: map<AgentName, real>, agent: AgentName): (seconds: real)
    ensures Lasts(overrides, agent, seconds)
  {
    if agent in overrides then overrides[agent] else AgentTimeout(agent)
  }
}
