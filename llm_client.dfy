/**
 * The generic text-generation interface `LLMClient.generate`: role-tagged messages in,
 * plain text out. The service itself (an HTTP call) is not modelled: a `Generator` is an
 * oracle whose coming answers are given in advance and which records every request.
 */
module LlmClient {
  import opened Wrappers

  datatype Role = System | User | Assistant

  /** One `{"role": ..., "content": ...}` entry of a request. */
  datatype Message = Message(role: Role, content: string)

  /** The answer the service gives to the next call: `None` when that call raises. */
  function NextOutcome(outcomes: seq<Option<string>>): Option<string> {
    if outcomes == [] then None else outcomes[0]
  }

  /** The answers still to come after one call. */
  function Later(outcomes: seq<Option<string>>): seq<Option<string>> {
    if outcomes == [] then [] else outcomes[1..]
  }

  class Generator {
    /** What the service will answer to the coming calls, in order (`None`: the call fails). */
    var outcomes: seq<Option<string>>
    /** Every request sent so far, oldest first. */
    ghost var log: seq<seq<Message>>

    constructor (outcomes: seq<Option<string>>)
      ensures this.outcomes == outcomes && log == []
    {
      this.outcomes := outcomes;
      log := [];
    }

    /** `generate(messages)`: one request, one answer or a failure; nothing is retried. */
    method Generate(messages: seq<Message>) returns (answer: Option<string>)
      modifies this
      ensures log == old(log) + [messages]
      ensures answer == NextOutcome(old(outcomes))
      ensures outcomes == Later(old(outcomes))
    {
      log := log + [messages];
      answer := NextOutcome(outcomes);
      outcomes := Later(outcomes);
    }
  }
}
