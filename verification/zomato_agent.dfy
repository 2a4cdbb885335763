/** The Zomato food-ordering agent: a chat history that only grows. */
module Zomato {
  import opened Wrappers
  import opened Chat

  /** The system prompt (abbreviated to its first line). */
  const SystemPrompt: string := "You are a helpful food ordering assistant powered by Zomato."

  const AgentName: string := "Zomato"

  class ZomatoAgent {
    const Name: string := AgentName
    var history: seq<Turn>

    ghost predicate Valid()
      reads this
    {
      WellFormed(history, SystemPrompt)
    }

    constructor ()
      ensures Valid()
      ensures history == [Turn(System, SystemPrompt)]
    {
      history := Initial(SystemPrompt);
    }

    /**
     * `InvokeAsync`: the user's turn first, then the service's answer, which
     * is also returned; on success the returned text is the last turn's.
     */
    method Invoke(prompt: string, backend: Backend) returns (reply: Result<string, string>)
      requires Valid()
      modifies this
      ensures Valid()
      ensures history == Step(old(history), prompt, backend).history
      ensures reply == Step(old(history), prompt, backend).reply
      ensures reply.Ok? ==> history == old(history) + [Turn(User, prompt), Turn(Assistant, reply.value)]
      ensures reply.Ok? ==> history[|history| - 1].content == reply.value
      ensures reply.Err? ==> history == old(history) + [Turn(User, prompt)]
    {
      history := history + [Turn(User, prompt)];
      var response := backend(history);
      match response
      case Failed(message) =>
        reply := Err(message);
      case Completed(content) =>
        history := history + [Turn(Assistant, content.GetOr(""))];
        reply := Ok(content.GetOr(""));
    }
  }
}
