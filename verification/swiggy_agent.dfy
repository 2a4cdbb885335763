/**
 * The Swiggy agent, in one of three services (Food, Instamart, Dineout): a
 * system prompt chosen by the service, a name derived from it, and a chat
 * history that only grows.
 */
module Swiggy {
  import opened Wrappers
  import opened Chat

  /**
   * The `SwiggyService` enum. A C# enum holds any value of its underlying
   * `int`, so the three declared members are constants of a type over `int`.
   */
  newtype SwiggyService = int

  const Food: SwiggyService := 0
  const Instamart: SwiggyService := 1
  const Dineout: SwiggyService := 2

  /** The value is one of the declared members. */
  predicate IsDeclared(service: SwiggyService) {
    service == Food || service == Instamart || service == Dineout
  }

  /** The member's name, as the enum's `ToString()` gives it. */
  function ServiceName(service: SwiggyService): string
    requires IsDeclared(service)
  {
    if service == Food then "Food" else if service == Instamart then "Instamart" else "Dineout"
  }

  /** `$"Swiggy{service}"`: one name per declared service. */
  function NameFor(service: SwiggyService): (r: string)
    requires IsDeclared(service)
    ensures r == "SwiggyFood" <==> service == Food
    ensures r == "SwiggyInstamart" <==> service == Instamart
    ensures r == "SwiggyDineout" <==> service == Dineout
  {
    "Swiggy" + ServiceName(service)
  }

  /** Distinct services never share a name. */
  lemma NameForInjective(s: SwiggyService, t: SwiggyService)
    requires IsDeclared(s) && IsDeclared(t) && NameFor(s) == NameFor(t)
    ensures s == t
  {
  }

  /** `ArgumentOutOfRangeException` and the parameter it names. */
  datatype OutOfRange = ArgumentOutOfRange(paramName: string)

  // The three system prompts, each abbreviated to its first line.
  const FoodPrompt: string := "You are a helpful food ordering assistant powered by Swiggy."
  const InstamartPrompt: string := "You are a helpful grocery and essentials assistant powered by Swiggy Instamart."
  const DineoutPrompt: string := "You are a helpful restaurant dining assistant powered by Swiggy Dineout."

  /** `GetSystemPrompt`: the declared members have a prompt each; any other value throws. */
  function GetSystemPrompt(service: SwiggyService): (r: Result<string, OutOfRange>)
    ensures r.Ok? <==> IsDeclared(service)
    ensures r.Err? ==> r.error == ArgumentOutOfRange("service")
  {
    if service == Food then Ok(FoodPrompt)
    else if service == Instamart then Ok(InstamartPrompt)
    else if service == Dineout then Ok(DineoutPrompt)
    else Err(ArgumentOutOfRange("service"))
  }

  class SwiggyAgent {
    const Name: string
    ghost const service: SwiggyService
    var history: seq<Turn>

    ghost predicate Valid()
      reads this
    {
      IsDeclared(service) && WellFormed(history, GetSystemPrompt(service).value)
    }

    /**
     * The constructor for a declared service. For any other value the source
     * constructor throws from `GetSystemPrompt` and no agent exists.
     */
    constructor (service: SwiggyService)
      requires IsDeclared(service)
      ensures Valid() && this.service == service
      ensures Name == NameFor(service)
      ensures history == [Turn(System, GetSystemPrompt(service).value)]
    {
      Name := "Swiggy" + ServiceName(service);
      this.service := service;
      history := Initial(GetSystemPrompt(service).value);
    }

    /** `InvokeAsync`: the user's turn first, then the service's answer, which is also returned. */
    method Invoke(prompt: string, backend: Backend) returns (reply: Result<string, string>)
      requires Valid()
      modifies this
      ensures Valid()
      ensures history == Step(old(history), prompt, backend).history
      ensures reply == Step(old(history), prompt, backend).reply
      ensures reply.Ok? ==> history == old(history) + [Turn(User, prompt), Turn(Assistant, reply.value)]
      ensures reply.Err? ==> history == old(history) + [Turn(User, prompt)]
    {
      history := history + [Turn(User, prompt)];
      var response := backend(history);
      match response
      case Failed(message) =>
        reply := Err(message);
      case Completed(content) =>
        history := history + [Turn(Assistant, content.GetOr(""))];
        reply := Ok(content.GetOr(""));
    }
  }
}
