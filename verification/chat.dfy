/**
 * The chat history every agent keeps, and the one exchange that every
 * agent's `InvokeAsync` performs on it: append the user's turn, ask the
 * chat-completion service, append its answer.
 */
module Chat {
  import opened Wrappers

  datatype Role = System | User | Assistant

  datatype Turn = Turn(role: Role, content: string)

  /**
   * What the chat-completion service does with a history: throw (with an
   * exception message), or answer with a message whose `Content` may be null.
   */
  datatype Completion = Failed(message: string) | Completed(content: Option<string>)

  /** The chat-completion service, as a function of the history it is sent. */
  type Backend = seq<Turn> -> Completion

  /** A history as the agents keep it: their system turn first, and no other system turn. */
  predicate WellFormed(h: seq<Turn>, systemPrompt: string) {
    && |h| >= 1
    && h[0] == Turn(System, systemPrompt)
    && forall i :: 1 <= i < |h| ==> h[i].role != System
  }

  /** `new ChatHistory(systemPrompt)`. */
  function Initial(systemPrompt: string): (h: seq<Turn>)
    ensures WellFormed(h, systemPrompt) && |h| == 1
  {
    [Turn(System, systemPrompt)]
  }

  /** The history after a call, and what the call returned or the message it threw. */
  datatype Exchange = Exchange(history: seq<Turn>, reply: Result<string, string>)

  /**
   * One `InvokeAsync(prompt)`. The user's turn goes into the history before
   * the service is called, so the service sees it, and a call that throws
   * leaves it there unanswered. On success the answer (`Content ?? ""`) is
   * both appended and returned.
   */
  function Step(h: seq<Turn>, prompt: string, backend: Backend): (e: Exchange)
    ensures |h| < |e.history| && e.history[..|h|] == h
    ensures e.history[|h|] == Turn(User, prompt)
    ensures e.reply.Err? <==> backend(h + [Turn(User, prompt)]).Failed?
    ensures e.reply.Err? ==> e.history == h + [Turn(User, prompt)]
    ensures e.reply.Err? ==> e.reply.error == backend(h + [Turn(User, prompt)]).message
    ensures e.reply.Ok? ==> e.history == h + [Turn(User, prompt), Turn(Assistant, e.reply.value)]
    ensures e.reply.Ok? ==> e.history[|e.history| - 1] == Turn(Assistant, e.reply.value)
    ensures backend(h + [Turn(User, prompt)]).Completed? ==>
      e.reply == Ok(backend(h + [Turn(User, prompt)]).content.GetOr(""))
  {
    var asked := h + [Turn(User, prompt)];
    match backend(asked)
    case Failed(message) => Exchange(asked, Err(message))
    case Completed(content) =>
      var text := content.GetOr("");
      Exchange(asked + [Turn(Assistant, text)], Ok(text))
  }

  /** An exchange keeps the history well formed. */
  lemma StepPreservesWellFormed(h: seq<Turn>, systemPrompt: string, prompt: string, backend: Backend)
    requires WellFormed(h, systemPrompt)
    ensures WellFormed(Step(h, prompt, backend).history, systemPrompt)
  {
  }

  /** The history after the prompts are sent one after another. */
  function Replay(h: seq<Turn>, prompts: seq<string>, backend: Backend): seq<Turn>
    decreases |prompts|
  {
    if prompts == [] then h else Replay(Step(h, prompts[0], backend).history, prompts[1..], backend)
  }

  /** The service never throws. */
  ghost predicate NeverFails(backend: Backend) {
    forall h :: backend(h).Completed?
  }

  /** Turns are only appended: the earlier history survives any number of calls unchanged. */
  lemma {:induction false} ReplayExtends(h: seq<Turn>, prompts: seq<string>, backend: Backend)
    ensures |h| + |prompts| <= |Replay(h, prompts, backend)| <= |h| + 2 * |prompts|
    ensures Replay(h, prompts, backend)[..|h|] == h
    decreases |prompts|
  {
    if prompts != [] {
      var next := Step(h, prompts[0], backend).history;
      ReplayExtends(next, prompts[1..], backend);
      assert next[..|h|] == h;
      assert Replay(h, prompts, backend)[..|next|][..|h|] == Replay(h, prompts, backend)[..|h|];
    }
  }

  /** Any number of calls keeps the history well formed. */
  lemma {:induction false} ReplayWellFormed(h: seq<Turn>, systemPrompt: string, prompts: seq<string>, backend: Backend)
    requires WellFormed(h, systemPrompt)
    ensures WellFormed(Replay(h, prompts, backend), systemPrompt)
    decreases |prompts|
  {
    if prompts != [] {
      StepPreservesWellFormed(h, systemPrompt, prompts[0], backend);
      ReplayWellFormed(Step(h, prompts[0], backend).history, systemPrompt, prompts[1..], backend);
    }
  }

  /**
   * With a service that never throws, n calls add exactly 2n turns: each
   * prompt as a user turn, followed by the service's answer to the history
   * up to and including that prompt (`Content ?? ""`).
   */
  lemma ReplayLength(h: seq<Turn>, prompts: seq<string>, backend: Backend)
    requires NeverFails(backend)
    ensures |Replay(h, prompts, backend)| == |h| + 2 * |prompts|
    ensures forall i :: 0 <= i < |prompts| ==>
      && Replay(h, prompts, backend)[|h| + 2 * i] == Turn(User, prompts[i])
      && Replay(h, prompts, backend)[|h| + 2 * i + 1] ==
           Turn(Assistant, backend(Replay(h, prompts[..i], backend) + [Turn(User, prompts[i])]).content.GetOr(""))
  {
    ReplayCount(h, prompts, backend);
    forall i | 0 <= i < |prompts|
      ensures Replay(h, prompts, backend)[|h| + 2 * i] == Turn(User, prompts[i])
      ensures Replay(h, prompts, backend)[|h| + 2 * i + 1] ==
        Turn(Assistant, backend(Replay(h, prompts[..i], backend) + [Turn(User, prompts[i])]).content.GetOr(""))
    {
      ReplayTurnsAt(h, prompts, i, backend);
    }
  }

  /** The turns call `i` adds: its prompt, then the answer to the history up to that prompt. */
  lemma ReplayTurnsAt(h: seq<Turn>, prompts: seq<string>, i: nat, backend: Backend)
    requires NeverFails(backend) && i < |prompts|
    ensures |h| + 2 * i + 1 < |Replay(h, prompts, backend)|
    ensures Replay(h, prompts, backend)[|h| + 2 * i] == Turn(User, prompts[i])
    ensures Replay(h, prompts, backend)[|h| + 2 * i + 1] ==
      Turn(Assistant, backend(Replay(h, prompts[..i], backend) + [Turn(User, prompts[i])]).content.GetOr(""))
  {
    var before := Replay(h, prompts[..i], backend);
    ReplayCount(h, prompts[..i], backend);
    assert |before| == |h| + 2 * i;
    assert prompts == prompts[..i] + prompts[i..];
    ReplayConcat(h, prompts[..i], prompts[i..], prompts, backend);
    assert Replay(h, prompts, backend) == Replay(before, prompts[i..], backend);
    assert prompts[i..][0] == prompts[i];
    ReplayNextTurns(before, prompts[i..], backend);
  }

  /** The next call of a replay adds the user's prompt and then the service's answer to it. */
  lemma ReplayNextTurns(h: seq<Turn>, prompts: seq<string>, backend: Backend)
    requires NeverFails(backend) && prompts != []
    ensures |h| + 2 <= |Replay(h, prompts, backend)|
    ensures Replay(h, prompts, backend)[|h|] == Turn(User, prompts[0])
    ensures Replay(h, prompts, backend)[|h| + 1] ==
      Turn(Assistant, backend(h + [Turn(User, prompts[0])]).content.GetOr(""))
  {
    var asked := h + [Turn(User, prompts[0])];
    assert backend(asked).Completed?;
    var e := Step(h, prompts[0], backend);
    ReplayExtends(e.history, prompts[1..], backend);
    var r := Replay(h, prompts, backend);
    assert r[..|e.history|] == e.history;
    assert r[|h|] == e.history[|h|] && r[|h| + 1] == e.history[|h| + 1];
  }

  /** With a service that never throws, each call adds exactly two turns. */
  lemma {:induction false} ReplayCount(h: seq<Turn>, prompts: seq<string>, backend: Backend)
    requires NeverFails(backend)
    ensures |Replay(h, prompts, backend)| == |h| + 2 * |prompts|
    decreases |prompts|
  {
    if prompts != [] {
      assert backend(h + [Turn(User, prompts[0])]).Completed?;
      ReplayCount(Step(h, prompts[0], backend).history, prompts[1..], backend);
    }
  }

  /** Sending `p` and then `q` is sending `p + q`. */
  lemma {:induction false} ReplayConcat(h: seq<Turn>, p: seq<string>, q: seq<string>, prompts: seq<string>, backend: Backend)
    requires prompts == p + q
    ensures Replay(h, prompts, backend) == Replay(Replay(h, p, backend), q, backend)
    decreases |p|
  {
    if p != [] {
      assert prompts[0] == p[0] && prompts[1..] == p[1..] + q;
      ReplayConcat(Step(h, p[0], backend).history, p[1..], q, prompts[1..], backend);
    } else {
      assert prompts == q;
    }
  }

  /** A fresh agent that has answered n prompts holds 1 + 2n turns. */
  lemma FreshSessionLength(systemPrompt: string, prompts: seq<string>, backend: Backend)
    requires NeverFails(backend)
    ensures |Replay(Initial(systemPrompt), prompts, backend)| == 1 + 2 * |prompts|
    ensures Replay(Initial(systemPrompt), prompts, backend)[0] == Turn(System, systemPrompt)
  {
    ReplayLength(Initial(systemPrompt), prompts, backend);
    ReplayExtends(Initial(systemPrompt), prompts, backend);
    assert Replay(Initial(systemPrompt), prompts, backend)[..1][0] == Turn(System, systemPrompt);
  }
}
