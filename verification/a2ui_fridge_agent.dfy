/**
 * The smart-fridge agent whose answers carry a rich-UI payload: its chat
 * history, and `ParseResponse`, which separates the conversational text from
 * the A2UI JSON at the `---a2ui---` delimiter.
 */
module A2UIFridge {
  import opened Wrappers
  import opened Text
  import opened Chat

  /** The system prompt (abbreviated to its first line). */
  const SystemPrompt: string :=
    "You are a smart fridge assistant on a Samsung Family Hub (Tizen) that generates rich UI responses using A2UI format."

  const AgentName: string := "A2UIFridge"

  class A2UIFridgeAgent {
    const Name: string := AgentName
    var history: seq<Turn>

    ghost predicate Valid()
      reads this
    {
      WellFormed(history, SystemPrompt)
    }

    constructor ()
      ensures Valid()
      ensures history == [Turn(System, SystemPrompt)]
    {
      history := Initial(SystemPrompt);
    }

    /** `InvokeAsync`: the user's turn first, then the service's answer, which is also returned. */
    method Invoke(prompt: string, backend: Backend) returns (reply: Result<string, string>)
      requires Valid()
      modifies this
      ensures Valid()
      ensures history == Step(old(history), prompt, backend).history
      ensures reply == Step(old(history), prompt, backend).reply
      ensures reply.Ok? ==> history == old(history) + [Turn(User, prompt), Turn(Assistant, reply.value)]
      ensures reply.Err? ==> history == old(history) + [Turn(User, prompt)]
    {
      history := history + [Turn(User, prompt)];
      var response := backend(history);
      match response
      case Failed(message) =>
        reply := Err(message);
      case Completed(content) =>
        var text := content.GetOr("");
        history := history + [Turn(Assistant, text)];
        reply := Ok(text);
    }

    /** `ClearHistory`: back to the single system turn, whatever came before. */
    method ClearHistory()
      modifies this
      ensures Valid()
      ensures history == [Turn(System, SystemPrompt)]
    {
      history := [];
      history := history + [Turn(System, SystemPrompt)];
    }
  }

  // ---------------------------------------------------------------------------
  // ParseResponse

  const Delimiter: string := "---a2ui---"

  /** The conversational text, and the A2UI JSON if the answer carried one (`null` otherwise). */
  datatype ParsedResponse = ParsedResponse(conversationalText: string, a2uiJson: Option<string>)

  /**
   * `ParseResponse`: `Split(Delimiter, 2, TrimEntries)`. With the delimiter
   * present, the answer is cut at its first occurrence and both halves are
   * trimmed; without it, the answer comes back untouched and without JSON.
   */
  function ParseResponse(response: string): (r: ParsedResponse)
    ensures r.a2uiJson.Some? <==> Contains(response, Delimiter)
    ensures r.a2uiJson.None? ==> r.conversationalText == response
    ensures r.a2uiJson.Some? ==> exists k: nat ::
      && k <= |response|
      && FirstOccurrence(response, Delimiter, k)
      && r.conversationalText == Trim(response[..k])
      && r.a2uiJson.value == Trim(response[k + |Delimiter|..])
  {
    match IndexOf(response, Delimiter)
    case None => ParsedResponse(response, None)
    case Some(k) =>
      SplitAtOccurrence(response, k);
      ParsedResponse(Trim(response[..k]), Some(Trim(response[k + |Delimiter|..])))
  }

  /**
   * The witness for `ParseResponse`'s last ensures: the split it makes at the
   * first occurrence `k` is the one that ensures describes.
   */
  lemma SplitAtOccurrence(response: string, k: nat)
    requires FirstOccurrence(response, Delimiter, k)
    ensures exists i: nat ::
      && i <= |response|
      && FirstOccurrence(response, Delimiter, i)
      && Trim(response[..k]) == Trim(response[..i])
      && Trim(response[k + |Delimiter|..]) == Trim(response[i + |Delimiter|..])
  {
    assert k <= |response| && FirstOccurrence(response, Delimiter, k);
  }

  /** The delimiter holds no white space, so an occurrence cannot overlap white space. */
  lemma DelimiterHasNoWhiteSpace()
    ensures forall i :: 0 <= i < |Delimiter| ==> !IsWhiteSpace(Delimiter[i])
  {
  }

  /** The conversational text never contains the delimiter, whatever the answer. */
  lemma {:induction false} TextNeverContainsDelimiter(response: string)
    ensures !Contains(ParseResponse(response).conversationalText, Delimiter)
  {
    var found := IndexOf(response, Delimiter);
    if found.Some? {
      var k := found.value;
      assert ParseResponse(response).conversationalText == Trim(response[..k]);
      PrefixBeforeFirstOccurrence(response, Delimiter, k);
      TrimKeepsAbsence(response[..k], Delimiter);
    }
  }

  /**
   * When the answer is `a + Delimiter + b` and the delimiter does not occur
   * earlier, the text is `Trim(a)` and the JSON is `Trim(b)`, verbatim: later
   * delimiters inside `b` stay in the JSON.
   */
  lemma {:induction false} SplitsAtFirstDelimiter(a: string, b: string)
    requires forall j: nat :: j < |a| ==> !OccursAt(a + Delimiter + b, Delimiter, j)
    ensures ParseResponse(a + Delimiter + b) == ParsedResponse(Trim(a), Some(Trim(b)))
  {
    var s := a + Delimiter + b;
    assert s[|a|..|a| + |Delimiter|] == Delimiter;
    assert OccursAt(s, Delimiter, |a|);
    assert FirstOccurrence(s, Delimiter, |a|);
    var k := IndexOf(s, Delimiter).value;
    assert k == |a|;
    assert s[..k] == a;
    assert s[k + |Delimiter|..] == b;
  }

  /**
   * In `text + before + rest`, with `text` free of the delimiter and `before`
   * non-empty white space, no occurrence of the delimiter starts before `rest`.
   */
  lemma NoDelimiterBeforeSeparator(text: string, before: string, rest: string, j: nat)
    requires !Contains(text, Delimiter) && IsBlank(before) && before != []
    requires j < |text| + |before|
    ensures !OccursAt(text + before + rest, Delimiter, j)
  {
    var s := text + before + rest;
    if j + |Delimiter| <= |text| {
      AbsentFromPrefix(text, before + rest, Delimiter, j);
      assert s == text + (before + rest);
    } else if OccursAt(s, Delimiter, j) {
      // The occurrence covers a white-space character of `before`.
      var p := if j < |text| then |text| else j;
      assert s[p] == before[p - |text|];
      assert s[p] == s[j..j + |Delimiter|][p - j];
      DelimiterHasNoWhiteSpace();
      assert false;
    }
  }

  /**
   * The answer layout the system prompt asks for: trimmed text, white space,
   * the delimiter, white space, trimmed JSON. `ParseResponse` recovers the
   * text and the JSON exactly, provided the text does not itself contain the
   * delimiter and some white space separates it from the delimiter.
   */
  lemma {:induction false} ParseRecoversParts(text: string, before: string, after: string, json: string)
    requires IsTrimmed(text) && IsTrimmed(json) && !Contains(text, Delimiter)
    requires IsBlank(before) && IsBlank(after) && before != []
    ensures ParseResponse(text + before + Delimiter + after + json) == ParsedResponse(text, Some(json))
  {
    var a := text + before;
    var b := after + json;
    var s := a + Delimiter + b;
    assert s == text + before + Delimiter + after + json;
    assert s == text + before + (Delimiter + b);
    forall j: nat | j < |a|
      ensures !OccursAt(s, Delimiter, j)
    {
      NoDelimiterBeforeSeparator(text, before, Delimiter + b, j);
    }
    SplitsAtFirstDelimiter(a, b);
    TrimAround([], text, before);
    assert [] + text + before == a;
    TrimAround(after, json, []);
    assert after + json + [] == b;
  }

  /** An answer that is only the delimiter yields empty text and empty JSON. */
  lemma DelimiterAlone()
    ensures ParseResponse(Delimiter) == ParsedResponse("", Some(""))
  {
    SplitsAtFirstDelimiter("", "");
    assert "" + Delimiter + "" == Delimiter;
  }

  /** A typical answer: text, a blank line, the delimiter, the JSON on the next line. */
  lemma TypicalAnswer()
    ensures ParseResponse("Hello!\n\n---a2ui---\n[{\"a\":1}]") == ParsedResponse("Hello!", Some("[{\"a\":1}]"))
  {
    var response := "Hello!\n\n---a2ui---\n[{\"a\":1}]";
    var text, json := "Hello!", "[{\"a\":1}]";
    assert response == text + "\n\n" + Delimiter + "\n" + json;
    assert ParseResponse(text + "\n\n" + Delimiter + "\n" + json) == ParsedResponse(text, Some(json)) by {
      assert !Contains(text, Delimiter) by {
        forall j: nat ensures !OccursAt(text, Delimiter, j) {}
      }
      ParseRecoversParts(text, "\n\n", "\n", json);
    }
  }
}
