/** The chat panel's session: a transcript seeded with one greeting, the input
    box, the "reply is streaming" flag and the open/closed flag. A send appends
    the user's message and an empty agent placeholder; every streamed fragment
    is added to an accumulator that overwrites the last message; the flag is
    cleared when the stream ends, normally or by an exception. */
module ChatBot {
  import opened Text
  import opened AgentService

  datatype Role = User | Agent
  datatype Message = Message(role: Role, content: string)

  const Greeting: Message :=
    Message(Agent, "Neural links established. I am Swapnil's Career Proxy. What data do you require?")

  const SuggestedPrompts: seq<string> := [
    "Summarize Swapnil's architectural impact",
    "Explain his Micro-frontend approach",
    "How does he handle legacy migrations?",
    "Draft a cover letter for a Lead UI role"
  ]

  /** The guard of a send: the text is not blank after trimming (all whitespace;
      `BlankIffAllWhitespace` shows this is `trim` yielding "") and no reply is
      streaming. */
  predicate AcceptsSend(text: string, isTyping: bool) {
    !AllWhitespace(text) && !isTyping
  }

  /** The state updater applied per fragment: a copy of the transcript whose last
      entry, if there is one, is replaced by `m`; the length never changes. */
  function SetLast(messages: seq<Message>, m: Message): (r: seq<Message>)
    ensures |r| == |messages|
    ensures forall i :: 0 <= i < |messages| - 1 ==> r[i] == messages[i]
    ensures |messages| > 0 ==> r[|r| - 1] == m
  {
    if |messages| > 0 then messages[..|messages| - 1] + [m] else messages
  }

  /** The text shown for entry `i`: a user entry shows its content; an agent
      entry shows its content, or "..." when it is empty, last and a reply is
      streaming, or nothing. */
  function Displayed(messages: seq<Message>, isTyping: bool, i: nat): (r: string)
    requires i < |messages|
    ensures messages[i].content != "" ==> r == messages[i].content
    ensures messages[i].content == "" ==>
              (r == "..." <==> (messages[i].role == Agent && isTyping && i == |messages| - 1))
    ensures messages[i].content == "" && r != "..." ==> r == ""
  {
    var m := messages[i];
    if m.role == Agent && m.content == "" then
      (if isTyping && i == |messages| - 1 then "..." else "")
    else m.content
  }

  /** The bouncing-dots indicator under entry `i`. */
  predicate ShowsTypingDots(messages: seq<Message>, isTyping: bool, i: nat)
    requires i < |messages|
  {
    isTyping && i == |messages| - 1 && messages[i].content == ""
  }

  /** Once no reply is streaming, every entry shows exactly its content and no
      entry shows the typing indicator. */
  lemma IdleShowsContent(messages: seq<Message>, i: nat)
    requires i < |messages|
    ensures Displayed(messages, false, i) == messages[i].content
    ensures !ShowsTypingDots(messages, false, i)
  {
  }

  class Chat {
    var messages: seq<Message>
    var input: string
    var isTyping: bool
    var isOpen: bool
    /** `fullResponse`: the text streamed so far for the reply in progress. */
    var acc: string

    /** The greeting is never overwritten, and while a reply streams the last
        entry is the agent entry holding the accumulated text. */
    ghost predicate Valid()
      reads this`messages, this`isTyping, this`acc
    {
      && |messages| >= 1
      && messages[0] == Greeting
      && (isTyping ==> |messages| >= 2 && messages[|messages| - 1] == Message(Agent, acc))
    }

    constructor ()
      ensures Valid()
      ensures messages == [Greeting] && input == "" && !isTyping && !isOpen && acc == ""
    {
      messages := [Greeting];
      input := "";
      isTyping := false;
      isOpen := false;
      acc := "";
    }

    /** The "open the career agent" event, or the launcher button. */
    method Open()
      modifies this`isOpen
      ensures isOpen
    {
      isOpen := true;
    }

    /** The close button in the panel header. */
    method Close()
      modifies this`isOpen
      ensures !isOpen
    {
      isOpen := false;
    }

    /** Typing into the input box. */
    method SetInput(text: string)
      modifies this`input
      ensures input == text
    {
      input := text;
    }

    /** The synchronous part of a send: when the guard holds, append the user
        entry with the text as given (untrimmed) and an empty agent placeholder,
        clear the input and start streaming; otherwise change nothing. */
    method Send(text: string) returns (accepted: bool)
      requires Valid()
      modifies this`messages, this`input, this`isTyping, this`acc
      ensures Valid()
      ensures accepted == AcceptsSend(text, old(isTyping))
      ensures accepted ==> messages == old(messages) + [Message(User, text), Message(Agent, "")]
      ensures accepted ==> input == "" && isTyping && acc == ""
      ensures accepted ==> Displayed(messages, isTyping, |messages| - 1) == "..."
      ensures !accepted ==> messages == old(messages) && input == old(input)
                            && isTyping == old(isTyping) && acc == old(acc)
    {
      accepted := AcceptsSend(text, isTyping);
      if !accepted {
        return;
      }
      messages := messages + [Message(User, text)];
      input := "";
      isTyping := true;
      messages := messages + [Message(Agent, "")];
      acc := "";
    }

    /** Enter in the input box or the send button: a send of the current input.
        Both exist only while the panel is open. */
    method SubmitInput() returns (accepted: bool)
      requires Valid() && isOpen
      modifies this`messages, this`input, this`isTyping, this`acc
      ensures Valid()
      ensures accepted == AcceptsSend(old(input), old(isTyping))
      ensures accepted ==> messages == old(messages) + [Message(User, old(input)), Message(Agent, "")]
      ensures accepted ==> input == "" && isTyping
      ensures !accepted ==> messages == old(messages) && input == old(input)
                            && isTyping == old(isTyping) && acc == old(acc)
    {
      accepted := Send(input);
    }

    /** A suggested-prompt button: a send of that prompt whatever the input
        holds; it is refused only while a reply streams, and it clears the input.
        The buttons exist only while the panel is open. */
    method ChooseSuggestion(i: nat) returns (accepted: bool)
      requires Valid() && isOpen
      requires i < |SuggestedPrompts|
      modifies this`messages, this`input, this`isTyping, this`acc
      ensures Valid()
      ensures accepted == !old(isTyping)
      ensures accepted ==> messages == old(messages) + [Message(User, SuggestedPrompts[i]), Message(Agent, "")]
      ensures accepted ==> input == "" && isTyping
      ensures !accepted ==> messages == old(messages) && input == old(input)
                            && isTyping == old(isTyping) && acc == old(acc)
    {
      SuggestedPromptsNotBlank(i);
      accepted := Send(SuggestedPrompts[i]);
    }

    /** One streamed fragment: the accumulator grows by the fragment and
        overwrites the last entry; nothing is appended. */
    method ReceiveChunk(chunk: string)
      requires Valid() && isTyping
      modifies this`messages, this`acc
      ensures Valid()
      ensures acc == old(acc) + chunk
      ensures messages == SetLast(old(messages), Message(Agent, acc))
    {
      acc := acc + chunk;
      messages := SetLast(messages, Message(Agent, acc));
    }

    /** The stream ended normally: streaming stops, the transcript stays. */
    method EndStream()
      requires Valid() && isTyping
      modifies this`isTyping
      ensures Valid()
      ensures !isTyping
    {
      isTyping := false;
    }

    /** The stream threw: the error is only logged, and the `finally` clause stops
        streaming; the last entry keeps what had accumulated, possibly "". */
    method FailStream()
      requires Valid() && isTyping
      modifies this`isTyping
      ensures Valid()
      ensures !isTyping
    {
      EndStream();
    }

    /** The `for await` loop of `handleSend` over the fragments of one reply:
        each is added to the accumulator, which overwrites the placeholder.
        `renders` holds the last entry's content after each fragment. */
    method ConsumeStream(fragments: seq<string>) returns (ghost renders: seq<string>)
      requires Valid() && isTyping && acc == ""
      modifies this`messages, this`acc
      ensures Valid() && isTyping
      ensures acc == Concat(fragments)
      ensures messages == SetLast(old(messages), Message(Agent, acc))
      ensures |renders| == |fragments|
      ensures forall k :: 0 <= k < |fragments| ==> renders[k] == Concat(fragments[..k + 1])
    {
      renders := [];
      var i := 0;
      while i < |fragments|
        invariant Valid() && isTyping
        invariant i <= |fragments|
        invariant acc == Concat(fragments[..i])
        invariant messages == SetLast(old(messages), Message(Agent, acc))
        invariant |renders| == i
        invariant forall k :: 0 <= k < i ==> renders[k] == Concat(fragments[..k + 1])
      {
        ConcatStep(fragments, i);
        ReceiveChunk(fragments[i]);
        renders := renders + [acc];
        i := i + 1;
      }
      assert fragments[..i] == fragments;
    }

    /** A whole `handleSend`: the send, then every fragment the agent service
        yields for `upstream`, then the end of the stream, normal or raised.
        `renders` holds the last entry's content after each fragment. */
    method RunExchange(text: string, setup: ClientSetup, upstream: UpstreamStream)
      returns (accepted: bool, ghost renders: seq<string>)
      requires Valid()
      modifies this`messages, this`input, this`isTyping, this`acc
      ensures Valid()
      ensures accepted == AcceptsSend(text, old(isTyping))
      ensures !accepted ==> messages == old(messages) && input == old(input)
                            && isTyping == old(isTyping) && acc == old(acc)
      ensures accepted ==> !isTyping && input == ""
      ensures accepted ==> messages == old(messages) + [Message(User, text), Message(Agent, acc)]
      ensures accepted ==> acc == Concat(StreamYield(setup, upstream).fragments)
      ensures (accepted && setup == ClientThrows) ==> acc == ""
      ensures accepted ==> |renders| == |StreamYield(setup, upstream).fragments|
      ensures accepted ==> forall k :: 0 <= k < |renders| ==> renders[k] == Concat(StreamYield(setup, upstream).fragments[..k + 1])
      ensures accepted ==> forall k :: 0 <= k < |renders| ==> renders[k] <= acc
    {
      renders := [];
      accepted := Send(text);
      if !accepted {
        return;
      }
      var y := AskAgentStream(setup, upstream);
      renders := ConsumeStream(y.fragments);
      if y.termination == Raises {
        FailStream();
      } else {
        EndStream();
      }
      PartialsArePrefixes(y.fragments, renders);
    }
  }

  /** None of the suggested prompts is blank, so choosing one is refused only
      while a reply streams. */
  lemma SuggestedPromptsNotBlank(i: nat)
    requires i < |SuggestedPrompts|
    ensures !IsBlank(SuggestedPrompts[i])
  {
    var p := SuggestedPrompts[i];
    assert p[0] in {'S', 'E', 'H', 'D'};
    NotBlankAt(p, 0);
  }
}
