/** The career agent service: the two calls the site makes to the generative
    language service, with the upstream client abstracted to its observable
    outcomes. What is modelled is what the service does with those outcomes:
    which text it returns or yields, and which failures become fallback text. */
module AgentService {
  import opened Text

  datatype Option<T> = None | Some(value: T)

  /** Whether constructing the client (`getAI()`) succeeds. It runs before the
      `try` of both calls, so a failure here is not turned into fallback text. */
  datatype ClientSetup = ClientReady | ClientThrows

  /** Outcome of the single-shot generate call: it throws, or it returns a
      response whose `text` may be absent. */
  datatype GenerateOutcome = GenerateThrows | Generated(text: Option<string>)

  /** What the `askAgent` promise settles to. */
  datatype Reply = Resolved(answer: string) | Rejected

  /** The upstream stream as the service sees it: the chunks delivered, each
      with a possibly absent `text`, and then either normal completion or a
      throw (from opening the stream when no chunk came, or from iterating it). */
  datatype StreamEnding = Completes | Throws
  datatype UpstreamStream = UpstreamStream(chunks: seq<Option<string>>, ending: StreamEnding)

  /** How the `askAgentStream` generator finishes after its last yield. */
  datatype Termination = Returns | Raises
  datatype Yielded = Yielded(fragments: seq<string>, termination: Termination)

  const NoResponseReply: string :=
    "I couldn't generate a response. Please try asking about my Micro-frontend experience!"
  const InterruptedReply: string :=
    "The connection to Swapnil's Career Agent was interrupted. Please check your network."
  const UnstableFragment: string :=
    "Communication link unstable. Please retry."

  /** `askAgent`: the upstream text when there is some, one fixed reply when it
      is empty or absent, another when the generate call throws; a failure to
      build the client escapes as a rejected promise. */
  function AskAgent(setup: ClientSetup, outcome: GenerateOutcome): (r: Reply)
    ensures r.Rejected? <==> setup == ClientThrows
    ensures (setup == ClientReady && outcome.Generated? && outcome.text.Some? && outcome.text.value != "")
              ==> r == Resolved(outcome.text.value)
    ensures (setup == ClientReady && outcome.Generated? && (outcome.text.None? || outcome.text.value == ""))
              ==> r == Resolved(NoResponseReply)
    ensures setup == ClientReady && outcome.GenerateThrows? ==> r == Resolved(InterruptedReply)
  {
    match setup
    case ClientThrows => Rejected
    case ClientReady =>
      match outcome
      case GenerateThrows => Resolved(InterruptedReply)
      case Generated(text) =>
        if text.Some? && text.value != "" then Resolved(text.value) else Resolved(NoResponseReply)
  }

  /** A resolved `askAgent` reply is never the empty string, and when it differs
      from the upstream text it is one of the two fixed replies. */
  lemma AskAgentNeverEmpty(setup: ClientSetup, outcome: GenerateOutcome)
    ensures AskAgent(setup, outcome).Resolved? ==> AskAgent(setup, outcome).answer != ""
    ensures (AskAgent(setup, outcome).Resolved? && !(outcome.Generated? && outcome.text == Some(AskAgent(setup, outcome).answer)))
              ==> AskAgent(setup, outcome).answer in {NoResponseReply, InterruptedReply}
  {
  }

  /** `chunk.text || ""`: an absent text becomes "", a present one (empty or not)
      is passed on unchanged. */
  function ChunkText(chunk: Option<string>): (r: string)
    ensures chunk.Some? ==> r == chunk.value
    ensures chunk.None? ==> r == ""
  {
    match chunk
    case Some(t) => if t != "" then t else ""
    case None => ""
  }

  /** The fragments yielded for a run of delivered chunks: one per chunk, in order. */
  function ChunkTexts(chunks: seq<Option<string>>): (r: seq<string>)
    ensures |r| == |chunks|
    ensures forall i :: 0 <= i < |chunks| ==> r[i] == ChunkText(chunks[i])
  {
    if chunks == [] then [] else ChunkTexts(chunks[..|chunks| - 1]) + [ChunkText(chunks[|chunks| - 1])]
  }

  /** Everything the `askAgentStream` generator yields for one upstream stream,
      and how it ends. */
  function StreamYield(setup: ClientSetup, upstream: UpstreamStream): (y: Yielded)
    ensures setup == ClientThrows ==> y == Yielded([], Raises)
    ensures setup == ClientReady ==> y.termination == Returns
    ensures setup == ClientReady && upstream.ending == Completes ==> y.fragments == ChunkTexts(upstream.chunks)
    ensures (setup == ClientReady && upstream.ending == Throws)
              ==> y.fragments == ChunkTexts(upstream.chunks) + [UnstableFragment]
  {
    match setup
    case ClientThrows => Yielded([], Raises)
    case ClientReady =>
      var fallback := if upstream.ending == Throws then [UnstableFragment] else [];
      Yielded(ChunkTexts(upstream.chunks) + fallback, Returns)
  }

  /** The generator run to exhaustion: a loop over the delivered chunks that yields
      the text of each, then one fallback fragment if the upstream threw. */
  method AskAgentStream(setup: ClientSetup, upstream: UpstreamStream) returns (y: Yielded)
    ensures y == StreamYield(setup, upstream)
  {
    if setup == ClientThrows {
      return Yielded([], Raises);
    }
    var out: seq<string> := [];
    var i := 0;
    while i < |upstream.chunks|
      invariant i <= |upstream.chunks|
      invariant |out| == i
      invariant forall k :: 0 <= k < i ==> out[k] == ChunkText(upstream.chunks[k])
    {
      out := out + [ChunkText(upstream.chunks[i])];
      i := i + 1;
    }
    if upstream.ending == Throws {
      out := out + [UnstableFragment];
    }
    y := Yielded(out, Returns);
  }

  /** The text a consumer accumulates from the stream: the delivered chunk texts
      in order, followed by the fallback fragment when the upstream failed after
      those chunks. */
  lemma StreamConcat(upstream: UpstreamStream)
    ensures Concat(StreamYield(ClientReady, upstream).fragments)
            == Concat(ChunkTexts(upstream.chunks)) + (if upstream.ending == Throws then UnstableFragment else "")
  {
    var texts := ChunkTexts(upstream.chunks);
    if upstream.ending == Throws {
      ConcatAppend(texts, [UnstableFragment]);
      assert Concat([UnstableFragment]) == Concat([]) + UnstableFragment;
    }
  }
}
