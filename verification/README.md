# Career agent chat and skills filter — a Dafny model

This project models the parts of a personal portfolio site that have
behaviour. The rest of the site is view markup.

- **The chat panel's session** (`components/ChatBot.tsx`). It holds a
  transcript seeded with one agent greeting, the input box, an `isTyping`
  flag and an `isOpen` flag. A send is refused when the text is blank after
  `trim` or when a reply is already streaming. An accepted send appends the
  user's message and an empty agent placeholder, clears the input and sets
  `isTyping`. Each streamed fragment is added to an accumulator
  (`fullResponse`), and the accumulator overwrites the last message. The
  `finally` clause clears `isTyping` whether the stream ends normally or
  throws. The session is the class `ChatBot.Chat`. Its methods are the
  handlers, and the asynchronous loop runs as discrete steps
  (`ReceiveChunk`, `EndStream`, `FailStream`, composed in `ConsumeStream`
  and `RunExchange`).
- **The agent service's fallback logic** (`services/geminiService.ts`). The
  upstream client is abstracted to its observable outcomes:
  - whether building the client (`getAI()`) throws;
  - for `askAgent`, whether the generate call throws or returns a possibly
    absent text;
  - for `askAgentStream`, the chunks delivered (each with a possibly absent
    text), followed by normal completion or a throw.

  The model states which text is returned or yielded in each case.
  `AskAgentStream` is the generator run to exhaustion, written as a loop.
- **The skills category filter** (`App.tsx`). The selection starts at
  `"All"`. `"All"` shows every skill, and any other selection shows the
  skills of that category in their original order.

Module layout: `Text` (JavaScript `trim` and the accumulation of fragments),
`AgentService`, `ChatBot`, `Skills`.

Two behaviours of the code that the model states as written:

- After a stream failure, the last transcript entry is the text delivered
  before the failure followed by "Communication link unstable. Please
  retry.". The generator yields the fallback fragment after the chunks it had
  already yielded, and the session appends it to the accumulated text. The
  entry is the fallback alone only when no chunk text was delivered, for
  example when opening the stream throws (services/geminiService.ts:55,
  67-69). `RunExchange` and `StreamConcat` state this.
- Not every failure becomes fallback text. `getAI()`
  (services/geminiService.ts:6-13) is called at services/geminiService.ts:16
  and 46, before the `try` of both calls. If building the client throws,
  `askAgent`'s promise rejects and `askAgentStream` raises before yielding
  anything. The session's own `catch` (components/ChatBot.tsx:64-65) then
  swallows the error, so the agent placeholder stays `""`. Whether the
  client constructor throws for a missing key is up to the client library,
  so the model takes it as an input (`ClientSetup`).

## Model

| member | source | states |
|---|---|---|
| Text.FirstNonWhitespace | components/ChatBot.tsx:42 | The leading-whitespace run found by `trim`: every character before the returned position is whitespace, and the character at it is not (or the text has ended). |
| Text.EndOfNonWhitespace | components/ChatBot.tsx:42 | The trailing-whitespace run found by `trim`: every character from the returned position on is whitespace, and the one before it is not (or the leading run has been reached). |
| Text.TrimIsSlice | components/ChatBot.tsx:42 | `text.trim()` is the slice of the text between a leading and a trailing run of whitespace. The slice neither starts nor ends with whitespace. |
| Text.BlankIffAllWhitespace | components/ChatBot.tsx:42 | `!text.trim()` holds exactly when every character of the text is JavaScript whitespace, in both directions. |
| Text.NotBlankAt | components/ChatBot.tsx:42 | A text containing one non-whitespace character passes the blank-input guard. |
| Text.ConcatAppend | components/ChatBot.tsx:51-55 | Accumulating fragments with `fullResponse += chunk` over two runs gives the two accumulations joined. |
| Text.ConcatStep | components/ChatBot.tsx:55 | Each fragment extends the accumulated text by exactly that fragment. |
| Text.ConcatPrefix | components/ChatBot.tsx:51-62 | The text accumulated after any number of fragments is a prefix of the final text. |
| Text.PartialsArePrefixes | components/ChatBot.tsx:51-62 | Every text shown after a fragment is a prefix of the final reply. |
| AgentService.AskAgent | services/geminiService.ts:15-43 | Four cases. If building the client throws, the promise rejects. A non-empty upstream text is returned unchanged. An empty or absent text gives "I couldn't generate a response. Please try asking about my Micro-frontend experience!". A throwing generate call gives "The connection to Swapnil's Career Agent was interrupted. Please check your network.". |
| AgentService.AskAgentNeverEmpty | services/geminiService.ts:38-41 | A resolved `askAgent` reply is never "". When it is not the upstream text, it is one of the two fixed replies. |
| AgentService.ChunkText | services/geminiService.ts:65 | `chunk.text \|\| ""` passes a present text on unchanged, "" included, and maps an absent text to "". |
| AgentService.ChunkTexts | services/geminiService.ts:64-66 | Exactly one fragment per delivered chunk, in order, each the chunk's normalised text. |
| AgentService.StreamYield | services/geminiService.ts:45-71 | Three cases. If building the client throws, the generator yields nothing and raises. After normal completion it yields the chunk texts. After an upstream throw (opening or iterating) it yields the chunk texts, then exactly one "Communication link unstable. Please retry.", then returns normally. |
| AgentService.AskAgentStream | services/geminiService.ts:45-71 | The generator's loop, run to exhaustion, yields exactly the fragments and termination that `StreamYield` describes. |
| AgentService.StreamConcat | services/geminiService.ts:64-69 | Suppose the stream fails after k delivered chunks. The concatenated output is then the k chunk texts followed by the fallback fragment. Without a failure it is just the chunk texts. |
| ChatBot.SetLast | components/ChatBot.tsx:56-62 | The per-fragment updater keeps the transcript's length and every entry but the last, and replaces the last one (when there is one). |
| ChatBot.Displayed | components/ChatBot.tsx:106-110 | A non-empty message shows its content. An empty message shows "..." exactly when it is the last entry, it is an agent entry and a reply is streaming. Otherwise an empty message shows "". |
| ChatBot.IdleShowsContent | components/ChatBot.tsx:109-111 | While no reply streams, every entry shows exactly its content and no typing indicator is shown. |
| ChatBot.SuggestedPromptsNotBlank | components/ChatBot.tsx:11-16 | None of the four suggested prompts is blank after `trim`. |
| ChatBot.Chat.constructor | components/ChatBot.tsx:19-24 | Initially the transcript is exactly the one agent greeting, the input is empty, no reply is streaming and the panel is closed. |
| ChatBot.Chat.Open | components/ChatBot.tsx:36 | The "open the career agent" event sets `isOpen`. |
| ChatBot.Chat.Close | components/ChatBot.tsx:89 | The header's close button clears `isOpen`. |
| ChatBot.Chat.SetInput | components/ChatBot.tsx:140 | Typing replaces the input text. |
| ChatBot.Chat.Send | components/ChatBot.tsx:41-49 | A send is accepted exactly when the text is not blank and no reply is streaming. An accepted send appends the user message with the untrimmed text and then an agent message with "". It also clears the input, sets `isTyping` and resets the accumulator. The new placeholder then displays "...". A refused send changes nothing, whatever the text. |
| ChatBot.Chat.SubmitInput | components/ChatBot.tsx:141-146 | Enter or the send button, which exist only while the panel is open, is a send of the current input, with the same guard and effect. A refused submit leaves the transcript, input, `isTyping` and accumulator unchanged. |
| ChatBot.Chat.ChooseSuggestion | components/ChatBot.tsx:129 | A suggested prompt, whose buttons exist only while the panel is open, is a send of that prompt whatever the input holds. It is refused only while a reply streams, and then the transcript, input, `isTyping` and accumulator are unchanged. When accepted it clears the input. |
| ChatBot.Chat.ReceiveChunk | components/ChatBot.tsx:55-62 | The accumulator becomes the old accumulator plus the fragment. The transcript becomes `SetLast` of the old one with an agent message holding the accumulator, so nothing is appended. |
| ChatBot.Chat.EndStream | components/ChatBot.tsx:66-67 | Normal end of the stream: `isTyping` returns to false and the transcript is kept. |
| ChatBot.Chat.FailStream | components/ChatBot.tsx:64-67 | A thrown stream: `isTyping` returns to false. The last entry keeps whatever had accumulated, possibly "". |
| ChatBot.Chat.ConsumeStream | components/ChatBot.tsx:51-63 | After fragments c1..cn, the last entry's content equals c1+…+cn. The entry after fragment k holds c1+…+ck, and no entry is appended. |
| ChatBot.Chat.RunExchange | components/ChatBot.tsx:41-69 | A whole send fed by the agent service. When accepted, the transcript grows by exactly the user message and one agent message. The agent message holds the concatenation of everything the service yielded, which is "" when building the client throws. `isTyping` ends false. The render of the last entry after the k-th yielded fragment is exactly the first k fragments joined, and so a prefix of the final text. When refused, nothing changes, the accumulator included. |
| Skills.FilterByCategory | App.tsx:152 | `filter` returns only skills of the selected category, and each skill of that category as often as it occurs. The result is never longer than the input. |
| Skills.FilteredSkills | App.tsx:150-152 | `"All"` yields the skills list unchanged. Any other selection yields exactly the skills of that category, counted with multiplicity. |
| Skills.InitialSelectionShowsAll | App.tsx:108-152 | The initial selection `"All"` shows the whole list, and no selection shows more skills than exist. |
| Skills.SelectionSoundAndComplete | App.tsx:152 | For a selection other than `"All"`, every shown skill has that category and every skill of that category is shown. |
| Skills.FilterAppend | App.tsx:152 | Filtering preserves input order: filtering a concatenation is the concatenation of the filtered parts. |
| Skills.FilterSingle | App.tsx:152 | A single skill is kept exactly when its category is the selection. |
| Skills.ToolsOnlyUnderAll | App.tsx:149-152 | No category button is `"Tools"`, although `types.ts:30` allows that category. So a `"Tools"` skill is shown only under `"All"`. |

## Left out

- The generative-language client and network calls (services/geminiService.ts:12, 29-36, 55-62). These are a foreign library; the model takes only their outcomes as inputs.
- The system-instruction text and `JSON.stringify` of the resume data (services/geminiService.ts:17-26, 47-52). The serialiser is a library routine, and the instructions are constant text.
- Model identifiers and sampling temperatures (services/geminiService.ts:30, 34, 56, 60). They are passed through to the service unchanged.
- `console.warn` / `console.error` logging. It has no effect on the returned or displayed text.
- React scheduling. Each handler is modelled as one atomic step, so the model does not capture three things:
  - two sends in one render, where both see the stale `isTyping === false`;
  - batching of the per-fragment state updates;
  - the updater closures reading `fullResponse` after it has grown further.
- Abandoning a stream when the panel unmounts. The source has no cancellation, and unmounting is view lifecycle.
- Markdown rendering, `scrollIntoView` and all markup (components/ChatBot.tsx:27-33, 71-172). They are presentation only. The typing-dots indicator is only a predicate (`ShowsTypingDots`) with no contract of its own.
- The window `CustomEvent` bus (App.tsx:155; components/Layout.tsx:76; components/ChatBot.tsx:35-39). It appears only as `Chat.Open`.
- The hero image generation (App.tsx:112-147), the canvas background, the SVG art and the section markup of App.tsx. They are network plumbing or drawing.
- components/Layout.tsx. It is scroll listening over floating-point DOM geometry.
- data/resumeData.ts is static data and is not part of this model. Only the shape of a skill (types.ts:27-31) and its category names are used.
- The skill `level` (0–100). It is carried as an unconstrained integer because nothing in the filter reads it.
- The suggested-prompt buttons' rendering, and the send button's `disabled={isTyping}` (components/ChatBot.tsx:148). The button adds nothing beyond the guard that every send passes through.
- Strings are sequences of Unicode scalar values, whereas JavaScript strings are sequences of UTF-16 code units, so a lone surrogate cannot be represented. No stated property depends on this: every character `trim` removes lies in the Basic Multilingual Plane, and the model only joins and compares strings.
- `Send` and `RunExchange` do not require the panel to be open. They stand for `handleSend`, which is reached only through `SubmitInput` and `ChooseSuggestion`, and those two do require it.
