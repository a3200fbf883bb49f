# decision-bot chat client, modelled in Dafny

This project models the client side of decision-bot, a small Next.js chat application. A user
either types a message, or opens the "Help Me Decide" form and lists 2 to `MAX_OPTIONS` (5)
options with an optional context. The form builds a fixed prompt that tells the model to pick
exactly one option. The model covers:

- the transcript and its loading flag (`sendMessageToApi` in `src/utils/api.ts`). A send
  appends the message and a `loading` placeholder, then removes every `loading` entry and
  appends either the model's reply or an `error` entry with the error text that the code picks;
- the decision form (`DecisionForm.tsx`): the submit guard, the prompt text built from options
  and context, the option update, the reply or error it appends, and the reset after a
  submission;
- the chat input (`ChatInput.tsx`): the guard on a blank prompt or a request in flight, sending
  the prompt as typed with role `user`, and clearing the input afterwards;
- the page state (`page.tsx`): the initial state, the effect that resets the options when their
  count changes, the decision-mode toggle that is disabled while loading, and the empty-transcript
  hint.

Files:

- `types.dfy` has `Message`, `Role`, `Option` and `MAX_OPTIONS`.
- `strings.dfy` has ECMAScript `String.prototype.trim` over an explicit whitespace set, decimal
  formatting of numbers, `Array.prototype.join`, and substring lemmas.
- `api.dfy` has the `Conversation` class: the React `messages`/`isLoading` state pair and
  `sendMessageToApi`.
- `page.dfy` has the `Home` class: the rest of the page state.
- `decision_form.dfy` and `chat_input.dfy` have the two forms' handlers, as methods that take the `Home`
  state.

Each handler is split at its `await fetch(...)`. The later `res.json()` is part of the outcome,
as `Body.Json` or `Body.Malformed`. The network result is a parameter of type `Api.Outcome`:

- `FetchFailed(message)`: `fetch` threw.
- `Response(status, statusText, body)`: a response arrived. Its body is either JSON with a
  `response` field and an optional `error` field, or `Malformed` (it did not parse).

`Date.now()` becomes parameters: `now` and `later` for the two clock readings that give the
message and its placeholder their ids, and `replyId` for the reply.

Points of the code that the model keeps as they are:

- Removing the placeholder drops every entry whose role is `loading`, however many there are
  (`Api.RemoveLoading`).
- The decision form does not go through `sendMessageToApi`. It appends no prompt message and no
  placeholder, only the reply. A status that is not ok becomes the fixed text "Failed to get
  decision"; any other failure becomes the thrown message as it is, even when it is empty.
- The error text for a response that is not ok is the body's `error` field if that is non-empty.
  Otherwise it is "API request failed: <statusText> (<status>)". A body that does not parse gives
  "Failed to parse error response.". The client tells errors apart only by these texts.

## Model

| member | source | states |
|---|---|---|
| Api.Conversation.constructor | src/app/page.tsx:13-14 | the transcript starts empty and nothing is loading |
| Api.Conversation.BeginSend | src/utils/api.ts:9-12 | sets the loading flag and appends the message, with the first clock reading as id, then a `loading` placeholder with content "..." and id one more than the second clock reading, in one update |
| Api.Conversation.SettleSend | src/utils/api.ts:14-43 | afterwards the flag is clear, no `loading` entry is left, and the transcript is the earlier non-`loading` entries plus exactly one reply. A response that is not ok, or an ok body that does not parse, is filtered twice (lines 21 and 34); a failed fetch is filtered once (line 34) |
| Api.Conversation.SendMessageToApi | src/utils/api.ts:3-44 | a whole send: the flag ends clear, and the transcript is `Settled(Started(old, ...))` with no `loading` entry |
| Api.NotOkErrorText | src/utils/api.ts:23-26 | the error text for a response that is not ok is never empty; a non-empty `error` field is the text itself, and a body that does not parse yields "Failed to parse error response." |
| Api.IsOk | src/utils/api.ts:23 | `res.ok`: a status in 200..299; `Api.Reply` and `DecisionForm.DecisionReply` give a `model` entry only on such a status |
| Api.StatusLineReadsBack | src/utils/api.ts:25 | with no non-empty error field, whatever the `response` field, the text is "API request failed: ", then the status text, " (", the status's decimal text `Strings.NatToDecimal` (non-empty, no leading zero, reading back to the status), and ")" |
| Api.ErrorContent | src/utils/api.ts:35-39 | the caught message if it is non-empty, otherwise "An unexpected error occurred." |
| Api.Reply | src/utils/api.ts:23-40 | the reply has role `model` exactly when the status is 2xx and the body parsed, and then carries the `response` text. Otherwise it is an `error` entry with non-empty content: the thrown message, or "An unexpected error occurred." when that is empty, for a failed fetch or an unparsable ok body. Its id is the given one |
| Api.NotOkReplyCarriesErrorText | src/utils/api.ts:23-26 | for a status that is not ok, the error entry's content is exactly the chosen error text |
| Api.RemoveLoading | src/utils/api.ts:21 | the result has no `loading` entry, and a message is in it exactly when it was in the input with another role |
| Api.RemoveLoadingConcat | src/utils/api.ts:21 | filtering distributes over concatenation |
| Api.RemoveLoadingSingle | src/utils/api.ts:21 | a single entry survives exactly when its role is not `loading` |
| Api.RemoveLoadingKeeps | src/utils/api.ts:34 | filtering a transcript that has no `loading` entry changes nothing, so the second filter, after a response that is not ok or does not parse, removes nothing more |
| Api.RemoveLoadingIdempotent | src/utils/api.ts:21 | filtering twice is filtering once |
| Api.Started | src/utils/api.ts:10-12 | the transcript after the start of a send: the old entries, the message, then the placeholder; `Api.SubmissionTranscript` states what remains of it once the send settles |
| Api.Settled | src/utils/api.ts:21-40 | the transcript after a send settles; `Api.SettledShape` states it has no `loading` entry, ends with the reply and keeps the earlier non-`loading` entries in order |
| Api.SettledShape | src/utils/api.ts:21-40 | a settled transcript has no `loading` entry, ends with the reply, and before it holds the earlier non-`loading` entries in order |
| Api.SubmissionTranscript | src/utils/api.ts:9-43 | a whole send leaves the earlier non-`loading` entries, then the sent message (unless sent with role `loading`), then the reply |
| Strings.TrimStartSpec | src/components/chat/ChatInput.tsx:22 | the start-trimmed string is a suffix of the input, drops only whitespace, and starts with a non-whitespace character |
| Strings.TrimEndSpec | src/components/chat/ChatInput.tsx:22 | the end-trimmed string is a prefix of the input, drops only whitespace, and ends with a non-whitespace character |
| Strings.Trim | src/components/chat/ChatInput.tsx:22 | `String.prototype.trim`; `Strings.TrimIsCore` states it is the infix with only whitespace around it and non-whitespace ends, `Strings.TrimIdempotent` that it is idempotent |
| Strings.IsBlank | src/components/chat/ChatInput.tsx:22 | `!s.trim()`; `Strings.BlankIff` states it holds exactly when every character is whitespace |
| Strings.TrimIsCore | src/components/decision/DecisionForm.tsx:46 | `trim` returns the infix of the input that has only whitespace around it and non-whitespace at both of its ends |
| Strings.BlankIff | src/components/chat/ChatInput.tsx:22 | a string trims to "" exactly when all its characters are whitespace |
| Strings.TrimIdempotent | src/components/decision/DecisionForm.tsx:48 | trimming twice is trimming once |
| Strings.NatToDecimal | src/utils/api.ts:25 | the decimal text of a number is a non-empty run of digits with no leading zero: it starts with '0' only when it is "0" |
| Strings.DecimalRoundTrip | src/utils/api.ts:25 | reading the decimal text back gives the number |
| Strings.Join | src/components/decision/DecisionForm.tsx:46 | `Array.prototype.join`; `Strings.JoinContains`, `Strings.JoinSeparatorAt` and `Strings.JoinPrefix` state where each part and each separator lies |
| Strings.JoinContains | src/components/decision/DecisionForm.tsx:46 | each joined part appears at its offset, and the next one starts after it and the separator |
| Strings.JoinPrefix | src/components/decision/DecisionForm.tsx:46 | joining a prefix of the parts gives a prefix of the joined string |
| Strings.JoinSeparatorAt | src/components/decision/DecisionForm.tsx:46 | between neighbouring parts the join holds exactly the separator |
| Page.EmptyOptions | src/app/page.tsx:20 | `Array(n).fill('')` has n entries, all empty |
| Page.ShowsEmptyHint | src/app/page.tsx:44 | the condition for the empty-state hint; `Page.Home.constructor` states it holds initially and `Page.HintHiddenAfterSettle` that it fails once a send has settled |
| Page.HintHiddenAfterSettle | src/app/page.tsx:44 | once any send has settled, the transcript is non-empty and the empty-state hint is hidden |
| Page.Home.constructor | src/app/page.tsx:12-21 | the initial state: empty prompt and transcript, not loading, deciding mode off, 2 options both empty, empty context, with the hint shown |
| Page.Home.SetNumberOfOptions | src/app/page.tsx:28-30 | sets the count. The effect resets the options to n empty strings only when the count actually changed. Everything else is unchanged |
| Page.Home.ToggleDecidingMode | src/app/page.tsx:74-76 | the toggle acts exactly when nothing is loading, and then flips deciding mode. Nothing else changes |
| DecisionForm.UpdateOption | src/components/decision/DecisionForm.tsx:30-36 | a copy with entry `index` replaced by the new value and every other entry kept |
| DecisionForm.HandleOptionChange | src/components/decision/DecisionForm.tsx:30-36 | the options become `UpdateOption(old options, index, value)`, and the count, context, mode and prompt are kept |
| DecisionForm.OptionCountChoices | src/components/decision/DecisionForm.tsx:116-120 | the select offers `MAX_OPTIONS - 1` counts in increasing order, exactly the values 2..`MAX_OPTIONS` |
| DecisionForm.AnyBlank | src/components/decision/DecisionForm.tsx:40 | `decisionOptions.some(opt => !opt.trim())`; `DecisionForm.SubmitEnabledIff` states it fails exactly when every option has a non-whitespace character |
| DecisionForm.SubmitDisabled | src/components/decision/DecisionForm.tsx:173 | the condition that disables the submit button and makes `handleSubmit` return early (line 40); `DecisionForm.SubmitEnabledIff` and `DecisionForm.ResetFormDisabled` state when it holds |
| DecisionForm.SubmitEnabledIff | src/components/decision/DecisionForm.tsx:40 | submission proceeds exactly when nothing is loading and every option has a character that is not whitespace |
| DecisionForm.ResetFormDisabled | src/components/decision/DecisionForm.tsx:95-97 | the reset form, with every option empty, cannot be submitted |
| DecisionForm.DecisionPrompt | src/components/decision/DecisionForm.tsx:42-56 | the prompt text; `DecisionForm.PartAt`, `PromptStatesCount`, `PromptDemandsChoice`, `OptionListed`, `OptionsNewlineSeparated`, `ContextSectionIff`, `ContextVerbatim`, `PromptEndsWithInstructions` and `InstructionsIncluded` state its layout |
| DecisionForm.OptionLine | src/components/decision/DecisionForm.tsx:46 | one option's line, its 1-based number, ". " and the trimmed option; `DecisionForm.ExampleLines` shows two, and `DecisionForm.OptionListed` places each in the prompt |
| DecisionForm.OptionLines | src/components/decision/DecisionForm.tsx:46 | the option lines in input order; `DecisionForm.OptionListed` and `DecisionForm.OptionsNewlineSeparated` state that they appear in the prompt in order, one '\n' apart |
| DecisionForm.ContextSection | src/components/decision/DecisionForm.tsx:48 | the optional context block; `DecisionForm.ContextSectionIff` states it is empty exactly when the context is blank, and `DecisionForm.ContextVerbatim` that it otherwise holds the trimmed context under its heading |
| DecisionForm.PartAt | src/components/decision/DecisionForm.tsx:42-56 | each fixed or computed section of the prompt sits at its offset, and the next section follows it directly |
| DecisionForm.PromptStatesCount | src/components/decision/DecisionForm.tsx:43 | the prompt opens with "I need you to make a decisive choice between ", followed by the option count in decimal |
| DecisionForm.PromptDemandsChoice | src/components/decision/DecisionForm.tsx:43 | right after the count comes " options. You MUST choose one option, ..." |
| DecisionForm.OptionListed | src/components/decision/DecisionForm.tsx:46 | option i appears as "i+1. " followed by the trimmed option, and the next option's line starts one character after it: the options come in order |
| DecisionForm.OptionsNewlineSeparated | src/components/decision/DecisionForm.tsx:46 | the one character between the line of option i and the next option's line is '\n' |
| DecisionForm.PromptLength | src/components/decision/DecisionForm.tsx:42-56 | the prompt is as long as the text before the context, the context section, a blank line and the instructions |
| DecisionForm.ContextOffsetFixed | src/components/decision/DecisionForm.tsx:42-47 | the text before the context section does not depend on the context |
| DecisionForm.ContextSectionIff | src/components/decision/DecisionForm.tsx:48 | the prompt equals the prompt without context exactly when the context is blank |
| DecisionForm.ContextVerbatim | src/components/decision/DecisionForm.tsx:48 | a non-blank context appears trimmed under "\nAdditional Context:\n", two characters after the option list |
| DecisionForm.InstructionLayout | src/components/decision/DecisionForm.tsx:50-55 | each of the five instruction lines sits at its place under "Instructions:" |
| DecisionForm.ChooseInstructionAt | src/components/decision/DecisionForm.tsx:52 | rule 2 holds the text `Start your response with "I choose Option X"` |
| DecisionForm.PromptEndsWithInstructions | src/components/decision/DecisionForm.tsx:50-56 | every prompt ends with the fixed instruction block |
| DecisionForm.InstructionsIncluded | src/components/decision/DecisionForm.tsx:52 | every prompt contains the "I choose Option X" rule |
| DecisionForm.ExampleLines | src/components/decision/DecisionForm.tsx:46 | "Pizza" and "Sushi" become the lines "1. Pizza" and "2. Sushi" |
| DecisionForm.PizzaOrSushi | src/components/decision/DecisionForm.tsx:42-56 | the prompt for Pizza or Sushi lists both, carries the choose rule, and is the same when the context is only blanks |
| DecisionForm.DecisionReply | src/components/decision/DecisionForm.tsx:70-90 | the entry appended after a decision is `model` exactly on a 2xx parsed response, with its text. On a status that is not ok it is `error` with "Failed to get decision". On a failed fetch or an unparsable ok body it is `error` with the thrown message, unchanged |
| DecisionForm.BeginDecision | src/components/decision/DecisionForm.tsx:38-58 | a prompt is sent exactly when the guard passes. It is then the built prompt, the flag is set and the transcript is untouched. Otherwise nothing changes |
| DecisionForm.SettleDecision | src/components/decision/DecisionForm.tsx:59-97 | appends exactly the decision reply, clears the flag, closes deciding mode, and resets the options to the current count of empty strings and the context to "" |
| DecisionForm.HandleSubmit | src/components/decision/DecisionForm.tsx:38-98 | the whole handler: nothing changes when the guard fails. Otherwise the built prompt is sent, one reply is appended and the form is reset |
| DecisionForm.Cancel | src/components/decision/DecisionForm.tsx:163-166 | cancel acts exactly when nothing is loading, and then closes deciding mode. The options, count, context and prompt are kept |
| ChatInput.SendDisabled | src/components/chat/ChatInput.tsx:22 | the early-return guard, also the button's `disabled` at line 39; `ChatInput.WhitespacePromptNotSent` and `ChatInput.VisiblePromptSent` state when it holds, and `ChatInput.HandleSubmit` sends exactly when it fails |
| ChatInput.WhitespacePromptNotSent | src/components/chat/ChatInput.tsx:22 | a prompt made only of whitespace is never sent |
| ChatInput.VisiblePromptSent | src/components/chat/ChatInput.tsx:39 | with a non-whitespace character in the prompt, the button is disabled exactly when a request is in flight |
| ChatInput.HandleSubmit | src/components/chat/ChatInput.tsx:20-25 | sends exactly when the prompt is not blank and nothing is loading. It then sends the untrimmed prompt as `user` and clears the input. Otherwise nothing changes. The decision form state is kept |

## Left out

- `src/app/api/chat/route.ts`, the server relay and the model call, is not part of this model. The client sees only its result, as `Api.Outcome`.
- HTTP and `fetch` are an abstract `Outcome` parameter. Headers, the JSON request body and the transport are not modelled.
- A JSON body without a `response` field would make the content `undefined`. The model always has a string.
- A non-string `error` field is not modelled: the field is an optional string.
- A thrown value that is not an `Error` is not modelled. So the fallback "An unexpected error occurred." in the decision catch cannot occur in the model, and the one in `sendMessageToApi` occurs only for an empty message.
- Async interleaving: each handler runs its two halves with nothing else in between. A second submission that overlaps the first is not modelled.
- `Date.now()` is not modelled: every clock reading is a parameter, so the ids' uniqueness and monotonicity, and the order of the two readings at the start of a send, are not stated.
- Rendering, `scrollIntoView`, CSS and `console.error` are not modelled. Of the rendering, only the button enablement and the empty-state hint are modelled, as predicates.
- The `onChange` setters for the chat prompt and the decision context are plain assignments and have no method.
- The `disabled={isLoading}` on the option-count select, the option textareas and the context field is not modelled: `Page.Home.SetNumberOfOptions` and `DecisionForm.HandleOptionChange` can be called while loading.
- `MessageBubble.tsx` and `layout.tsx` only present data and are not part of this model.
- `Page.Home.SetNumberOfOptions`: requires the count to lie in 2..`MAX_OPTIONS`, which the select guarantees. `Number(e.target.value)` of another string is not modelled.
