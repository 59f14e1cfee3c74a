# Quiz front-end core, modelled in Dafny

This project models the decision logic of a small quiz web application for
grade-1 physical-education lessons. The application asks for a student's name,
requests five multiple-choice questions from a generative-AI backend, shows
them as cards and can read a question aloud. Three pieces are modelled:

- **The application shell** (`AppShell`, from `App.tsx`). It has five views:
  Idle, NameInput, Loading, Result and Error. It keeps four state cells: the
  view, the student name, the question list and the last error message. The
  class `AppShell.App` holds these cells as fields. Its methods are the
  handlers: start, edit name, generate and reset. The generate handler is
  split at its `await`. `BeginGenerate` is the synchronous guard and the
  switch to the loading view. `CompleteGenerate(outcome)` is the
  continuation, and it receives the fetch outcome as a parameter. The
  continuation updates the shell unconditionally, as the source does. So a
  completion that arrives after a reset still lands, and
  `StaleCompletionAfterReset` exhibits this.
- **The question card** (`QuestionCard`, from `components/QuestionCard.tsx`).
  It has a pure option classifier, `StatusOf`. It has three display helpers:
  the label letter, the stripping of a leading "A."/"B."/"C.", and the
  spoken utterance. The class `QuestionCard.Card` holds the card-local
  selection and speaking flag. Its click handler locks the selection once it
  is truthy. Its speak handler is guarded by the speaking flag. JavaScript
  truthiness is kept: a selected empty-string option counts as no selection.
- **The relay endpoint** (`Relay`, from `api/gemini.ts`). `Relay.Handler` is a
  pure function. It maps a request (HTTP method and parsed body) and the AI
  provider's outcome to the provider call it makes, if any, and to the status
  code and JSON body it writes.

`Types` holds the `Question` record and the `AppState` enumeration from
`types.ts`. `Text` models the JavaScript built-ins the core relies on:
`trim()`, the regular-expression class `\s`, and `Array.prototype.join`.

A few definitions carry no row of their own because the members in the
table state their meaning:
- `Text.IsWhitespace` is the set of characters that both `trim()` and `\s`
  recognise.
- `Text.JoinOffset` is where each element starts in a joined string.
- `QuestionCard.HasSelection` is the meaning of `!!selectedOption` on a
  `string | null` cell: a selection that is neither null nor the empty string
  (components/QuestionCard.tsx:30, 68, 69, 84).
- `QuestionCard.HasLabelPrefix` is the test `^[A-C]\.` made by the display
  (components/QuestionCard.tsx:78).
- `Relay.Property` is a JavaScript property read: a destructured field is the
  object's field. It is `undefined` when the object lacks the field or the
  body is not an object (api/gemini.ts:11).
- `Relay.PromptContents` is the `contents` argument that wraps the prompt as
  text (api/gemini.ts:25).

Three behaviours of the code that the model keeps:

- The relay rejects any falsy prompt, such as `0` or `false`, not only a
  missing or empty one.
- A `null` or `undefined` request body makes the destructuring throw before
  the `try` block. The handler then writes no reply (`BodyUnreadable`).
- The shell does not check that five questions arrive. It stores whatever
  sequence the fetch returns.

## Model

| member | source | states |
|---|---|---|
| `Text.TrimStart` | components/QuestionCard.tsx:78 | the result is a suffix of the input; everything dropped is whitespace; the result does not start with whitespace |
| `Text.TrimEnd` | App.tsx:19 | the result is a prefix of the input; everything dropped is whitespace; the result does not end with whitespace |
| `Text.Trim` | App.tsx:19 | the trimmed name is no longer than the input and neither starts nor ends with whitespace |
| `Text.TrimIsInfix` | App.tsx:19 | the trimmed name is a contiguous piece of the input with only whitespace around it |
| `Text.IsBlank` | App.tsx:19 | `!name.trim()` holds exactly when every character of the name is whitespace |
| `Text.Join` | components/QuestionCard.tsx:20 | `options.join(sep)` is "" for no options and the option itself for one, and always starts with the first option; JoinAt and JoinLength give the rest |
| `Text.JoinLength` | components/QuestionCard.tsx:20 | the joined length is every option once plus one separator between neighbours |
| `Text.JoinAt` | components/QuestionCard.tsx:20 | in `options.join(sep)` every option appears verbatim at its offset, followed by the separator unless it is the last |
| `AppShell.ErrorText` | App.tsx:28 | the error shown is the thrown message when it is a non-empty string, else "Đã có lỗi xảy ra"; never empty |
| `AppShell.App.constructor` | App.tsx:8-11 | the shell starts in Idle with an empty name, no questions and no error |
| `AppShell.App.Start` | App.tsx:13-15 | the view becomes NameInput; name, questions and error are unchanged |
| `AppShell.App.EditName` | App.tsx:84 | the name is replaced; nothing else changes |
| `AppShell.App.SubmitEnabled` | App.tsx:90 | the submit button is enabled exactly when the name has a non-whitespace character |
| `AppShell.App.BeginGenerate` | App.tsx:17-22 | the request is sent exactly when submit is enabled; a blank name changes nothing; otherwise the view becomes Loading and the error is cleared, and name and questions are kept |
| `AppShell.App.CompleteGenerate` | App.tsx:23-30 | success stores exactly the returned questions and shows Result; failure stores the message or the fallback and shows Error; the name is never changed; it applies whatever view is active |
| `AppShell.App.Generate` | App.tsx:17-31 | the whole handler: blank name is a no-op, otherwise Result with the fetched questions and no error, or Error with the message and the old questions; the name is kept |
| `AppShell.App.Reset` | App.tsx:33-37 | the view becomes Idle, the name "" and the question list empty; the error is kept |
| `AppShell.StaleCompletionAfterReset` | App.tsx:17-37 | a completion that arrives after a reset moves the shell to Result, with the name already cleared |
| `AppShell.RetryKeepsName` | App.tsx:114 | after a failure, retrying re-sends under the same name and a success shows Result with that name |
| `QuestionCard.StatusOf` | components/QuestionCard.tsx:29-34 | `getOptionStatus`: an option is Default exactly when nothing truthy is selected, and only the selected text can be Wrong, never the correct answer; the lemmas below give the other branches |
| `QuestionCard.NoSelectionAllDefault` | components/QuestionCard.tsx:29-30 | with no truthy selection every option is Default |
| `QuestionCard.CorrectOnceSelected` | components/QuestionCard.tsx:31 | with a selection an option is Correct exactly when it equals the correct answer, whichever option was clicked |
| `QuestionCard.WrongIffSelectedMistake` | components/QuestionCard.tsx:29-33 | an option is Wrong exactly when it is the selection and differs from the correct answer |
| `QuestionCard.AtMostOneWrong` | components/QuestionCard.tsx:32-33 | all options marked Wrong carry the selected text, so at most one distinct option is wrong |
| `QuestionCard.OthersDisabledOnceSelected` | components/QuestionCard.tsx:30-33 | with a selection no option is Default, and every option that is neither the correct answer nor the selection is Disabled |
| `QuestionCard.Label` | components/QuestionCard.tsx:77-78 | options 0, 1, 2 are labelled A, B, C; a label is in `[A-C]`, the class the display strips, exactly for the first three options; distinct options get distinct labels |
| `QuestionCard.DisplayText` | components/QuestionCard.tsx:78 | the shown text is a suffix of the option; unchanged without a leading `[A-C].`; otherwise that prefix and all whitespace after it are gone |
| `QuestionCard.WhitespacePrefixDropped` | components/QuestionCard.tsx:78 | `\s*` consumes a whitespace run and stops at the first non-whitespace character |
| `QuestionCard.DisplayStripsOwnLabel` | components/QuestionCard.tsx:77-78 | an option written as its own label, a dot, whitespace and a text is shown as exactly that text |
| `QuestionCard.Utterance` | components/QuestionCard.tsx:20 | the spoken text holds at least the question and the link words, and is exactly those when there are no options; UtteranceReadsOptions gives the rest |
| `QuestionCard.UtteranceReadsOptions` | components/QuestionCard.tsx:20 | the spoken text starts with the question and ". Các lựa chọn là: ", then reads each option verbatim at its place in the ", "-joined list |
| `QuestionCard.Card.constructor` | components/QuestionCard.tsx:13-14 | a new card has no selection and is not speaking |
| `QuestionCard.Card.OptionsEnabled` | components/QuestionCard.tsx:69 | the option buttons accept clicks exactly while every option is Default |
| `QuestionCard.Card.ExplanationShown` | components/QuestionCard.tsx:84 | the explanation is shown exactly when the selection is truthy, which is exactly when the buttons are locked and the correct option is marked |
| `QuestionCard.Card.ClickOption` | components/QuestionCard.tsx:68 | a click records the option only when nothing truthy is selected; otherwise the selection is unchanged |
| `QuestionCard.Card.BeginSpeak` | components/QuestionCard.tsx:16-20 | while speaking it is a no-op; otherwise it raises the flag and requests exactly the utterance |
| `QuestionCard.Card.FinishSpeak` | components/QuestionCard.tsx:22-26 | the speaking flag drops whether the audio succeeded or failed; the selection is untouched |
| `QuestionCard.Card.Speak` | components/QuestionCard.tsx:16-27 | the whole speak handler: no-op while speaking, else the utterance is requested and the flag ends false |
| `QuestionCard.SecondClickIsInert` | components/QuestionCard.tsx:68-69 | after a click on a non-empty option, a second click on any option leaves the selection unchanged |
| `QuestionCard.EmptyOptionDoesNotLock` | components/QuestionCard.tsx:68-84 | selecting an empty option shows no explanation and a later click replaces it |
| `Relay.Truthy` | api/gemini.ts:13-26 | `!value` holds exactly for undefined, null, false, 0, NaN and ""; every object and array is truthy |
| `Relay.CallFor` | api/gemini.ts:20-27 | the provider gets `model` when truthy, else "gemini-2.5-flash", and `config` when truthy, else `{}`; both are always truthy |
| `Relay.ReplyFor` | api/gemini.ts:29-45 | the reply is 200 exactly when the provider answered, and 500 otherwise |
| `Relay.Handler` | api/gemini.ts:5-46 | the handler writes nothing exactly for a POST with a null or undefined body; every reply it writes is 200, 400, 405 or 500 |
| `Relay.MethodCheckedFirst` | api/gemini.ts:6-9 | a reply is 405 exactly when the method is not POST, and then it is `{error: "Method not allowed"}` whatever the body |
| `Relay.MissingPromptRejected` | api/gemini.ts:11-15 | a readable POST gets 400 `{error: "Prompt is required"}` exactly when the prompt is falsy; the provider is not called and its outcome does not matter |
| `Relay.ProviderCalledIffValid` | api/gemini.ts:11-27 | the provider is called exactly for a POST with a truthy prompt; the call made is exactly CallFor of the body, so the model and config defaults apply, with that prompt as the contents' text |
| `Relay.InlineDataWins` | api/gemini.ts:29-35 | inline data in the first part gives 200 `{text: inlineData.data}`, whatever the response text |
| `Relay.TextOtherwise` | api/gemini.ts:37-38 | without inline data the reply is 200 with the response text, or "" when there is none |
| `Relay.ProviderFailureIs500` | api/gemini.ts:39-45 | a provider exception gives 500 `{error: "Internal Server Error", message}` with the thrown message |
| `Relay.DefaultModelUsed` | api/gemini.ts:11-21 | a request naming no model, or an empty one, is sent to "gemini-2.5-flash" |

## Left out

- `services/geminiService.ts` is not part of this model. It builds the prompts, calls the provider SDK and parses its JSON. Here it is only the `FetchOutcome` given to `CompleteGenerate` and the `AudioOutcome` given to `FinishSpeak`.
- The audio playback utility (`utils/audioUtils`) is not part of this model. Its source is not available, and it does floating-point PCM decoding and browser audio output.
- JSX rendering, CSS classes and the decorative elements are left out. Only the state cells and the predicates that decide what is shown are kept.
- Which buttons a view displays is left out. In the source, start appears only in Idle, the name field only in NameInput, retry only in Error, and regenerate only in Result. The model's methods can be called in any view. Every property above holds whatever the call order.
- Asynchrony is kept only as the begin/complete split of the two handlers. React's batching of state updates is left out. So are the stale closures that see an older `isSpeaking` or `studentName`. So is the form event's `preventDefault`.
- The network, the provider SDK, reading the API key from the environment, constructing the client, `console.error` logging and the platform's response objects are left out. The provider's result is the `ProviderOutcome` parameter of `Relay.Handler`.
- How the hosting platform answers an uncaught exception, or a request body that is not valid JSON, is left out. The model stops at `BodyUnreadable`.
- `Text.IsWhitespace` has a fixed set of characters: ECMAScript's WhiteSpace and LineTerminator characters, with the space separators of current Unicode. Strings are sequences of Unicode scalar values, not UTF-16 code units.
- `Relay.JsValue` models JavaScript numbers as reals plus NaN, so it has no infinities and no negative zero. Infinities are truthy and negative zero is falsy, the same as for 0.
- QuestionCard.Label: requires 65 + i below 0xD800. `String.fromCharCode` yields a UTF-16 code unit, wrapping modulo 65536 and possibly giving a surrogate, and a Dafny `char` cannot hold either. A card has three options.
