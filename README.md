# Webly AI landing page: chat router, FAQ accordion and demo generator

A Dafny model of the logic in `src/App.jsx` of the Webly AI landing page.

- **Keyword matcher** (`findFAQAnswer`). The user's text is lower-cased. The fixed five-record FAQ table is then scanned in order. The answer of the first record with a keyword that is a substring of the text is returned, or `null` when none matches. The first match wins, not the best one. Short keywords over-match: the keyword `"ai"` of the first record catches the fourth record's own question, "Как работает AI-генерация?". The model keeps this behaviour and proves it.
- **Conversation** (`handleSend`, `handleKeyPress`, the send button). The class `Chat.ChatWidget` holds `messages`, `inputValue` and `isTyping`.
  - Blank input is ignored.
  - Otherwise the trimmed user message is appended, the field is cleared and the typing indicator is shown.
  - Later, exactly one bot message is appended and the indicator is cleared. That message is the FAQ answer (after the 1000 ms timer), the `/api/chat` reply, or the fixed apology.
  - `handleSend` is split at its asynchronous boundary. `BeginSend` is the synchronous part. `Deliver` is the continuation: the timer firing or the request settling. The field `inFlight` holds the continuations the event loop still owes.
  - The remote call is a parameter, `RemoteOutcome` (`RemoteOk(reply)` or `RemoteFail`).
- **Landing page** (`toggleFAQ`, `handleDemoSubmit`). The class `Landing.LandingPage` holds `activeFAQ`, `demoPrompt`, `isGenerating` and `showResult`, plus a count of pending 2000 ms timers.
- **String built-ins** (module `Text`). JavaScript's `trim`, `toLowerCase` and `includes` are modelled as functions, with lemmas tying each to its meaning.

"At most one outstanding reply" is not something `handleSend` checks. `handleSend` tests only `inputValue.trim()` (src/App.jsx:121). The send button is disabled while `isTyping` (src/App.jsx:254). But Enter in the text field calls `handleSend` directly (src/App.jsx:166-168). The model makes this visible:
- `ClickSend` preserves `OneTurnAtATime`.
- `PressKey` breaks it when a reply is outstanding.
- `EnterWhileTyping` builds the overlapping run.

The disabled send button (`disabled={!inputValue.trim() || isTyping}`, src/App.jsx:254) shows that input sent while a reply is pending is meant to be ignored. The Enter path does not do that, and the model follows the code.

## Model

| member | source | states |
|---|---|---|
| `Text.TrimStartIsSuffix` | src/App.jsx:121 | what trimming the start leaves is a suffix, all it drops is whitespace, and it does not start with whitespace |
| `Text.TrimEndIsPrefix` | src/App.jsx:121 | what trimming the end leaves is a prefix, all it drops is whitespace, and it does not end with whitespace |
| `Text.TrimIsMiddle` | src/App.jsx:121-123 | `trim()` leaves a contiguous middle part of the input with only whitespace removed on either side, and that part has no whitespace at either end |
| `Text.TrimEmptyIffBlank` | src/App.jsx:121 | `!s.trim()` holds exactly when `s` is empty or all whitespace (both directions) |
| `Text.TrimOfUnpadded` | src/App.jsx:123 | a message with no whitespace at either end is sent unchanged |
| `Text.TrimIdempotent` | src/App.jsx:123 | the trimmed user message is its own trimmed form |
| `Text.LowerChar` | src/App.jsx:111 | lower-casing changes exactly the upper-case letters and never yields an upper-case letter |
| `Text.LowerKeepsLowercaseOccurrence` | src/App.jsx:111-113 | a keyword without upper-case letters that occurs in the input still occurs at the same place after the input is lower-cased |
| `Text.LowerIdempotent` | src/App.jsx:111 | lower-casing twice is lower-casing once |
| `Text.LowerOfLowercase` | src/App.jsx:111 | text with no upper-case letter is unchanged by lower-casing |
| `Text.IncludesIsSubstring` | src/App.jsx:113 | `includes` returns true exactly when the keyword occurs at some position of the text |
| `FaqMatcher.AnyKeywordInMatches` | src/App.jsx:113 | `keywords.some(...)` holds exactly when some keyword of the record is a substring of the text |
| `FaqMatcher.FirstAnswerOfFirstMatch` | src/App.jsx:112-115 | when record i is the first record with a keyword in the text, the search returns record i's answer, whatever later records hold |
| `FaqMatcher.FirstAnswerNone` | src/App.jsx:112-117 | the search returns `null` exactly when no record has a keyword in the text |
| `FaqMatcher.FirstAnswerIsFirstMatch` | src/App.jsx:112-117 | a non-null result is the answer of the first matching record |
| `FaqMatcher.FindFaqAnswerIgnoresCase` | src/App.jsx:110-111 | an input and its lower-case form get the same answer |
| `FaqMatcher.EmptyInputHasNoAnswer` | src/App.jsx:62-88 | every keyword in the table is non-empty, so the empty input matches nothing |
| `FaqMatcher.KeywordInInputIsMatched` | src/App.jsx:112-117 | an input containing any keyword of the table is answered from the table |
| `FaqMatcher.AiGenerationQuestionGetsFirstAnswer` | src/App.jsx:63-81 | "Как работает AI-генерация?" is answered with the first record's answer, not its own, because the keyword "ai" matches first |
| `FaqMatcher.WhatIsWeblyGetsFirstAnswer` | src/App.jsx:63-67 | "Что такое Webly AI?" is answered with the first record's answer |
| `Chat.TableAnswersAreReplies` | src/App.jsx:62-88 | every FAQ answer is non-empty (truthy) and differs from the apology text |
| `Chat.MatchedReply` | src/App.jsx:129-135 | a matched message is answered with its FAQ answer whatever the remote outcome, the remote endpoint is not called, and the apology never appears |
| `Chat.UnmatchedReply` | src/App.jsx:136-159 | an unmatched message goes to the remote endpoint; the reply is `data.reply` on success and the apology on failure |
| `Chat.SuggestedQuestionsInApology` | src/App.jsx:158 | each of the three suggested questions is quoted in the apology text |
| `Chat.SuggestedQuestionsAreMatched` | src/App.jsx:155-159 | each question the apology suggests is answered from the FAQ table |
| `Chat.WhatIsWeblyIsMatched` | src/App.jsx:157 | the first suggested question has a FAQ answer |
| `Chat.NeedSkillsIsMatched` | src/App.jsx:157 | the second suggested question has a FAQ answer |
| `Chat.FreePlanIsMatched` | src/App.jsx:157 | the third suggested question has a FAQ answer |
| `Chat.ChatWidget.constructor` | src/App.jsx:95-99 | the conversation starts as exactly the bot greeting, with an empty field, no indicator and nothing in flight |
| `Chat.ChatWidget.SetInput` | src/App.jsx:247 | typing changes only the field |
| `Chat.ChatWidget.BeginSend` | src/App.jsx:120-129 | blank input changes nothing and runs neither the matcher nor the remote call; otherwise one user message with the trimmed text is appended, the field is cleared, the indicator is set, and the turn (text, matcher result) is left in flight |
| `Chat.ChatWidget.Deliver` | src/App.jsx:131-162 | a continuation appends exactly one bot message (FAQ answer, remote reply or apology), clears the indicator and leaves the field alone |
| `Chat.ChatWidget.HandleSend` | src/App.jsx:120-164 | a completed non-blank turn appends exactly the user message and then the bot reply, clears the field and the indicator; a blank one changes nothing |
| `Chat.ChatWidget.PressKey` | src/App.jsx:166-168 | Enter starts a turn even while a reply is outstanding; doing so from a one-turn state leaves two turns in flight |
| `Chat.ChatWidget.PressKeyGuarded` | src/App.jsx:166-168 | Enter guarded like the send button starts a turn only when the button is enabled, and keeps at most one reply outstanding |
| `Chat.ChatWidget.ClickSend` | src/App.jsx:252-254 | the button starts a turn only when enabled, and keeps at most one reply outstanding |
| `Chat.Dispatch` | src/App.jsx:120-168 | under every chat event the history only grows, by at most one message, keeping the greeting first and every earlier message in place |
| `Chat.DeliverKeepsOneTurn` | src/App.jsx:131-161 | delivering the only outstanding reply leaves nothing in flight and the indicator off |
| `Chat.EnterWhileTyping` | src/App.jsx:166-168 | click, then type and press Enter before the reply: two user messages in a row, and the first reply clears the indicator while the second is still owed |
| `Landing.ToggleTwice` | src/App.jsx:343-345 | two clicks on the same item close the accordion unless that item was open to begin with |
| `Landing.LandingPage.constructor` | src/App.jsx:337-341 | all FAQ items closed, empty prompt, no spinner, no preview |
| `Landing.LandingPage.ToggleFaq` | src/App.jsx:343-345 | the clicked item flips between open and closed and every other item is closed |
| `Landing.LandingPage.SetDemoPrompt` | src/App.jsx:882 | editing the prompt changes only the prompt |
| `Landing.LandingPage.DemoSubmit` | src/App.jsx:347-349 | a blank prompt is ignored; otherwise the spinner starts and one timer is scheduled |
| `Landing.LandingPage.ClickGenerate` | src/App.jsx:887-889 | the generate button submits only when enabled, and keeps at most one generation pending |
| `Landing.LandingPage.GenerationDone` | src/App.jsx:350-353 | the timer stops the spinner and shows the preview |
| `Landing.LandingPage.StartOver` | src/App.jsx:988 | "create new" hides the preview and clears the prompt |

## Findings

| source | as written | input that shows it | evidently intended | confidence | as-written member | corrected member |
|---|---|---|---|---|---|---|
| src/App.jsx:166-168 | Enter calls `handleSend`, which checks only for blank input, so a second turn starts while a reply is outstanding | send "Что такое Webly AI?" with the button, then type any non-blank text and press Enter within 1000 ms | no send while `isTyping`, as the disabled send button (src/App.jsx:254) shows | medium, not executed | `Chat.EnterWhileTyping` | `Chat.ChatWidget.PressKeyGuarded` |

## Left out

- `useFormHandler` (src/App.jsx:15-59): a POST to a form relay service, I/O only.
- The `/api/chat` request, its JSON body and `SITE_CONTEXT`: replaced by the `RemoteOutcome` parameter. A JSON parse error counts as `RemoteFail`, because the `catch` handles it.
- `Chat.ChatWidget.Deliver`: assumes an ok response carries a string `reply`. A body without `reply` would append `undefined`, which the model does not represent.
- The 1000 ms and 2000 ms timers and the network latency: a continuation runs when `Deliver` or `GenerationDone` is called, in any order the caller chooses.
- `scrollIntoView`, the chat window's open/close toggle, `AnimatedCounter`, `NeuralNetwork`, navigation scrolling, the pricing toggle and all rendering: presentational only.
- `tailwind.config.js`: static styling, no logic.
- `Text.LowerChar`: maps only Basic Latin, Latin-1 and basic Cyrillic upper-case letters. The rest of Unicode's case mapping, including mappings that change length, is not modelled.
- React's batching of state updates: each setter is modelled as taking effect immediately, in program order. Every update in these handlers is either functional (`prev => [...prev, x]`) or a plain value, so the order is the same.
