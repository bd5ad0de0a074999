# ai-thought-log: the chat turn controller and the daily prompt, in Dafny

ai-thought-log is a journaling app. Each day it offers a reflection prompt. A user
answers it in a short dialogue with an AI coach, and after a few exchanges the
session is summarized and closed. This project models and proves the app's two
pieces of real logic:

- **The turn controller.** This is `POST` in `src/app/api/chat/route.ts`, the
  state machine over one journaling session. One call validates the request,
  checks the caller and the session, and stores the user message. It then counts
  the assistant messages and does one of two things:
  - it asks the language model for another coaching reply, stores the reply and
    back-fills the title;
  - or it asks for a summary, falls back to the raw reply when the JSON does not
    parse, stores an announcement and closes the session.
- **The daily prompt selector.** This is `getDailyPrompt` in `src/lib/prompts.ts`.
  It picks entry `day % 10` from a fixed pool of ten prompts.

## Layout

- `wrappers.dfy` (`Wrappers`): `Option`, for JavaScript's `null`/`undefined`.
- `js_text.dfy` (`JsText`): JavaScript strings as sequences of UTF-16 code units,
  and the `\s` character class of JavaScript regular expressions. Lengths, `slice`
  and the trailing-whitespace regex therefore count and cut exactly as JavaScript
  does.
- `chat_rules.dfy` (`ChatRules`): the route's pure parts:
  - the request schema (content 1..2000 code units);
  - `sanitizeContent`;
  - the assistant count and `shouldSummarize` (`MAX_ASSISTANT_MESSAGES = 3`, so
    summarizing starts at 2);
  - the 32-code-unit title;
  - `summarySchema` and the parse-failure fallback;
  - the summary announcement `セッションのまとめです。\n\n` + summary.
- `chat_turn.dfy` (`ChatTurn`): the two tables as a value (`StoreState`) and one
  call of the route as a function `Turn(state, body, isUuid, outside)`. It returns
  the response (`Ok`, `Summarized` or `Error(status)`) and the new state.
- `turn_properties.dfy` (`TurnProperties`): the lemmas about `Turn`. They cover
  each rejection, the mode choice, both modes, the parse fallback, the failure
  paths, "a session is closed at most once", and a full three-turn dialogue.
- `session_store.dfy` (`SessionStore`): the store as a class `Store`. It has
  fields `sessions: map<SessionId, Session>` and `messages: seq<MessageRow>`.
  `Store.Post` is the route written step by step, with early returns and in-place
  appends and updates. Its postcondition ties the response and the new state to
  `Turn` on the old state.

The outside world enters `Turn` and `Store.Post` as inputs:

- `caller`: the signed-in user, or `None`.
- `StoreFaults`: which of the route's store calls report an error.
- `reply`: the model's reply, or `None` when the call throws or carries no content.
- `json`: what `JSON.parse` made of the reply. `None` means a parse error, a
  non-object, or a field of the wrong JSON type.
- `isUuid`: zod's UUID format check.

With these fixed, every branch is deterministic. `getDailyPrompt` takes the day of
the year as a natural number, so January 1 is day 1. Because it is a function, the
same day always gets the same prompt.

## Model

| member | source | states |
|---|---|---|
| `ChatRules.SanitizeContent` | src/app/api/chat/route.ts:66-68 | the result is a prefix of the input, does not end in `\s` white space, and everything cut off is white space |
| `ChatRules.SanitizeIdempotent` | src/app/api/chat/route.ts:66-68 | sanitizing twice equals sanitizing once |
| `ChatRules.SanitizeUnique` | src/app/api/chat/route.ts:66-68 | for any split of a text into a part that does not end in white space plus a white-space tail, sanitizing returns exactly that part |
| `ChatRules.AssistantCount` | src/app/api/chat/route.ts:122-124 | the assistant count never exceeds the history length |
| `ChatRules.AssistantCountIsPositions` | src/app/api/chat/route.ts:122-124 | the count equals the number of positions in the history that hold an assistant message |
| `ChatRules.AssistantCountAppend` | src/app/api/chat/route.ts:122-124 | appending a message raises the count by one exactly when it is an assistant's |
| `ChatRules.TitleCandidate` | src/app/api/chat/route.ts:210-211 | the title is a prefix of the content of length min(32, length) |
| `ChatRules.TitleCandidateNonEmpty` | src/app/api/chat/route.ts:210-211 | non-empty content gives a truthy title, so a title filled in once is never filled in again |
| `ChatRules.ParseSummarySchema` | src/app/api/chat/route.ts:10-14 | an accepted payload always has a non-empty summary and non-empty list items, and its summary is the JSON's `summary` |
| `ChatRules.SchemaRoundTrip` | src/app/api/chat/route.ts:10-14 | a payload written out in full as JSON is accepted back unchanged when it is well formed (non-empty summary and items) and rejected when it is not, which sends the route to its fallback |
| `ChatRules.SchemaAbsentFields` | src/app/api/chat/route.ts:10-14 | `default([])`: an absent `key_points` or `next_questions` parses like an empty list; an absent `summary` is rejected |
| `ChatRules.Announcement` | src/app/api/chat/route.ts:158 | the announcement begins with `セッションのまとめです。\n\n` and the summary can be read back from the rest |
| `ChatRules.ResolveSummary` | src/app/api/chat/route.ts:143-156 | for a non-empty reply the payload is well formed (non-empty summary); when parsing fails it is the raw reply with empty lists; otherwise it is exactly the parsed payload, summary, key points and next questions alike |
| `ChatTurn.History` | src/app/api/chat/route.ts:116-120 | a session's history is no longer than the message table |
| `ChatTurn.HistoryAppend` | src/app/api/chat/route.ts:103-107 | storing a row extends the history of its own session by that message and leaves every other session's history as it was |
| `ChatTurn.HistoryIsSessionRows` | src/app/api/chat/route.ts:116-120 | the history of a session has as many messages as the session has rows in the table |
| `ChatTurn.AssistantCountIsSessionRows` | src/app/api/chat/route.ts:116-124 | the route's assistant count equals the number of the session's rows that are assistant messages |
| `ChatTurn.AssistantPositionsStep` | src/app/api/chat/route.ts:122-124 | one more row adds one assistant position exactly when it is an assistant row of the session |
| `ChatTurn.CloseWith` | src/app/api/chat/route.ts:172-179 | writing the summary fields closes the session exactly when the summary is non-empty, and keeps its owner and title |
| `ChatTurn.SummarizeStep` | src/app/api/chat/route.ts:130-186 | summarization answers `summarized` exactly when the reply is usable and both writes succeed; it stores the announcement of the resolved summary exactly when the reply is usable and its insert succeeds; on any 500 the sessions are unchanged, so after a failed session update the announcement stays while the session is still open; on success the session gets the resolved payload and is closed |
| `ChatTurn.ContinueStep` | src/app/api/chat/route.ts:188-218 | continuation answers `ok` exactly when the reply is usable and its insert succeeds; a 500 changes nothing more; `ok` appends exactly the sanitized reply and changes at most the session's title |
| `ChatTurn.Turn` | src/app/api/chat/route.ts:70-230 | an error status is one of 400, 401, 404, 500; an error never changes a session row; a turn either leaves the state unchanged or extends the message log by at most two rows of the requested session, keeping the set of sessions. The gates it applies are the predicates `RequestValid`/`ContentLengthOk` (lines 5-8, 72-76), `Closed` (line 96), `ShouldSummarize` (126-127) and `NeedsTitle` (210) |
| `TurnProperties.HistoryIgnoresOtherRows` | src/app/api/chat/route.ts:116-120 | rows of other sessions do not change a session's history |
| `TurnProperties.TurnKeepsConsistent` | src/app/api/chat/route.ts:103-107 | every stored message still belongs to an existing session after a turn |
| `TurnProperties.InvalidRequestRejected` | src/app/api/chat/route.ts:5-8 | a body outside the request schema (content length outside 1..2000, bad id, not JSON) gets 400 and the store is unchanged |
| `TurnProperties.UnauthenticatedRejected` | src/app/api/chat/route.ts:78-83 | without a signed-in user: 401, store unchanged |
| `TurnProperties.UnknownSessionRejected` | src/app/api/chat/route.ts:85-94 | no session with that id owned by the caller: 404, nothing appended |
| `TurnProperties.ClosedSessionRejected` | src/app/api/chat/route.ts:96-101 | a session with a summary: 400, nothing appended |
| `TurnProperties.ModeFollowsAssistantCount` | src/app/api/chat/route.ts:122-127 | with store and model working, the turn summarizes exactly when the history was read and had at least `MAX_ASSISTANT_MESSAGES - 1` = 2 assistant messages (the new user message adds none); a failed read never summarizes |
| `TurnProperties.ServerErrorsKeepUserMessage` | src/app/api/chat/route.ts:103-114 | a failed user insert gives 500 with the store unchanged; a failed or empty model reply, or a failed insert of the assistant reply, gives 500 with exactly the user message appended and the sessions unchanged |
| `TurnProperties.FailedCloseSummarizesAgain` | src/app/api/chat/route.ts:160-183 | when the announcement is stored but the session update fails: 500, the user message and the announcement stay, the session stays open, and the next working turn summarizes again |
| `TurnProperties.AdmittedWhenAnswered` | src/app/api/chat/route.ts:74-114 | a turn that answers `ok` or `summarized` passed validation, auth, lookup and the closed check, and stored its user message |
| `TurnProperties.SummarizedTurn` | src/app/api/chat/route.ts:158-185 | a `summarized` turn was admitted on an open session; it appends the user message and `セッションのまとめです。\n\n` + summary; it writes summary, key points and next questions; the title and owner stay, and the session is now closed |
| `TurnProperties.SummarizeStepEffect` | src/app/api/chat/route.ts:158-185 | a successful summarization step appends exactly the announcement and writes the resolved payload, which closes the session |
| `TurnProperties.ParsedSummaryStored` | src/app/api/chat/route.ts:147-179 | a reply that parses as a well-formed payload closes the session with exactly that summary, those key points and those next questions |
| `TurnProperties.SummaryFallback` | src/app/api/chat/route.ts:147-156 | when the reply is not schema-valid JSON, the closed session's summary is the raw reply and both lists are empty |
| `TurnProperties.ContinuedTurn` | src/app/api/chat/route.ts:188-218 | an `ok` turn appends the user message and the sanitized reply and keeps the session open; an empty title becomes the 32-unit prefix of the user text unless that update fails; a present title is never changed |
| `TurnProperties.OtherSessionsUntouched` | src/app/api/chat/route.ts:172-179 | every session other than the requested one keeps its row and its history |
| `TurnProperties.ClosesAtMostOnce` | src/app/api/chat/route.ts:96-101 | a closed session keeps its row and its history through any turn |
| `TurnProperties.ContinuationAddsOneReply` | src/app/api/chat/route.ts:188-218 | on an open session with fewer than 2 assistant messages and a working store and model, the turn answers `ok`, keeps the session open and owned, and adds exactly one assistant message |
| `TurnProperties.ThreeTurnDialogue` | src/app/api/chat/route.ts:16 | on a fresh session, turns 1 and 2 continue, turn 3 summarizes and closes the session, and turn 4 is rejected with 400 and changes nothing |
| `SessionStore.Store.Post` | src/app/api/chat/route.ts:70-230 | the step-by-step route keeps every message attached to a session, and its response and new tables are those of `Turn` on the old tables |
| `DailyPrompts.PromptIndex` | src/lib/prompts.ts:53 | the index is below the pool size and congruent to the day modulo it |
| `DailyPrompts.GetDailyPrompt` | src/lib/prompts.ts:49-54 | the prompt is always an entry of the pool |
| `DailyPrompts.PoolHasTenDistinctIds` | src/lib/prompts.ts:6-47 | the pool has 10 entries with pairwise distinct ids |
| `DailyPrompts.Periodic` | src/lib/prompts.ts:53-54 | days d and d + 10k get the same prompt |
| `DailyPrompts.OnePeriod` | src/lib/prompts.ts:53 | days d and d + 10 get the same pool index |
| `DailyPrompts.NextDayNextPrompt` | src/lib/prompts.ts:53 | the next day's index is the current index plus one, modulo 10 |
| `DailyPrompts.NewYearsDayPrompt` | src/lib/prompts.ts:50-54 | January 1 is day 1 and gets `values-1`, not the first entry |
| `DailyPrompts.YearBoundarySkips` | src/lib/prompts.ts:50-53 | from December 31 (day 365 or 366) to January 1 (day 1), the index does not advance by one |

## Left out

- Supabase and auth calls are not modelled as calls. The tables are the fields of
  `Store`. The signed-in user is the `caller` input. Each read or write error is a
  flag in `StoreFaults`.
- A session row's `prompt_id` and the tables' ids and timestamps are not modelled.
  The route never reads them, and the order of the message table stands for
  `created_at` order.
- A failed session lookup is read as "not found". The route cannot tell a failed
  lookup from a missing row either.
- The OpenAI request is not modelled: the fetch, the API-key check, the model
  name, the temperature and the system prompts. Only its answer enters, as the
  `reply` input. The messages it would be sent are not modelled, because only the
  gateway reads them. This includes the `role: content` transcript joined for the
  summary.
- `JSON.parse` is an input (`json`). `summarySchema` itself is modelled. A field of
  the wrong JSON type, `null` included, is folded into a parse failure. zod would
  reject such a field in the same way.
- zod's `uuid()` format is the `isUuid` input predicate.
- The error message texts and the `NextResponse` bodies are left out. A response is
  `Ok`, `Summarized` or `Error(status)`.
- Concurrent turns on one session are left out. The route does no locking, and the
  model handles one call at a time.
- Creating sessions (`startSession` in `src/app/(app)/actions.ts`) is not part of
  this model. A `Store` is built from the tables as they stand when a request
  arrives.
- `getDailyPrompt` takes the day of the year as a number. The `Date` arithmetic is
  left out: the local-time midnight of "January 0", the millisecond division and
  `Math.floor`. So is the one-day shift around daylight-saving changes that this
  arithmetic can produce.
