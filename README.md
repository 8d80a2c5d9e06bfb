# NeuraChat conversation core in Dafny

NeuraChat is a browser chat widget. One global object, `NeuraChat`,
keeps the conversation in memory: a message log, a dark-mode flag and a
"typing" flag that is up while a canned reply is pending. It mirrors the
log and the theme into two `localStorage` slots and keeps at most
`maxMessages` (100) messages in storage. Replies come from a keyword
classifier with fixed reply tables and a random pick.

This project models that core:

- `Text` (`text.dfy`) models the string built-ins the core uses.
  `String.prototype.trim` uses the full ECMAScript white-space set.
  `toLowerCase` covers ASCII letters. `includes` is a substring predicate.
- `Responses` (`responses.dfy`) models `generateAIResponse`. The input is
  lower-cased and the four keyword tests run in priority order. Then one
  entry of the chosen category's verbatim reply table is picked with
  `Math.floor(u * n)`. `u` is the value of `Math.random()`, passed in.
- `Formatting` (`formatting.dfy`) models `formatMessageContent`, which
  turns every line feed into `<br>`.
- `Memory` (`memory.dfy`) models the count-to-label thresholds of
  `updateMemoryStatus`.
- `Persistence` (`persistence.dfy`) holds the message record and the two
  storage slots, modelled as a `Storage` class. It also holds
  `Array.prototype.slice` with a negative start, and the way `loadState`
  reads each slot.
- `Chat` (`chat.dfy`) holds the class `NeuraChat`. Its fields are
  `messages`, `isDarkMode` and `isTyping`. A `pendingReply` field holds
  the text captured by the scheduled timer callback. A `memoryStatus`
  field holds what the status element shows. Every state-changing
  function of the source is a method. Its contract gives the whole new
  state in terms of the old one and of the specification functions
  above. The object invariant `Valid()` says that a reply is pending
  exactly while `isTyping` holds.

The timer callback of `simulateAIResponse` is an explicit step,
`ReplyArrives`. Its precondition is that a reply is pending. Nothing stops
`clearChat` while a reply is pending, and the model allows it too: the
reply then lands in the freshly emptied log.

## Model

| member | source | states |
|---|---|---|
| `Text.Trim` | script.js:104 | The trimmed text is no longer than the input and neither starts nor ends with white space. |
| `Text.TrimStrips` | script.js:104 | The trimmed text is a contiguous piece of the input, and everything cut away on either side is white space. |
| `Text.TrimEmptyIff` | script.js:104-106 | The trimmed text is empty exactly when the input is all white space, so the send guard rejects exactly blank input. |
| `Text.ToLower` | script.js:171 | Lower-casing keeps the length and lowers each code point on its own: A to Z move to a to z, everything else is kept. |
| `Text.LowerIdempotent` | script.js:171 | Lower-casing twice is lower-casing once. |
| `Text.LowerAppend` | script.js:171 | Lower-casing a concatenation is concatenating the lower-cased parts. |
| `Text.Contains` | script.js:207-214 | `includes`: the text contains the keyword when it starts with it or its tail contains it. The empty keyword occurs in every text. |
| `Text.ContainsIff` | script.js:207-214 | The `includes` predicate holds exactly when the keyword occurs at some position of the text. |
| `Text.ContainsInside` | script.js:207-214 | A keyword occurs in any text built around it. |
| `Responses.Matches` | script.js:207-214 | The keyword test of each category on the lower-cased text. Greeting is "hello", "hi" or "hey". Technology is "tech", "computer", "ai" or "software". Science is "science", "physics", "biology" or "chemistry". Help is "help", "what can you do" or "capabilities". Default always passes. |
| `Responses.Classify` | script.js:204-215 | The category is the first one, in the order greeting, technology, science, help, whose keyword test the lower-cased text passes. No earlier test passes. Default is the fallback. |
| `Responses.ClassifyIsFirstMatch` | script.js:204-215 | Any category that passes its test, with no earlier category passing, is the category chosen. The first-match description determines the result. |
| `Responses.ClassifyIgnoresCase` | script.js:171 | The category of a text and of its lower-cased form agree. |
| `Responses.GreetingWins` | script.js:207-208 | "hello", "hi" or "hey", in any letter case and anywhere in the text, gives a greeting whatever other keywords the text holds. |
| `Responses.ThisIsAGreeting` | script.js:207 | Matching is by substring, so "this" is classified as a greeting. |
| `Responses.NoKeywordMeansDefault` | script.js:205 | A text that passes none of the four keyword tests gets the default category. |
| `Responses.Replies` | script.js:174-202 | The greeting, technology, science and help tables have 3 entries each. The default table has 5. |
| `Responses.RandomIndex` | script.js:219 | `Math.floor(u * n)` with `u` in [0, 1) is a valid index into a table of n entries. |
| `Responses.RandomIndexReaches` | script.js:219 | Every index k below n is drawn by some `u` in [0, 1), namely k / n. |
| `Responses.GenerateAIResponse` | script.js:169-222 | The reply is an entry of the table of the text's category. |
| `Responses.EveryReplyPossible` | script.js:217-221 | Every entry of the text's category table is a possible reply. |
| `Formatting.FormatMessageContent` | script.js:276-279 | The formatted text holds no line feed. It grows by three characters per line feed. Text without line feeds comes back unchanged. |
| `Formatting.FormatAppend` | script.js:278 | Formatting a concatenation is concatenating the formatted parts. |
| `Formatting.LineFeedBecomesBreak` | script.js:278 | A line feed between two texts becomes `<br>` between their formatted forms. |
| `Memory.StatusOf` | script.js:316-330 | 0 messages give Empty, 1 to 19 give Optimized, 20 to 49 give Moderate, and 50 or more give High. Each direction of each range is stated. |
| `Memory.StatusMonotone` | script.js:316-330 | More messages never give a lighter status. |
| `Memory.StatusIgnoresCap` | script.js:60-64 | With a retention cap of at least 50, the status of the in-memory count equals the status of the stored count. Computing it before truncation cannot show. |
| `Persistence.SliceFrom` | script.js:60 | `slice(start)` returns a suffix. A negative start keeps min(-start, length) elements. A non-negative start drops min(start, length) elements. |
| `Persistence.Persisted` | script.js:60 | The stored log is the last min(n, 100) messages of the in-memory log, in their original order, and equals the whole log when the log fits. |
| `Persistence.PersistedIdempotent` | script.js:60 | Truncating a stored log again changes nothing. |
| `Persistence.PersistedAfterReload` | script.js:43-61 | Reloading the truncated log, appending and saving stores the same messages as appending to the full log and saving. |
| `Persistence.ThemeValue` | script.js:57 | The theme slot gets "dark" when dark mode is on and "light" otherwise. |
| `Persistence.LoadedDarkMode` | script.js:33-34 | Dark mode is on exactly when the theme slot holds "dark". A missing slot or any other text means light. |
| `Persistence.LoadedLog` | script.js:43-51 | `Absent` keeps the current log, `Stored(l)` gives `l`, and `Corrupt` (text that does not parse) gives []. |
| `Persistence.ThemeRoundTrip` | script.js:57 | The theme text that saveState writes is read back by loadState as the same flag. |
| `Chat.NeuraChat.constructor` | script.js:14-18 | The initial state is an empty log, the light theme and no pending reply. |
| `Chat.NeuraChat.Init` | script.js:21-29 | Init loads the saved state and shows the status of the loaded log. The typing state is kept. |
| `Chat.NeuraChat.LoadState` | script.js:32-52 | Dark mode holds exactly when the theme slot holds "dark". A stored log replaces the messages. A corrupt slot empties them. A missing slot leaves them as they were. |
| `Chat.NeuraChat.SaveState` | script.js:55-65 | The theme slot gets "dark" or "light" from the flag. The messages slot gets the last 100 messages. The status is computed from the full in-memory count. The in-memory log is unchanged. |
| `Chat.NeuraChat.UpdateMemoryStatus` | script.js:314-331 | The shown status is the status of the in-memory count. |
| `Chat.NeuraChat.SendMessage` | script.js:102-129 | Blank input, or any input while a reply is pending, leaves the whole state and storage unchanged. Otherwise exactly one user message is appended, with the trimmed text as content. The state is saved, the typing flag is up and the trimmed text is pending. |
| `Chat.NeuraChat.SimulateAIResponse` | script.js:132-141 | The typing flag goes up and a reply to the given text becomes pending. |
| `Chat.NeuraChat.ReplyArrives` | script.js:143-165 | The typing flag drops and nothing is pending. Exactly one assistant message is appended, with id now + 1 and the generated reply to the pending text as content. The state is saved. |
| `Chat.NeuraChat.ClearChat` | script.js:282-294 | An empty log or an unconfirmed dialog changes nothing. Otherwise the log is emptied, the messages slot is removed and the status shows Empty. The theme flag and theme slot are untouched. |
| `Chat.NeuraChat.ToggleTheme` | script.js:297-305 | The theme flag is negated and the whole state is saved. The log is unchanged. |
| `Chat.ToggleTwice` | script.js:297-300 | Toggling twice restores the theme flag, and the stored theme matches it. |
| `Chat.Reload` | script.js:21-52 | A fresh page over the same storage shows the stored theme and log, and no reply is pending. |
| `Chat.SaveThenReload` | script.js:32-65 | After a save, a reload shows the same theme and the last 100 messages of the saved log. |
| `Chat.ClearThenReload` | script.js:282-287 | After a confirmed clear of a non-empty log, a reload shows an empty log. |

## Left out

- DOM rendering and view code are not modelled: `renderMessages`, `createMessageElement`, `scrollToBottom`, `showNotification`, the typing-indicator display, icon and class toggling, and textarea auto-resize. They are output only.
- Event wiring in `setupEventListeners` and the `DOMContentLoaded` hook are not modelled. Each user action is a method the environment calls.
- Timer mechanics (`setTimeout` and the 800 ms `typingDelay`) are not modelled. The delayed reply is the explicit step `ReplyArrives`.
- The input field is not modelled. Its value is the `input` parameter of `SendMessage`, and clearing it after a send is left out.
- `Date.now()` and `toLocaleTimeString` are parameters (`now`, `time`). Nothing is claimed about id uniqueness or order. The source makes no such guarantee: an assistant reply created at millisecond t gets id t + 1, so a user message sent at millisecond t + 1 gets the same id.
- `Math.random()` is the parameter `u`, with 0 <= u < 1. Floating-point rounding of `u * n` is not modelled; the product is a real number.
- JSON encoding and `localStorage` are abstracted. The messages slot holds a decoded log, is absent, or holds text that does not parse. An empty-string item fails loadState's truthiness test, so it is folded into the absent case. Valid JSON that is not an array of messages is not modelled.
- The `console.error` call on a parse failure is not modelled.
- Storage reads and writes are assumed to succeed: `SaveState` always writes both slots and `LoadState` always reads them. In a browser, `localStorage.setItem` can throw (for example `QuotaExceededError` when the log does not fit), and reading `localStorage` throws where storage is blocked, which makes `init` fail at `loadState`. The source does not catch these. A throw in `saveState` during `sendMessage` leaves the user message in the in-memory log, skips `simulateAIResponse`, and leaves `isTyping` false, so that message never gets a reply. A throw during `toggleTheme` leaves the flag flipped but the icon not updated. The model does not capture these failure paths.
- The `confirm()` dialog is the `confirmed` parameter of `ClearChat`.
- CSS colours set by `updateMemoryStatus`, and the status element's text before `init` runs, are not modelled. The constructor starts it at Empty.
- Text.ToLower: lowers only the ASCII letters A to Z. JavaScript's `toLowerCase` also maps other Unicode letters, some of them onto ASCII (KELVIN SIGN becomes "k"; LATIN CAPITAL LETTER I WITH DOT ABOVE becomes "i" plus a combining dot). So the model can miss a keyword match the browser would find.
- Strings are sequences of Unicode scalar values, not UTF-16 code units. Lone surrogates are not modelled.
