# HERMES core in Dafny

HERMES takes a free-text request from the user ("order me a pizza", "call my friend john at
416-555-1234"). It finds businesses or a phone number for the request, and has a voice agent
place the call. This project models the deterministic logic around those hosted services and
proves properties of it:

- **Request classifier** (`RequestRouter`, on top of the `Regex` engine).
  - `extract_phone_number` runs three phone patterns in order with Python's `re.search`.
  - `classify_request` turns a request into a direct call or a business search. It runs a
    contact-name search with a stopword filter on the lower-cased request.
  - `create_direct_call_business_result` builds the synthetic result record.
  - The patterns run on a backtracking matcher that follows Python's order of alternatives
    (greedy repetition, optional parts taken before skipped, leftmost start). It is proved
    sound and complete against a relational meaning of patterns.
- **Dial-string normaliser** (`CallingService`): `cleanupPhoneNumber` of the calling service.
- **Search endpoint** (`FlaskApi`): the status and payload `search_places` answers. The
  hosted place search is a function parameter.
- **Client service layer** (`ClientApi`). It holds:
  - the mock search with its fallback;
  - the mapping of the backend's answer with JavaScript `||` defaults;
  - the lines of the call prompt.
- **User settings** (`UserSettingsStore`): local storage as a map in a class. A read falls
  back to defaults field by field; a save and a reset each touch one key.
- **Page** (`Page`). It holds:
  - the page's state as a class;
  - the screen that state selects;
  - the handlers that change the state;
  - the call timer's `m:ss` text.
- **Transcript poller** (`PollCalls`): the module-level set of relayed message times and the
  `callEnded` flag, updated by one poll of fetched call data.

`Values` holds the shared JSON value type, together with Python and JavaScript truthiness and
JavaScript property access. `Text` holds ASCII character classes, case mapping, digit
filtering and decimal conversion.

The model follows what the code does, including these behaviours:

- In the first name pattern, `call\s+(?:my\s+)?(friend\s+)?(\w+)`, group 1 is the optional
  `(friend\s+)` group.
  - "call my friend john at 416-555-1234" therefore gives the contact name "Friend " (with
    the trailing space).
  - "call john at 416-555-1234" matches with group 1 absent, and `None.title()` raises.
    `ClassifyRequest` returns that as an `Err`.
  - `CallFriendDecides` proves both outcomes. `ThirdNamePatternRedundant` proves that the
    third name pattern can never change the result.
- In `poll_calls.js` the `call_ended` broadcast reads the undeclared `CALL_ID`. The resulting
  ReferenceError is caught after `callEnded` has been set, so no poll ever sends that
  broadcast (`NoCallEndedBroadcast`).
- `poll_calls.js` reads `response.data` of the global `fetch` response. A fetch `Response` has
  no `data` property, so as written `callData` is always `undefined`. Every poll then throws
  at `callData.messages` and the error is caught: that is the `callData == None` case of
  `PollCalls.Poll`, which changes nothing and sends nothing. The other cases model an HTTP
  client that returns the decoded body as `data`, as the code evidently expects.

## Model

| member | source | states |
|---|---|---|
| Regex.Search | backend/research/request_router.py:41 | `re.search`: a reported match lies inside the text and so do all its groups |
| Regex.SearchSound | backend/research/request_router.py:41 | what the search reports is a production of the pattern from its start to its end, with the groups it reports |
| Regex.SearchComplete | backend/research/request_router.py:41 | if the pattern can produce any stretch of the text, the search reports a match |
| Regex.MatchSound | backend/research/request_router.py:41 | every match the backtracking engine returns at a position is a production of the pattern |
| Regex.MatchComplete | backend/research/request_router.py:41 | wherever a production exists, the backtracking engine returns some match |
| Regex.SearchFromSound | backend/research/request_router.py:41 | the search reports the leftmost position where the engine matches, and reports nothing exactly when no position matches |
| Text.Lower | backend/research/request_router.py:72 | lower-casing keeps the length and maps each character through its ASCII lower case |
| Text.DigitsOf | backend/research/request_router.py:44 | the digit filter yields only digits, and no more characters than its input |
| Text.DigitsOfCounts | backend/research/request_router.py:44 | the filter keeps every digit as often as it occurs and drops every other character |
| Text.DigitsOfAppend | backend/research/request_router.py:44 | filtering a concatenation concatenates the filtered parts |
| Text.DigitsOfDigits | backend/research/request_router.py:44 | filtering a string of digits leaves it unchanged |
| Text.NatToString | hermes-interface/app/page.tsx:219 | decimal text of a natural number: digits only, one character exactly below ten, no leading zero |
| Text.Title | backend/research/request_router.py:76 | `str.title` keeps the length; a character after a letter is lower-cased and any other is upper-cased, so non-letters stay as they are |
| Text.TitleKeepsLowerRun | backend/research/request_router.py:76 | after a letter, a run of lower-case letters followed by non-letters is left as it is |
| RequestRouter.ExtractWith | backend/research/request_router.py:40-50 | the pattern loop: any number it returns has the exact shape `(ddd) ddd-dddd` |
| RequestRouter.ExtractPhoneNumber | backend/research/request_router.py:31-50 | `extract_phone_number`: any number it returns has the exact shape `(ddd) ddd-dddd` |
| RequestRouter.FormatElevenDropsLeadingOne | backend/research/request_router.py:46-48 | the eleven-digit format is the ten-digit format of the digits after the leading one |
| RequestRouter.FormatTenShape | backend/research/request_router.py:46 | ten digits format to 14 characters `(ddd) ddd-dddd` |
| RequestRouter.FormatTenKeepsDigits | backend/research/request_router.py:44-46 | the formatted number holds exactly the ten digits, in order |
| RequestRouter.GenDigits | backend/research/request_router.py:35-37 | every production of a pattern whose optional parts hold no digit has a fixed number of digits |
| RequestRouter.SepBasicCounts | backend/research/request_router.py:35 | the part of the US pattern after `\+?1?` always produces exactly ten digits |
| RequestRouter.CountryCodeDigits | backend/research/request_router.py:35 | the optional `\+?1?` in front of the US pattern produces no digit or the single digit 1 |
| RequestRouter.UsFormatDigits | backend/research/request_router.py:35 | whatever the first phone pattern matches holds ten digits, or eleven starting with 1 |
| RequestRouter.BasicFormatWithinUsFormat | backend/research/request_router.py:35-36 | every production of the basic pattern is one of the US pattern, with the same groups |
| RequestRouter.NoSpacesWithinBasicFormat | backend/research/request_router.py:36-37 | every production of the no-spaces pattern is one of the basic pattern, with the same groups |
| RequestRouter.BasicFormatSubsumed | backend/research/request_router.py:35-36 | if the basic pattern matches a text, the US pattern matches it too |
| RequestRouter.NoSpacesSubsumed | backend/research/request_router.py:36-37 | if the no-spaces pattern matches a text, the basic pattern matches it too |
| RequestRouter.ExtractPhoneByFirstPattern | backend/research/request_router.py:40-50 | the first pattern decides: no match means no number, and a match always returns its ten digits (or the ten after a leading 1) formatted |
| RequestRouter.ExtractPhoneNoneIff | backend/research/request_router.py:40-50 | no number is extracted exactly when none of the three patterns matches anywhere |
| RequestRouter.ExtractPhoneKeepsDigits | backend/research/request_router.py:44-48 | the extracted number carries the matched digits: all ten, or the ten after a leading 1 |
| RequestRouter.FindContactName | backend/research/request_router.py:65-77 | the name loop fails only with the `None.title()` error, and finds no name exactly when every pattern fails to match or captures a stopword |
| RequestRouter.ClassifyRequest | backend/research/request_router.py:52-91 | a business search (query = input, no location) exactly when no number is found; otherwise the contact-name search's `None.title()` error, or exactly the direct call with the found number, the search's name and the original input as purpose |
| RequestRouter.TitleStartsUpper | backend/research/request_router.py:76 | a title-cased word does not start with a lower-case letter |
| RequestRouter.FirstNamePatternDecides | backend/research/request_router.py:71-77 | when every earlier pattern fails to match or captures a stopword, the first pattern that does neither decides: the title case of its group 1, or the `None.title()` error when that group did not take part |
| RequestRouter.ContactNameSource | backend/research/request_router.py:71-77 | a found name is the title case of the group 1 of some pattern, that group is not a stopword, and every earlier pattern did not match or captured a stopword |
| RequestRouter.CallFriendGroup | backend/research/request_router.py:66 | group 1 of the first name pattern, when it takes part, is "friend" followed by white space |
| RequestRouter.FriendOptions | backend/research/request_router.py:66 | after `call\s+`, the optional parts record group 1 exactly when "friend" and white space were taken, and nothing else |
| RequestRouter.TitleFriend | backend/research/request_router.py:76 | "friend" followed by white space title-cases to "Friend" followed by the same white space |
| RequestRouter.CallFriendDecides | backend/research/request_router.py:66-77 | when the first name pattern matches, the result is "Friend" plus the captured white space, or the `None.title()` error when "friend" is absent |
| RequestRouter.CallNameWithinCallFriend | backend/research/request_router.py:66-68 | every production of `call\s+(\w+)` is one of the first name pattern with both optional parts skipped |
| RequestRouter.CallNameSubsumed | backend/research/request_router.py:66-68 | if the third name pattern matches, the first one matches too |
| RequestRouter.ThirdNamePatternRedundant | backend/research/request_router.py:65-77 | the name search over all three patterns equals the search over the first two |
| RequestRouter.DirectCallResult | backend/research/request_router.py:93-104 | the name is the contact name, or "Direct Contact" when it is missing or empty; the phone is unchanged; the address is "Direct phone call"; rating and website are null; the reasoning is the prefix, the name, " for: " and the purpose |
| RequestRouter.DirectCallRecordWellFormed | backend/research/request_router.py:93-104 | a classified direct call yields a record with a non-empty name and the extracted number in `(ddd) ddd-dddd` form |
| CallingService.CleanupPhoneNumber | calling_guy/index.js:40-52 | the result is `+` then digits only: `1` and the digits when there are ten, the digits unchanged for any other count |
| CallingService.DigitsAfterPlus | calling_guy/index.js:41 | a leading `+` is removed by the digit filter |
| CallingService.CleanupIdempotent | calling_guy/index.js:40-52 | cleaning a cleaned number changes nothing |
| CallingService.CleanupKeepsDigits | calling_guy/index.js:41-51 | the result's digits are the input's digits in order, behind a `1` exactly when there were ten |
| CallingService.CleanupFormattedNumber | calling_guy/index.js:43-45 | a `(ddd) ddd-dddd` number cleans to `+1` and its ten digits |
| CallingService.CleanupExtractedNumber | calling_guy/index.js:40-52 | every number the classifier extracts cleans to 12 characters starting with `+1` |
| FlaskApi.Goal | backend/flask_api.py:146 | the query is the `goal` field, or the empty string when it is absent |
| FlaskApi.SearchPlaces | backend/flask_api.py:138-154 | 400 exactly for a falsy body, with no search; a failed body read or any exception gives 500 with its message; a truthy dictionary searches its goal in Toronto, Ontario, CA; a non-empty list gives 200 with the list unchanged, an empty list 404 |
| FlaskApi.OkMeansResults | backend/flask_api.py:149-151 | a 200 answer happens exactly when the search ran and returned a non-empty list |
| FlaskApi.FixedLocation | backend/flask_api.py:149 | the answer depends on the search only through its result for the fixed location |
| ClientApi.FilterMocks | hermes-interface/services/api.ts:59-66 | the filter keeps exactly the mocks that pass its test |
| ClientApi.FilterIsSubsequence | hermes-interface/services/api.ts:59-66 | the filtered mocks are a subsequence of the mocks, in their original order |
| ClientApi.CatchAllKeepsAll | hermes-interface/services/api.ts:63-65 | a query containing "pizza", "food" or "delivery" keeps every mock, in order |
| ClientApi.SearchMocks | hermes-interface/services/api.ts:59-68 | the mock search never returns an empty list; it returns a subsequence of the mocks: the matching ones when some mock matches, and all of them on a catch-all word or when none matches |
| ClientApi.MockSearch | hermes-interface/services/api.ts:53-68 | `searchPlaces` on mock data returns a non-empty subsequence of the three mock businesses, all three on a catch-all word |
| ClientApi.MapItem | hermes-interface/services/api.ts:91-98 | a null item throws on reading `name`; otherwise each field is the item's value when truthy, and `""` (or 0 for the rating) otherwise |
| ClientApi.ReasoningFallback | hermes-interface/services/api.ts:96 | the reasoning is the first truthy one of `reasoning` and `agentReasoning`, else `""` |
| ClientApi.MapItems | hermes-interface/services/api.ts:90-98 | the array is mapped element by element, keeping length and order, and fails exactly when some item is null |
| ClientApi.ReadSearchResponse | hermes-interface/services/api.ts:83-105 | a non-ok status throws "HTTP error! status: n"; a body that fails to decode rethrows; a non-array body gives `[]`; an array is mapped |
| ClientApi.ContextLines | hermes-interface/services/api.ts:122-133 | the opening lines hold the date, the request and the business's name, phone and address at fixed positions |
| ClientApi.InstructionLines | hermes-interface/services/api.ts:136-160 | the instruction lines hold the user's callback number at a fixed position |
| ClientApi.GoalLines | hermes-interface/services/api.ts:136-144 | the goal and the first instructions are seven lines, ahead of the callback number |
| ClientApi.RuleLines | hermes-interface/services/api.ts:146-160 | the instructions after the callback number are fifteen lines, ending the prompt |
| ClientApi.PromptLines | hermes-interface/services/api.ts:108-161 | the rating line is present exactly when the rating is truthy, and the address line exactly when an address is given; name and phone default to "Evan" and "705-606-0865" |
| ClientApi.SplitJoin | hermes-interface/services/api.ts:122-160 | splitting the joined lines at line breaks gives the lines back when none of them holds a break |
| PromptTemplate.TemplateNoBreak | hermes-interface/services/api.ts:122-160 | no fixed text of the template holds a line break |
| ClientApi.PromptLinesNoBreaks | hermes-interface/services/api.ts:108-161 | no prompt line holds a break when none of the inserted values does |
| ClientApi.GenerateCallPrompt | hermes-interface/services/api.ts:108-161 | the prompt is as long as its 35 lines plus the 34 breaks between them, and splits back into exactly those lines whenever no inserted value holds a break |
| UserSettingsStore.FieldOr | hermes-interface/utils/userSettings.ts:22-24 | a field is the stored value when present and truthy, and the default otherwise |
| UserSettingsStore.Load | hermes-interface/utils/userSettings.ts:11-32 | no window, nothing stored, an empty or unparseable value, or a stored null gives the defaults; a stored document gives each field or its default |
| UserSettingsStore.Filled | hermes-interface/utils/userSettings.ts:22-24 | a saved setting reads back as itself when non-empty and as its default when empty |
| UserSettingsStore.SaveLoadRoundTrip | hermes-interface/utils/userSettings.ts:40 | reading back a save gives the saved settings with empty fields replaced by their defaults, whatever else is stored |
| UserSettingsStore.LoadReadsOnlyKey | hermes-interface/utils/userSettings.ts:17 | the read depends on the `hermes_user_settings` entry alone |
| UserSettingsStore.SettingsStore.Get | hermes-interface/utils/userSettings.ts:11-32 | `getUserSettings` on the current storage: the defaults without a window, without a stored document or for a stored null; otherwise each stored field or its default |
| UserSettingsStore.SettingsStore.Save | hermes-interface/utils/userSettings.ts:34-44 | with a window, only the settings key is written, and the next read gives the filled settings; without one nothing changes |
| UserSettingsStore.SettingsStore.Reset | hermes-interface/utils/userSettings.ts:46-56 | with a window, only the settings key is removed; the next read gives the defaults |
| Page.CallScript | hermes-interface/app/page.tsx:154-167 | twelve scripted lines, the first dialling the business by name, the last "Call completed successfully" |
| Page.SelectScreen | hermes-interface/app/page.tsx:223-546 | call results when shown and present; else the active call when on a call with a business; else the results when shown; else the homepage |
| Page.PadTwo | hermes-interface/app/page.tsx:219 | `padStart(2, "0")`: at least two characters, zeros in front of a shorter string |
| Page.FormatDuration | hermes-interface/app/page.tsx:216-220 | for a non-negative count: minutes without a leading zero, a colon and exactly two digits, reading back as the minutes and the seconds below 60 |
| Page.MinSecText | hermes-interface/app/page.tsx:216-220 | minutes, a colon and seconds below 60 padded to two characters split back into parts that read as those numbers |
| Page.TwoDigitsParse | hermes-interface/app/page.tsx:219 | a number below 100, padded, is two digits that read back as it |
| Page.DurationRoundTrip | hermes-interface/app/page.tsx:216-220 | reading the timer text back gives the number of seconds |
| Page.FormatDurationInjective | hermes-interface/app/page.tsx:216-220 | distinct second counts show as distinct texts |
| Page.HermesPage.constructor | hermes-interface/app/page.tsx:116-126 | the initial state selects the homepage |
| Page.HermesPage.HandleExecute | hermes-interface/app/page.tsx:128-140 | a blank query changes nothing; otherwise the mock results are shown |
| Page.HermesPage.HandleSuggestionClick | hermes-interface/app/page.tsx:142-144 | the suggestion becomes the query and nothing else changes |
| Page.HermesPage.HandleExecuteCall | hermes-interface/app/page.tsx:146-179 | the call starts with the business and an empty transcript, the script is appended line by line in order, and the call ends on the mock result |
| Page.HermesPage.HandleYoloMode | hermes-interface/app/page.tsx:181-187 | a blank query changes nothing; otherwise the state is that of a finished call to the first mock result, with query, results, processing flag and mute kept |
| Page.HermesPage.HandleNewTask | hermes-interface/app/page.tsx:195-203 | clears the view flags, query, results, call result and business, so the homepage shows; timer, transcript and mute are kept |
| PollCalls.KeyOf | calling_guy/poll_calls.js:18 | `undefined` is a key of its own; integers and reals are one JavaScript number; any other primitive is its own key; a decoded object or array is a new key each time |
| PollCalls.Unseen | calling_guy/poll_calls.js:18 | the filter keeps exactly the messages whose time is not in the set as it was before the poll, in their order |
| PollCalls.UnseenCounts | calling_guy/poll_calls.js:18 | the filter keeps each unseen message as many times as it occurs |
| PollCalls.Poll | calling_guy/poll_calls.js:6-34 | a poll never shrinks the set of times, never clears `callEnded`, sends only message broadcasts, sets `callEnded` on an `ended` status when it does not throw first, and leaves it alone when it throws |
| PollCalls.KeysOf | calling_guy/poll_calls.js:20 | the recorded set holds the key of every message time that can be a key |
| PollCalls.KeysOfFromMessages | calling_guy/poll_calls.js:20 | every recorded key is the key of some message's time |
| PollCalls.Texts | calling_guy/poll_calls.js:19-22 | one message broadcast per message, in order, carrying its `message` |
| PollCalls.KeysOfUnseen | calling_guy/poll_calls.js:18-21 | recording only the unseen messages leaves the same set as recording them all |
| PollCalls.PollRecordsAllTimes | calling_guy/poll_calls.js:17-21 | the set becomes the old set plus the times of all messages; a poll that throws or has no message array leaves it unchanged; it never shrinks |
| PollCalls.PollRelaysUnseen | calling_guy/poll_calls.js:17-22 | a poll relays exactly the messages whose time was not seen before, in order, and nothing when it throws |
| PollCalls.NoCallEndedBroadcast | calling_guy/poll_calls.js:26-33 | no poll sends the `call_ended` broadcast |
| PollCalls.PollEndedMonotone | calling_guy/poll_calls.js:26-27 | `callEnded` only moves from false to true, only on an `ended` status, always on one when the poll does not throw first, and never when it throws |
| PollCalls.SameTimeBothRelayed | calling_guy/poll_calls.js:18-22 | two new messages with the same time in one poll are both relayed |
| PollCalls.UnseenPair | calling_guy/poll_calls.js:18 | two messages whose times were not seen both pass the filter, in order |
| PollCalls.CallPoller.FilterUnseen | calling_guy/poll_calls.js:18 | the filter loop yields the unseen messages, or fails exactly when a message is null |
| PollCalls.CallPoller.RelayAll | calling_guy/poll_calls.js:19-22 | the `forEach` loop adds each time to the set and relays each text, in order |
| PollCalls.CallPoller.PollCall | calling_guy/poll_calls.js:6-34 | the new set, flag and broadcasts are those of the pure poll on the old state |

## Left out

- Hosted services. The OpenAI place search is a function parameter of `FlaskApi.SearchPlaces`.
  The Vapi call creation, the Express route and Google Calendar are not part of this model.
- Network I/O.
  - The fetch in `searchPlaces` is left out; its decoded body is a parameter.
  - The fetch in `pollCall` is left out. Its `response.data` is the parameter `callData`:
    `None` for the `undefined` the global `fetch` gives, or a decoded body for an HTTP
    client that provides one.
  - `request.get_json()` is a parameter that holds the decoded body or the message of the
    exception it raised.
  - The broadcast transport is not modelled; a poll returns what it would broadcast.
- Timers and delays. Each handler is one sequential step. The page's one-second tick of
  `callDuration` is not modelled, and neither is the interleaving of handlers during the
  simulated waits.
- Console logging in every `catch` block.
- Unicode. Regular-expression classes, `str.title` and `toLowerCase` are modelled on ASCII
  only. `trim` removes the full JavaScript white-space set, but no other Unicode behaviour is
  modelled.
- Floating point. Ratings are `real`; `${rating}` in the prompt is the function parameter
  `numberText`.
- `new Date().toLocaleDateString(...)` in `generateCallPrompt` is the parameter `currentDate`.
- ClientApi.GenerateCallPrompt: when an inserted value (the request, a business field, the
  user's name, phone or address, the date or the rating text) holds a line break, the contract
  gives only the prompt's length, not its lines.
- Storage failures. `setItem`/`removeItem` throwing (quota, disabled storage) is not modelled:
  a save with a window always writes.
- `JSON.stringify`/`JSON.parse` as text. Stored values are kept by what `JSON.parse` makes of
  them.
- PollCalls.KeyOf: a message time that is a JSON object or array is a fresh object on every
  poll. It never equals a key already in the set, so the model does not record it; the set of
  recorded keys leaves out such times.
- Page.FormatDuration: for a negative count the model states only that the text starts with a
  minus sign. The counter never goes below zero.
- The JSX of every screen, and the other components, are not part of this model.
- `makeCall` in hermes-interface/services/api.ts is not part of this model. It is a fetch to
  the calling service.
