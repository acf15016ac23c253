# SoilCare core, modelled in Dafny

SoilCare is a small web application about soil health. This project models the parts of it whose behaviour can be stated exactly:

- **SoilBot** (`soil_bot.dfy`, module `SoilBot`). The chat page's keyword reply selector `getBotResponse` and the page's message log. The log is a class `ChatLog` holding the messages, the input text and the typing flag. `handleSendMessage` is split into its two halves: `Send` runs now, and `DeliverBot` is the deferred bot reply. The selector is also restated as a priority-ordered rule table (`Rules`, `FirstMatch`), and a lemma proves the two agree.
- **Learning cards** (`learn.dfy`, module `Learn`). The six fixed cards, and the `filteredCards` filter: a category test (with the wildcard `"all"`) and a case-insensitive substring search over title or description. The page state is a class `LearnPage` with the search and category setters and the "Show All Topics" reset.
- **Request validators** (`validators.dfy`, module `Validators`). `CreateUserSchema`, `SignInSchema` and `chatSchema`, modelled as parsers from a JSON value (`JsValues.JsValue`) to a typed record. A parser returns `None` whenever the schema would reject the input. The e-mail format check is a function parameter `isEmail`.
- **Auth gate** (`auth_gate.dfy`, module `AuthGate`). The `middleware` decision over the `authorization` header and the result of token verification. Verification is a function parameter `verify` returning `Throws`, `StringPayload` or `ObjectPayload(claims)`. The pure decision is `Decide`. The imperative `Middleware` method writes the status to a `Response`, attaches `userId` to a `Request` and counts the calls of a `Continuation` (`next`).
- Shared helpers (`text.dfy`: `Wrappers`, `JsText`; `js_values.dfy`: `JsValues`). These cover JavaScript's `toLowerCase`, `trim` and `includes`, and JavaScript truthiness.

On these points the model follows the code:

- An empty `authorization` header is treated like a missing one (401).
- A payload is accepted when its `userId` is truthy, not merely present.
- The chat roles are `"User"`/`"Agent"`, matched case-sensitively.

## Model

| member | source | states |
|---|---|---|
| SoilBot.GetBotResponse | frontend/src/app/chat/page.tsx:63-76 | the reply is always one of the eight fixed texts (five topic replies, greeting, thanks, default) |
| SoilBot.SelectReply | frontend/src/app/chat/page.tsx:66-75 | the if-chain on the lower-cased message always yields one of the fixed texts |
| SoilBot.KeywordsAndRepliesFromTable | frontend/src/app/chat/page.tsx:41-75 | the ten keywords are the rule table's keywords in order, and the eight reply texts are the table's replies plus the default |
| SoilBot.FirstMatch | frontend/src/app/chat/page.tsx:66-73 | reference reading of the chain: the index returned is a matching rule and no earlier rule matches; `None` only when no rule matches |
| SoilBot.SelectReplyFollowsTable | frontend/src/app/chat/page.tsx:66-75 | the if-chain equals the first-match-wins rule table sand(y) → ph → worm → water(ing) → compost → hello/hi → thank, default otherwise |
| SoilBot.GetBotResponseFollowsTable | frontend/src/app/chat/page.tsx:63-76 | the reply is the table's reply for the lower-cased question |
| SoilBot.ReplyIgnoresCase | frontend/src/app/chat/page.tsx:64 | a question and its lower-cased form get the same reply |
| SoilBot.DefaultIffNoKeyword | frontend/src/app/chat/page.tsx:66-75 | the default reply is given if and only if none of the ten keywords occurs in the lower-cased question |
| SoilBot.SandOutranksPh | frontend/src/app/chat/page.tsx:66-67 | any question containing "sand" gets the sandy reply, whatever else it contains (e.g. "ph") |
| SoilBot.PhMatchesInsideWords | frontend/src/app/chat/page.tsx:67 | any question containing "ph" anywhere and no "sand" gets the pH reply |
| SoilBot.PhotoGetsPhReply | frontend/src/app/chat/page.tsx:67 | "Photo of my garden" gets the pH reply (substring, not word, matching) |
| SoilBot.WhichIsBestKeywords | frontend/src/app/chat/page.tsx:66-71 | of all keywords, only "hi" occurs in "which is best?" |
| SoilBot.WhichGetsGreeting | frontend/src/app/chat/page.tsx:71-72 | "Which is best?" gets the greeting, because "which" contains "hi" |
| SoilBot.SandyQuickReplyOnTopic | frontend/src/app/chat/page.tsx:34-66 | the first suggestion button gets the sandy reply |
| SoilBot.PhQuickReplyOnTopic | frontend/src/app/chat/page.tsx:35-67 | the second suggestion button gets the pH reply |
| SoilBot.WormsQuickReplyOnTopic | frontend/src/app/chat/page.tsx:36-68 | the third suggestion button gets the worms reply |
| SoilBot.ChatLog.constructor | frontend/src/app/chat/page.tsx:20-29 | a fresh log holds one bot welcome message with id 1, empty input, not typing |
| SoilBot.ChatLog.SetInputText | frontend/src/app/chat/page.tsx:230 | only the input text changes |
| SoilBot.ChatLog.QuickReply | frontend/src/app/chat/page.tsx:105-108 | a suggestion fills the input text; log and typing flag unchanged |
| SoilBot.ChatLog.Send | frontend/src/app/chat/page.tsx:78-102 | blank input (all JavaScript whitespace) changes nothing; otherwise exactly one user message (id \|messages\|+1, raw untrimmed text, not bot) is appended, input is cleared, typing is set, and the pending reply carries id \|messages\|+2 (pre-send length) and the reply to the original text |
| SoilBot.ChatLog.DeliverBot | frontend/src/app/chat/page.tsx:93-101 | exactly one bot message with the pending id and text is appended and typing is cleared; input untouched |
| SoilBot.ChatLog.PressKey | frontend/src/app/chat/page.tsx:110-114 | Enter sends even while a reply is pending; other keys change nothing |
| SoilBot.ChatLog.ClickSend | frontend/src/app/chat/page.tsx:237-238 | the button does nothing while the input is blank or a reply is pending, otherwise it sends |
| SoilBot.EnterWhileTypingDuplicatesIds | frontend/src/app/chat/page.tsx:78-114 | pressing Enter again before the first reply arrives yields ids 1, 2, 3, 3, 4: ids are not unique |
| JsText.IsJsWhitespace | frontend/src/app/chat/page.tsx:79 | the characters `trim()` removes: space, tab, line feed and carriage return are among them, and no printable ASCII character other than space is |
| JsText.TrimStart | frontend/src/app/chat/page.tsx:79 | the result is a suffix of the input, everything dropped is whitespace, and it does not start with whitespace |
| JsText.TrimEnd | frontend/src/app/chat/page.tsx:79 | the result is a prefix of the input, everything dropped is whitespace, and it does not end with whitespace |
| JsText.TrimEmptyIffBlank | frontend/src/app/chat/page.tsx:79 | `trim()` yields "" exactly when every character is whitespace |
| JsText.Trim | frontend/src/app/chat/page.tsx:79 | `trim()` returns a contiguous piece of the input with only whitespace before and after it, itself neither starting nor ending with whitespace |
| JsText.TrimsToEmpty | frontend/src/app/chat/page.tsx:79 | the `!inputText.trim()` test returns true exactly for blank text |
| JsText.ToLower | frontend/src/app/chat/page.tsx:64 | each upper-case ASCII letter becomes its own lower-case letter (none remains); length and all other characters are kept |
| JsText.ToLowerIdempotent | frontend/src/app/learn/page.tsx:104-105 | lower-casing twice equals lower-casing once |
| JsText.ContainsPrefixOf | frontend/src/app/chat/page.tsx:66 | a string containing "sandy" contains "sand": whatever contains `t` contains every prefix of `t` |
| JsText.MissingCharNotContained | frontend/src/app/chat/page.tsx:66-73 | a needle using a character absent from the haystack is not contained |
| JsText.Contains | frontend/src/app/chat/page.tsx:66-73 | `includes`: the needle occurs at some position; "" occurs in every string and nothing longer than the haystack occurs |
| Learn.MatchesCategory | frontend/src/app/learn/page.tsx:102 | "all" passes every card; any other category passes only cards of that category |
| Learn.MatchesSearch | frontend/src/app/learn/page.tsx:103-105 | an empty search matches every card; a term longer than both title and description matches none |
| Learn.Keep | frontend/src/app/learn/page.tsx:106 | a card is shown only if it matches both tests: with category "all" and an empty search every card passes, and under a named category only that category's cards pass |
| Learn.FilterCards | frontend/src/app/learn/page.tsx:101-107 | a card is kept if and only if it passes both the category and the search test; nothing is added |
| Learn.FilterIsSubsequence | frontend/src/app/learn/page.tsx:101 | the filtered list is an order-preserving subsequence of the card list |
| Learn.CategoryFilterKeepsOnlyThatCategory | frontend/src/app/learn/page.tsx:102 | with a category other than "all", every kept card has that category |
| Learn.SearchIgnoresCase | frontend/src/app/learn/page.tsx:103-105 | a search term and its lower-cased form select the same cards |
| Learn.ContentNotSearched | frontend/src/app/learn/page.tsx:103-105 | changing a card's content never changes whether it is kept |
| Learn.CardCategoriesHaveButtons | frontend/src/app/learn/page.tsx:19-99 | every card's category is one of the category buttons |
| Learn.FilterShowsAllWhenUnfiltered | frontend/src/app/learn/page.tsx:26-107 | category "all" with an empty search returns the whole list |
| Learn.LearnPage.constructor | frontend/src/app/learn/page.tsx:12-13 | the page starts with an empty search and category "all" |
| Learn.LearnPage.FilteredCards | frontend/src/app/learn/page.tsx:101-107 | the shown cards are exactly the learning cards that pass the current category and search |
| Learn.LearnPage.SetSearchTerm | frontend/src/app/learn/page.tsx:157 | only the search term changes |
| Learn.LearnPage.SelectCategory | frontend/src/app/learn/page.tsx:168 | only the category changes |
| Learn.LearnPage.ShowAllTopics | frontend/src/app/learn/page.tsx:261-264 | the reset sets search "" and category "all", after which all six cards show |
| Validators.StringField | backend/src/validators/zodSchema.ts:4-11 | a field is read only when present and a string, and the value returned is that string |
| Validators.NameOk | backend/src/validators/zodSchema.ts:5-8 | the empty name and names over 100 characters fail |
| Validators.PasswordOk | backend/src/validators/zodSchema.ts:9-11 | the empty password and any password under 8 characters fail |
| Validators.ParseCreateUser | backend/src/validators/zodSchema.ts:3-12 | a body is accepted iff it is an object whose email passes the e-mail check, whose name has 1 to 100 characters and whose password has at least 8; the record holds exactly those strings |
| Validators.ParseSignIn | backend/src/validators/zodSchema.ts:14-19 | a body is accepted iff it is an object with an e-mail passing the check and a password of at least 8 characters, returned verbatim |
| Validators.ParseRole | backend/src/validators/zodSchema.ts:22 | the role is accepted exactly for the strings "User" and "Agent" |
| Validators.ParseChat | backend/src/validators/zodSchema.ts:21-24 | a body is accepted iff it is an object whose role is exactly "User" or "Agent" and whose message is a string; the record carries that role and message |
| Validators.CreateUserNameBounds | backend/src/validators/zodSchema.ts:5-8 | with valid e-mail and password, sign-up is accepted iff the name has 1 to 100 characters; "" is rejected |
| Validators.PasswordMinimum | backend/src/validators/zodSchema.ts:9-18 | in both user schemas a password is accepted iff it has at least 8 characters; sign-in judges it whatever the name, and on the name-less sign-in body |
| Validators.SignInNeedsNoName | backend/src/validators/zodSchema.ts:14-19 | sign-in accepts a valid e-mail and password with the name missing or anything at all under "name" |
| Validators.SignInIsCreateUserWithoutName | backend/src/validators/zodSchema.ts:3-19 | sign-in accepts every body sign-up accepts, with the same credentials; a body sign-in accepts passes sign-up iff it also has a valid name |
| Validators.CreateUserIgnoresOtherKeys | backend/src/validators/zodSchema.ts:3-12 | adding a key other than email, name and password never changes the sign-up outcome |
| Validators.SignInIgnoresOtherKeys | backend/src/validators/zodSchema.ts:14-19 | adding a key other than email and password ("name" included) never changes the sign-in outcome |
| Validators.ChatIgnoresOtherKeys | backend/src/validators/zodSchema.ts:21-24 | adding a key other than role and message never changes the chat outcome |
| Validators.ChatRoleAndMessage | backend/src/validators/zodSchema.ts:21-24 | "User" and "Agent" are accepted with any message (including ""), "user" is rejected |
| JsValues.Truthy | backend/src/middleware.ts:26 | JavaScript truthiness: `null`, `false`, `0` and `""` are falsy, other numbers and strings are truthy, and every array and object is truthy |
| AuthGate.HasUserId | backend/src/middleware.ts:26 | a payload passes the `!decoded.userId` test only if `userId` is present and is none of `null`, `false`, `0`, `""`; an array or object id passes |
| AuthGate.Decide | backend/src/middleware.ts:15-35 | every call is a 401, a 403 or a pass; 401 iff the header is missing or empty; pass iff verification yields an object with a truthy `userId`, which is the id passed on |
| AuthGate.VerifyThrowsForbidden | backend/src/middleware.ts:24-34 | a token whose verification throws gets 403 "Unauthorized" |
| AuthGate.InvalidPayloadForbidden | backend/src/middleware.ts:26-28 | a string payload, or an object with a missing or falsy `userId`, gets 403 "Unauthorized - Invalid token" |
| AuthGate.EmptyUserIdForbidden | backend/src/middleware.ts:26-27 | an empty-string `userId` gets 403 |
| AuthGate.BearerPrefixNotStripped | backend/src/middleware.ts:16-24 | the header goes to verification verbatim: "Bearer t" is refused when verify refuses it, even though "t" alone would pass |
| AuthGate.DecisionUsesVerifyOnlyAtHeader | backend/src/middleware.ts:16-24 | the decision depends on verification only through its result on the header value |
| AuthGate.Response.Send | backend/src/middleware.ts:19-21 | the status and message of the response are set |
| AuthGate.Middleware | backend/src/middleware.ts:10-36 | on rejection the status and message are written and `next` is not called and `userId` is unchanged; on success `userId` is attached, `next` is called once and no status is written; on a fresh response exactly one of the two happens |

## Left out

- `JsText.ToLower`: lower-cases ASCII letters only. JavaScript's `toLowerCase` applies full Unicode case mapping, which can change the length of a string.
- String lengths are counted in Unicode scalar values. JavaScript and zod's `min`/`max` count UTF-16 code units, so a name with characters outside the Basic Multilingual Plane (emoji) is longer in the source than here.
- The e-mail format check of `z.email()` is the parameter `isEmail`, not an implementation.
- The validators return `None` on failure; zod's issue list and messages are not modelled.
- JSON numbers are integers. Floating point, `NaN`, `-0` and `undefined` values are not modelled, and neither are their truthiness.
- Signature and expiry checking inside `jwt.verify` is the parameter `verify`, and `JWT_SECRET` is folded into it.
- `AuthGate.Middleware`: assumes `next()` does not throw. In the source, a synchronous throw from `next()` is caught by the same `catch` and would also send 403 after `next` was called. The `console.error` logging and the JSON body wrapper are not modelled.
- The 1500 ms `setTimeout` is not modelled as time. The deferred half is the explicit step `DeliverBot`, which the caller runs with the `PendingReply` that `Send` returned, at any later point and in any order.
- React state is modelled as fields that are updated at once, and each user event sees the current state. React's batching of state updates and re-rendering are not modelled. The captured values of the deferred callback (the pre-send length and text) are modelled.
- Message timestamps, `toLocaleTimeString`, scrolling, focus, and the disabled microphone button are not modelled.
- On the learning page, the `isVisible` animation flag and the audio/video buttons (which only log) are not modelled.
- All page rendering and styling are not modelled: the home, about, results, upload, sign-in and sign-up pages, the navigation bar and the animated border. The network calls of those pages are not modelled either.
- `backend/src/routes/upload.ts` (an image-host proxy whose only local rule is a 400 for a missing file) and `backend/src/index.ts` (server start-up) are not part of this model.
- The server-side sign-up, sign-in and chat handlers, password hashing and the language-model call are not modelled.
