# Chat streaming, auth state and form logic of the agent dashboard, in Dafny

This project models the non-trivial logic of a Next.js agent dashboard and proves its properties.

**The chat pipeline**
- The server route scans the model's reply for fenced code blocks (`extractCodeBlocks`) with the regular expression ```` /```(\w+)?\n([\s\S]*?)```/g ````.
- It relays the vendor's deltas as a stream of `chunk` events and one final `done` event (`makeIterator`).
- Two clients consume that output:
  - the `useChat` hook, which reads "data: " lines and rewrites the last assistant message;
  - the `ChatInterface` panel, which splits each read on line feeds and updates or removes messages by id.

**Around the pipeline**
- The auth provider: its reducer, error classification, and the login, logout and token-refresh sequences.
- The agent-creation questionnaire.
- The signup and login form schemas, and the signup server-error mapping.
- The customer and store list filters.
- The tool card's link slug.
- The FAQ accordion.

**Form of the model.** It follows the source.
- Loops that mutate local state are methods with loop invariants: the two regex loops, `makeIterator`, and both stream readers.
- Each is proved equal to a pure specification function, and the properties are proved about that function.
- React components whose handlers update state become classes: `ChatHook`, `ChatPanel`, `AuthProvider`, `AgentChat`, `SignupPage` and `Accordion`.
- `AuthProvider` keeps a log of its effects: dispatches, toasts, navigations and storage writes. Its invariant is that its reducer state is the fold of the dispatched actions over the initial state.

**The scanner's reference definition.** The scanner is modelled on the regex itself, not on Markdown.
- `Scans` states what a correct tokenisation into gaps and matches is, without mentioning the search.
- The scanner's tokenisation is proved correct, and proved to be the only correct one.

**Behaviours of the code the model keeps as written.**
- **Whitespace gaps.** `extractCodeBlocks` pushes a text artifact for every non-empty gap before a block, even an all-whitespace one. Its content is then "".
- **No fence.** Input without a complete fence gives exactly one text artifact holding the whole input trimmed, not an empty list. Only the empty input gives an empty list.
- **No carry-over between reads.** `ChatInterface` does not carry a partial line over to the next read: each read is split on its own.
- **Errors in `useChat`.** `sendMessage` appends an apology message on error and does not remove the placeholder.
- **The password-match rule.** The signup schema's password-match refinement is evaluated even when a field check fails. zod marks failed string checks as "dirty", not "aborted", so the form shows the mismatch alongside the field errors.

## Model

| member | source | states |
|---|---|---|
| CodeBlocks.MatchAt | app/api/chat/openai/route.ts:109 | a match found at an index is a complete fence: "```", a word run, a line feed, a body free of fences, and the closing fence |
| CodeBlocks.MatchAtIsComplete | app/api/chat/openai/route.ts:109 | every match of the pattern starting at an index is the one found there; the language group is greedy and must be followed directly by a line feed |
| CodeBlocks.MatchesAtAreUnique | app/api/chat/openai/route.ts:109 | at most one match starts at any index (the lazy body stops at the first closing fence) |
| CodeBlocks.LanguageRunIsMaximal | app/api/chat/openai/route.ts:109 | the language of a match is the maximal run of word characters after the opening fence |
| CodeBlocks.FindMatchIsLeftmost | app/api/chat/openai/route.ts:114 | `exec` from `lastIndex` finds a match whenever one starts at or after it, and the leftmost one |
| CodeBlocks.NothingBeforeFound | app/api/chat/openai/route.ts:114 | no match starts between `lastIndex` and the match found, nor anywhere after it when none is found |
| CodeBlocks.SegmentsScan | app/api/chat/openai/route.ts:114-141 | the scanner's walk over the text is a correct tokenisation (gaps without match starts, each followed by a block, blocks that are matches) |
| CodeBlocks.ScansIsUnique | app/api/chat/openai/route.ts:114-141 | every correct tokenisation is the scanner's |
| CodeBlocks.FirstBlockIsFound | app/api/chat/openai/route.ts:114-121 | in a correct tokenisation the first block is the first match found, preceded by at most one gap |
| CodeBlocks.ScansShape | app/api/chat/openai/route.ts:114-132 | segments are non-empty, each ends where the next begins (matches do not overlap and come left to right), a gap is always followed by a block |
| CodeBlocks.ScansSpellsText | app/api/chat/openai/route.ts:116-141 | the untrimmed pieces of a correct tokenisation concatenate to exactly the text from the start index |
| CodeBlocks.SegmentsPartitionText | app/api/chat/openai/route.ts:116-141 | the untrimmed pieces (gap, match, gap, ..., tail) concatenate to exactly the input |
| CodeBlocks.ExtractCodeBlocks | app/api/chat/openai/route.ts:108-144 | the while loop over `exec` returns exactly the specification list `Extract(text)` |
| CodeBlocks.PushMatch | app/api/chat/openai/route.ts:116-130 | one turn pushes the trimmed text since `lastIndex` when the match starts later, then the code artifact |
| CodeBlocks.ExtractFollowsSegments | app/api/chat/openai/route.ts:116-141 | the k-th artifact is the artifact of the k-th segment: a gap as its trimmed text, a match as its trimmed body with its language |
| CodeBlocks.NoAdjacentTextArtifacts | app/api/chat/openai/route.ts:116-121 | a text artifact is always followed by a code artifact or is last |
| CodeBlocks.ArtifactsAreTextOrCode | app/api/chat/openai/route.ts:117-130 | every artifact is text (no metadata) or code with a non-empty language |
| CodeBlocks.CodeIffMatch | app/api/chat/openai/route.ts:114-130 | some code artifact is produced if and only if the input holds a complete fence |
| CodeBlocks.NoMatchIsOneText | app/api/chat/openai/route.ts:136-141 | without a complete fence the result is the whole input trimmed as one text artifact, or nothing for empty input |
| CodeBlocks.PlaintextExample | app/api/chat/openai/route.ts:126-128 | a fence without language word gives language "plaintext" and the trimmed body |
| CodeBlocks.SpaceAfterLanguageExample | app/api/chat/openai/route.ts:109 | "```js x" followed by a line starts no match |
| CodeBlocks.DanglingFenceExample | app/api/chat/openai/route.ts:136-141 | an unterminated fence stays inside the one text artifact |
| ChatRoute.MakeIterator | app/api/chat/openai/route.ts:159-184 | the loop over the vendor deltas yields exactly the specification stream `Relay(deltas)` |
| ChatRoute.Contents | app/api/chat/openai/route.ts:161-162 | the truthy deltas are non-empty and no more numerous than the deltas |
| ChatRoute.RelayShape | app/api/chat/openai/route.ts:159-184 | one `chunk` per truthy delta in order, carrying that delta and the concatenation so far; then one `done` with the full concatenation; every event carries `extractCodeBlocks` of its own text |
| ChatRoute.OneDoneLast | app/api/chat/openai/route.ts:177-183 | exactly one `done` event, and it is the last |
| ChatRoute.NoContentIsEmptyDone | app/api/chat/openai/route.ts:150-151 | without truthy deltas the stream is a single `done` with empty text and no artifacts |
| ChatRoute.Post | app/api/chat/openai/route.ts:193-201 | a failing vendor call gives a 500 with the fixed error text and the error's message; otherwise the relayed stream |
| UseChat.DetectAndCreateArtifacts | hooks/useChat.ts:10-31 | the regex loop returns exactly the specification list `Detect(content)` |
| UseChat.DetectFromIsTitledCode | hooks/useChat.ts:14-28 | the hook finds exactly the route scanner's code artifacts, in order, with the same content and language, titled, and nothing for the text between |
| UseChat.DetectedAreTitledCode | hooks/useChat.ts:18-26 | every detected artifact is code with a non-empty language and title "<language> Code Block" |
| UseChat.CodeOnly | hooks/useChat.ts:17-28 | only code artifacts are kept |
| UseChat.LineContentCases | hooks/useChat.ts:50-60 | blank lines, lines without "data: ", "[DONE]" and unparsable payloads contribute nothing; a contribution is a non-empty content of a parsed payload |
| UseChat.SkippedLineIsTransparent | hooks/useChat.ts:80-82 | a line that contributes nothing (a parse failure included) does not stop or alter the handling of later lines |
| UseChat.ReplaceLastFrame | hooks/useChat.ts:63-77 | only the last message is rewritten, only when it is an assistant message, with the accumulated content and the detected artifacts or none |
| UseChat.ReplaceLastTwice | hooks/useChat.ts:63-77 | a later update overrides an earlier one |
| UseChat.StreamedShape | hooks/useChat.ts:57-78 | the stream rewrites only the trailing placeholder, which ends with all non-empty contents concatenated |
| UseChat.SendResultShape | hooks/useChat.ts:96-136 | earlier messages stay; user message then placeholder, each with the id of its own clock reading (the placeholder's plus one); the placeholder is never removed; an error appends the apology after it |
| UseChat.ChatHook.HandleLine | hooks/useChat.ts:50-82 | one line adds its content to the accumulated text and applies the updater, or changes nothing |
| UseChat.ChatHook.ProcessStreamResponse | hooks/useChat.ts:33-88 | after all reads the list is the specification `Streamed` of the contents of every line of every read; a read error is reported |
| UseChat.ChatHook.SendMessage | hooks/useChat.ts:90-137 | the list is `SendResult` of the request's outcome and `isLoading` is false afterwards |
| ChatInterface.LinesShape | components/GlobalChat/ChatInterface/ChatInterface.tsx:230-231 | the lines of a read contain no line feed and are not blank; a piece is kept iff it is not blank, as many times as it occurs, and the lines keep the pieces' order |
| ChatInterface.ApplyChunkFrame | components/GlobalChat/ChatInterface/ChatInterface.tsx:237-248 | a `chunk` record sets content and artifacts (or []) of the messages with that id only; length, order and every other message unchanged |
| ChatInterface.ApplyChunkTwice | components/GlobalChat/ChatInterface/ChatInterface.tsx:237-248 | a later record overrides an earlier one |
| ChatInterface.ApplyChunkAbsent | components/GlobalChat/ChatInterface/ChatInterface.tsx:237-248 | a record for an id no message has changes nothing |
| ChatInterface.RemoveByIdSpec | components/GlobalChat/ChatInterface/ChatInterface.tsx:339 | a message survives removal iff it was present and has another id |
| ChatInterface.RemoveAppended | components/GlobalChat/ChatInterface/ChatInterface.tsx:339 | removing the id of a freshly appended message gives back the list before it |
| ChatInterface.RejectedLeavesUserMessage | components/GlobalChat/ChatInterface/ChatInterface.tsx:318-341 | a failed fetch or a response that is not ok or has no body removes exactly the placeholder; the user message stays |
| ChatInterface.AcceptedKeepsPlaceholder | components/GlobalChat/ChatInterface/ChatInterface.tsx:304-336 | an accepted request keeps the placeholder last, with the last record's complete message |
| ChatInterface.ReadErrorKeepsPlaceholder | components/GlobalChat/ChatInterface/ChatInterface.tsx:255-260 | a read error only ends the stream early; the placeholder is not removed |
| ChatInterface.ChatPanel.HandleLine | components/GlobalChat/ChatInterface/ChatInterface.tsx:234-252 | a line parsed as a `chunk` record applies it; anything else changes nothing |
| ChatInterface.ChatPanel.ProcessStream | components/GlobalChat/ChatInterface/ChatInterface.tsx:219-261 | the records of every non-blank line of every read are applied in order, and `isLoading` is false afterwards in every case |
| ChatInterface.ChatPanel.HandleSubmit | components/GlobalChat/ChatInterface/ChatInterface.tsx:296-342 | a blank input or a pending request changes nothing; otherwise the trimmed input and the placeholder are appended, the input cleared, and the result is `Submitted` of the request's outcome, not loading |
| AuthContext.SetUserEffect | context/AuthContext.tsx:35-41 | `SET_USER` sets the user, signs in, stops loading, keeps the tokens |
| AuthContext.SetTokensAndLoadingFrame | context/AuthContext.tsx:42-51 | `SET_TOKENS` changes only the tokens, `SET_LOADING` only the flag |
| AuthContext.LogoutResets | context/AuthContext.tsx:52-56 | `LOGOUT` gives the initial state from any state |
| AuthContext.UpdateUserEffect | context/AuthContext.tsx:57-61 | `UPDATE_USER` merges the payload into a present user, keeps an absent one absent, and changes nothing else |
| AuthContext.MergeFields | context/AuthContext.tsx:60 | the merge keeps fields the payload omits, takes those it carries, and is idempotent |
| AuthContext.UnknownIsIdentity | context/AuthContext.tsx:62-63 | an unknown action returns the state unchanged |
| AuthContext.ReducerKeepsConsistent | context/AuthContext.tsx:33-65 | every action preserves "signed in exactly when a user is present" |
| AuthContext.ReachableIsConsistent | context/AuthContext.tsx:25-65 | every state reachable from the initial state satisfies that invariant |
| AuthContext.ApplyIsReduce | context/AuthContext.tsx:83 | the state after an effect log is the reducer folded over its dispatched actions |
| AuthContext.ErrorClassification | context/AuthContext.tsx:101-153 | a destructive toast unless an axios error has neither response nor request; only a 401 dispatches (`LOGOUT`, once) and redirects to /login |
| AuthContext.ErrorTitles | context/AuthContext.tsx:110-148 | 401 "Authentication Error", 403 "Permission Denied", other statuses "Error" with the response message or the default text, no response "Network Error", a non-axios error the generic "Error" |
| AuthContext.ErrorState | context/AuthContext.tsx:101-153 | handling an error leaves the state alone, except a 401 which signs out |
| AuthContext.LogoutFromAnyState | context/AuthContext.tsx:192-199 | logout ends in the initial state from any state, dispatching only `LOGOUT` |
| AuthContext.LoginResult | context/AuthContext.tsx:156-189 | a successful login stores tokens and user and signs in; any login ends not loading; a failed one keeps the state (signed out on a 401) |
| AuthContext.LoginActions | context/AuthContext.tsx:158-188 | the dispatches are loading on, then tokens and user (or the error's `LOGOUT`), then loading off |
| AuthContext.RefreshWithoutToken | context/AuthContext.tsx:208-236 | a missing or empty refresh token shows the generic error and ends signed out |
| AuthContext.RefreshResult | context/AuthContext.tsx:206-237 | a refresh replaces the access token and keeps the refresh token; a failed one ends signed out |
| AuthContext.AuthProvider.EmitAll | context/AuthContext.tsx:83 | recording effects appends them to the log and folds the dispatches into the state |
| AuthContext.AuthProvider.HandleError | context/AuthContext.tsx:101-153 | logs the error's effects; the state is unchanged or, on a 401, the initial one |
| AuthContext.AuthProvider.LogOut | context/AuthContext.tsx:192-199 | logs the three removals, `LOGOUT`, the toast and the redirect; the state is the initial one |
| AuthContext.AuthProvider.UpdateUserData | context/AuthContext.tsx:202-204 | dispatches `UPDATE_USER` with the payload |
| AuthContext.AuthProvider.Login | context/AuthContext.tsx:156-189 | logs `LoginEffects` of the outcome; reports failure (the rethrow) exactly when the request failed |
| AuthContext.AuthProvider.RefreshTokens | context/AuthContext.tsx:206-237 | logs `RefreshEffects` of the state before and the outcome |
| CreateAgentChat.FindChoice | components/createAgent/CreateAgentChat.tsx:138-140 | the index of the first option with that value, or none when no option has it |
| CreateAgentChat.DisplayContentCases | components/createAgent/CreateAgentChat.tsx:136-142 | a text answer shows as typed; a select answer shows the first matching option's label, or the raw value when that label is empty or nothing matches |
| CreateAgentChat.SampleLabels | components/createAgent/CreateAgentChat.tsx:36-85 | the sample answers show their labels |
| CreateAgentChat.SendDisabledIff | components/createAgent/CreateAgentChat.tsx:302-313 | the send button is disabled exactly when the input is, or when the input is blank |
| CreateAgentChat.AgentChat.PostFirstQuestion | components/createAgent/CreateAgentChat.tsx:116-121 | a shown, empty chat gets exactly the first question; otherwise nothing changes |
| CreateAgentChat.AgentChat.HandleSubmit | components/createAgent/CreateAgentChat.tsx:123-168 | blank input changes nothing; otherwise the raw value is stored under the question's id, the answer shown, and the next question asked with the index up by one, or at the last question the closing message with the index unchanged; waiting cleared |
| CreateAgentChat.AgentChat.Start | components/createAgent/CreateAgentChat.tsx:205 | the start button shows the chat and changes nothing else |
| CreateAgentChat.Questionnaire | components/createAgent/CreateAgentChat.tsx:116-168 | answering the four questions stores all four answers and ends with the closing message |
| Validation.FirstError | app/signup/page.tsx:24-36 | no message iff every check passes; otherwise the message of the first failing check |
| Validation.EmailRule | app/signup/page.tsx:30-33 | empty email "Email is required", non-email "Invalid email address", otherwise accepted |
| Signup.FieldRules | app/signup/page.tsx:24-50 | full name at least 2 characters of ASCII letters and whitespace (length reported first); password at least 8 and nothing else; terms exactly true; email as above |
| Signup.RefinementRule | app/signup/page.tsx:52-55 | with every field check passing, the form is accepted iff the passwords match, else the one error is "Passwords don't match" on `confirmPassword` |
| Signup.DefaultsFail | app/signup/page.tsx:70-76 | the default values fail on every field with a check |
| Signup.FieldErrorsSpec | app/signup/page.tsx:110-117 | every key gets an error, which is the first element of an array value or the value itself |
| Signup.ObjectBodyErrors | app/signup/page.tsx:109-117 | an object body sets one error per key, by the rule above |
| Signup.ScalarBodyErrors | app/signup/page.tsx:109 | a body that is not of object type sets nothing |
| Signup.SignupPage.MapServerErrors | app/signup/page.tsx:104-118 | the loop over the keys sets exactly `ServerErrors(data)`, and throws for a null body |
| Login.OnlyEmailMatters | app/login/page.tsx:23-38 | acceptance depends on the email alone; any password and an absent flag are valid |
| Login.DefaultsFailOnEmail | app/login/page.tsx:52-56 | the defaults fail on the email only, with "Email is required" |
| Customers.SampleIds | app/stores/customers/page.tsx:20-23 | ids 1 to 50 in order, readable back from the name; emails built from the id |
| Customers.FilteredSpec | app/stores/customers/page.tsx:39-44 | the result is an order-preserving subsequence holding exactly the customers whose lowered name or email contains the lowered term and whose status is selected or "All", each kept customer as many times as in the list |
| Customers.EmptySearchShowsAll | app/stores/customers/page.tsx:39-44 | an empty search with "All" shows every customer |
| Customers.CustomerSearchShowsSample | app/stores/customers/page.tsx:20-44 | the search "customer" with "All" shows the whole sample |
| Stores.SampleIds | app/stores/page.tsx:13-15 | ids 1 to 20 in order, readable back from the name |
| Stores.FilteredSpec | app/stores/page.tsx:30-34 | the result is an order-preserving subsequence holding exactly the stores whose lowered name contains the lowered term and whose category is selected or "All", each kept store as many times as in the list |
| Stores.OnlyNameSearched | app/stores/page.tsx:31-32 | address and phone never affect whether a store is kept |
| Stores.EmptySearchShowsAll | app/stores/page.tsx:30-34 | an empty search with "All" shows every store |
| Stores.StoreSearchShowsSample | app/stores/page.tsx:13-34 | the search "store" with "All" shows all twenty stores |
| ToolCard.IconMapTotal | components/tools/toolCard.tsx:15-24 | each of the four icon keys has an icon, and no other key does |
| ToolCard.DashifySpec | components/tools/toolCard.tsx:50 | replacing whitespace runs leaves no whitespace, never lengthens, and uses only dashes and input characters |
| ToolCard.DashifyRun | components/tools/toolCard.tsx:50 | a maximal whitespace run becomes one dash |
| ToolCard.DashifyWithoutWhitespace | components/tools/toolCard.tsx:50 | a string without whitespace is unchanged |
| ToolCard.SlugShape | components/tools/toolCard.tsx:50 | the slug has no whitespace and is no longer than the title |
| ToolCard.SlugIdempotent | components/tools/toolCard.tsx:50 | slugging a slug gives it back |
| ToolCard.ScraperHref | components/tools/toolCard.tsx:50 | "Web Scraper" links to "/tools/web-scraper" |
| ToolCard.MixedRunSlug | components/tools/toolCard.tsx:50 | a mixed whitespace run becomes one dash |
| ToolCard.LeadingSpaceSlug | components/tools/toolCard.tsx:50 | leading whitespace is not trimmed: it becomes a dash |
| ToolCard.FooterFor | components/tools/toolCard.tsx:48-56 | the link, to the href, is shown iff `isComingSoon` is not true (absent counts as false) |
| FaqSection.Toggle | components/landing/FaqSection.tsx:64-66 | a click always leaves an item open: the clicked item unless it was the open one, then item 0 |
| FaqSection.IconFor | components/landing/FaqSection.tsx:72-76 | the minus icon exactly on the visible item |
| FaqSection.AtMostOneVisible | components/landing/FaqSection.tsx:72-79 | at most one answer is visible, and none initially |
| FaqSection.ClickingOpenItem | components/landing/FaqSection.tsx:65 | clicking the open item opens item 0; an open first item stays open |
| FaqSection.ClicksKeepOpen | components/landing/FaqSection.tsx:64-66 | once any item is clicked the accordion never closes, and the index stays an item's |
| FaqSection.Accordion.Click | components/landing/FaqSection.tsx:64-66 | a click applies the toggle and keeps the index an item's |
| Strings.TrimSpec | app/api/chat/openai/route.ts:119 | `trim` removes exactly the leading and trailing whitespace |
| Strings.ContainsIffOccurs | app/stores/customers/page.tsx:41-42 | `includes` holds iff the term occurs at some position |
| Strings.JoinSplit | components/GlobalChat/ChatInterface/ChatInterface.tsx:231 | splitting on the separator and joining back gives the text |
| Strings.ParseNatToString | app/stores/customers/page.tsx:22 | a number's decimal text reads back as that number |

## Left out

- Vendor SDK calls, `fetch`, `ReadableStream` and reader plumbing, `TextDecoder`/`TextEncoder`, HTTP headers, cancellation and backpressure: the model starts from the list of deltas, the list of reads, or the outcome of a request.
- JSON serialisation and parsing: the parsers are function parameters, `string -> Option<...>`. The signup error body is a small JSON datatype.
- UseChat.DetectAndCreateArtifacts: the artifact `id` built from `Date.now()` and `Math.random()` is not modelled; artifacts carry no id.
- ChatRoute.OneDoneLast: holds only for a vendor stream that finishes. A vendor stream that fails partway ends the response stream with an error and no `done` event, and that case is not represented.
- Other random and clock values are parameters: message ids, each `Date.now()` reading (the user message, the placeholder and the apology of `sendMessage` take one each), `uuidv4`, `crypto.randomUUID`, timestamps, and the random sample fields (phones, statuses, categories, addresses). The sample fields that are only displayed are not modelled: join dates, purchases, totals, ratings, hours and customer counts.
- `CreateAgentChat.AgentChat.HandleSubmit`: each one-second `setTimeout` callback runs as the step right after the submission, so a submission made while a reply is pending is not represented. The `onKeyPress` guard is not modelled separately.
- Console output, toasts of the signup page's `onSubmit`, the Google sign-in with Firebase, and all rendering and animation.
- `localStorage`, `router.push` and toasts of the auth provider are recorded only as entries of an effect log.
- `Strings.ToLower`: lowercasing is ASCII-only, and whitespace is a fixed set of six characters. Unicode case folding and JavaScript's full `\s` are not modelled.
- The email check is an opaque parameter `isEmail`. zod's own pattern is not modelled.
- The stores and customers filters are modelled on any list, not only on the random sample.
- `ChatInterface.ChatPanel.HandleSubmit`: the request body uses the untrimmed input, and the body is not modelled.
- `ChatInterface.ApplyChunk`: a `chunk` record is assumed to carry `completeMessage`. The JavaScript `undefined` that a record without it would write is not represented.
- `UseChat.ChatHook.SendMessage`: the `model` argument only selects the URL and is not modelled.
- AuthContext.LoginResult: a successful login response is taken to carry both tokens and a non-null `user`, as the `SET_USER` action type demands. The body is untyped, so a 2xx response without `user` would dispatch `SET_USER` with `undefined`, sign in with no user, and store "undefined" under "user". That case is not represented, so AuthContext.ReachableIsConsistent covers only the typed actions.
- AuthContext.ReachableIsConsistent: holds for every sequence of typed actions. It does not cover a `SET_USER` whose payload is missing from an untyped login response (see the line above).
