# TeqTank Telegram bot: the login flow and its router, in Dafny

This project models the core of a Telegram webhook bot that logs chat users in
against the TeqTank CRM:

- the per-chat login dialogue of `src/bot/commands/auth.ts`, with its
  `userStates` map, the `recentLogins` suppression marks, the two-step
  username/password exchange and the one-line `/login user pass` shortcut;
- the update router `handleTelegramUpdate`;
- the Telegram client's HTML escaping, its per-chat log of sent ids and
  `clearChatHistory`;
- the key-value session scheme;
- the `/start`, `/logout` and `/help` handlers;
- the CRM admin-token and customer-authentication guard chains.

Each source operation is modelled twice:

- **As a function from one world to the next** (`...Spec`). A `World`
  (module `Auth`) holds the dialogue map and the suppression set. It also holds
  the client's state (logs, the next message id, every send and delete request
  made), the key-value map and the CRM requests made.
- **As a method over objects with mutable fields.** The objects are
  `Auth.Flow`, `TelegramClient.Client`, `KvHelpers.Store` and `Crm.Service`.
  Each method's `ensures` says that the new state and the result are exactly the
  spec function applied to the old state.

The properties are lemmas about the spec functions. They live in
`AuthProperties`, `RouterProperties`, `Invariants` and the handler modules.

The outside world is a set of parameters:

- `delivers(k)` says whether the k-th sendMessage request succeeds. This covers
  the transport, `response.ok` and the JSON reply together.
- A delivered message gets the client's next id, so ids are fresh and increase.
- `adminReply(k)` and `customerReply(k)` are the CRM's replies to the k-th
  request of each kind.
- The CRM configuration is a record of four optional strings.

JavaScript semantics are modelled where the code depends on them:

- Truthiness of optional strings and ids (`Common.Truthy`, `Common.TruthyId`).
- `split(" ")`, whose result always has one more piece than there are
  separators.
- Array destructuring past the end, which yields `undefined`.
- Global `replace`.
- The template rendering of a chat id in `session:${chatId}`.
- A handler's outcome is three-valued: a `Response` (200 or 500), or a thrown
  error.

## Where the code and its specification disagree (the model follows the code)

- **`/start` and a logged-in chat.** `/start` installs a fresh dialogue state
  before `handleStart` looks at the session (src/bot/telegram.ts:51-56). A chat
  that is already logged in therefore also gets a new state. The documented
  behaviour is that no state is made in that case.
  See `RouterProperties.StartReplacesDialogue`.
- **Router errors.** The router returns `handleAuth(...)`, `handleStart(...)`
  and the other handlers without `await` inside its `try` block. A handler that
  rejects is not turned into the 500 response: the error leaves the router.
  Only these become 500:
  - a callback query without a message, which throws on the chat lookup;
  - a failed "don't understand" send, which the router awaits.

  See `RouterProperties.HandlerRejectionEscapes` and
  `RouterProperties.CallbackWithoutMessageIs500`.
- **Failed login confirmation.** If the confirmation after a successful login
  cannot be sent, the cleanup `catch` swallows the error
  (src/bot/commands/auth.ts:105-131). The session is saved and the deletions are
  requested, but the dialogue state stays and the chat is not suppressed.
  See `AuthProperties.UndeliveredConfirmation`.
- **Send errors.** `sendTelegramMessage` rethrows every failure
  (src/services/telegramclient.ts:64-67). Send failures therefore do cross
  component boundaries, unlike in the documented error taxonomy. The handlers'
  own `catch` blocks recover from them.

## Model

| member | source | states |
|---|---|---|
| Strings.Split | src/bot/commands/auth.ts:51 | `split` on one character: at least one piece, and no piece contains the separator |
| Strings.JoinOfSplit | src/bot/commands/auth.ts:51 | joining the pieces of a split with the separator gives back the string |
| Strings.SplitOfJoin | src/bot/commands/auth.ts:51 | splitting a join of separator-free pieces gives back exactly those pieces |
| Strings.SplitOfThree | src/bot/commands/auth.ts:51 | three separator-free pieces joined by the separator split back into exactly those three |
| Strings.Nth | src/bot/commands/auth.ts:51 | destructuring position `i` is defined iff `i` is below the number of pieces, and is that piece |
| Strings.ReplaceAllCharAppend | src/services/telegramclient.ts:26-29 | a global replace of a one-character pattern distributes over concatenation |
| Strings.NatToDecimal | src/services/storage/kvhelpers.ts:14 | the decimal rendering of a number is a non-empty string of digits |
| Strings.DecimalRoundTrip | src/services/storage/kvhelpers.ts:14 | reading back the decimal rendering of a natural number gives the number |
| Strings.IntDecimalRoundTrip | src/services/storage/kvhelpers.ts:14 | the rendering of any integer chat id, sign included, parses back to it |
| Strings.IntToDecimalInjective | src/services/storage/kvhelpers.ts:14 | distinct chat ids render differently |
| KvHelpers.SessionKey | src/services/storage/kvhelpers.ts:13-15 | a session key starts with `session:`, names its chat id, and is never the admin key |
| KvHelpers.SessionKeysDistinct | src/services/storage/kvhelpers.ts:1-14 | two session keys are equal iff their chat ids are; no session key equals `admintoken` |
| KvHelpers.Lookup | src/services/storage/kvhelpers.ts:9-19 | `get` yields a value iff the key is stored |
| KvHelpers.WithAdminToken | src/services/storage/kvhelpers.ts:1-7 | after `saveAdminToken` the admin key reads back the token with TTL 7200; sessions and every other key are unchanged |
| KvHelpers.WithSession | src/services/storage/kvhelpers.ts:3-15 | after `saveUserSession` the chat's session reads back the token with TTL 7200; other chats, the admin token and other keys are unchanged |
| KvHelpers.WithoutSession | src/services/storage/kvhelpers.ts:21-23 | after `removeUserSession` the chat has no session and no other key changes |
| KvHelpers.Store.SaveAdminToken | src/services/storage/kvhelpers.ts:5-7 | the store becomes `WithAdminToken` of the old one |
| KvHelpers.Store.GetAdminToken | src/services/storage/kvhelpers.ts:9-11 | answers the stored admin token or none |
| KvHelpers.Store.SaveUserSession | src/services/storage/kvhelpers.ts:13-15 | the store becomes `WithSession` of the old one |
| KvHelpers.Store.GetUserSession | src/services/storage/kvhelpers.ts:17-19 | answers the chat's stored session or none |
| KvHelpers.Store.RemoveUserSession | src/services/storage/kvhelpers.ts:21-23 | the store becomes `WithoutSession` of the old one |
| TelegramClient.Tokens | src/services/telegramclient.ts:26-29 | the escaped form, as one token per input character, holds no raw `<` or `>` |
| TelegramClient.EscapeIsTokenwise | src/services/telegramclient.ts:26-29 | because `&` is replaced first, the three passes map each character to exactly one token |
| TelegramClient.EscapeHasNoAngleBrackets | src/services/telegramclient.ts:26-29 | escaped text contains no raw `<` or `>` |
| TelegramClient.EscapeAppend | src/services/telegramclient.ts:26-29 | escaping distributes over concatenation |
| TelegramClient.TokensAppend | src/services/telegramclient.ts:26-29 | the token form distributes over concatenation |
| TelegramClient.TokensFinal | src/services/telegramclient.ts:26-29 | once every pass is undone, each token is its character again |
| TelegramClient.PassTokens | src/services/telegramclient.ts:26-29 | each un-escaping pass turns the token form of one stage into the next |
| TelegramClient.Escape | src/services/telegramclient.ts:26-29 | the three global replaces, `&` first; its meaning is fixed by `EscapeIsTokenwise`, `EscapeHasNoAngleBrackets` and the round trip `UnescapeEscape` |
| TelegramClient.UnescapeEscape | src/services/telegramclient.ts:26-29 | undoing `&lt;`, `&gt;`, then `&amp;` recovers the original text |
| TelegramClient.Body | src/services/telegramclient.ts:22-37 | the request body: a string goes out escaped with `parse_mode` HTML, a structured payload as given; stated by `BodyFaithful` |
| TelegramClient.BodyFaithful | src/services/telegramclient.ts:24-37 | a string goes out escaped with `parse_mode` HTML, no markup, and its text recoverable; a structured payload goes out unchanged |
| TelegramClient.SendSpec | src/services/telegramclient.ts:20-68 | one request per send; it delivers iff the oracle says so; a delivered id is the next id and is appended to that chat's log only; a failure records no id; freshness of the logs is kept |
| TelegramClient.DeletionsOf | src/services/telegramclient.ts:75-90 | one delete request per id, in order, for that chat |
| TelegramClient.ClearSpec | src/services/telegramclient.ts:70-100 | every logged id of the chat is asked to be deleted, in order; its log is then empty; other logs, sends and the id counter are unchanged |
| TelegramClient.Client.SendTelegramMessage | src/services/telegramclient.ts:20-68 | the client's new state and the returned id or error are exactly `SendSpec` |
| TelegramClient.Client.RequestDelete | src/services/telegramclient.ts:76-89 | records one delete request; its failure is swallowed |
| TelegramClient.Client.ClearChatHistory | src/services/telegramclient.ts:70-100 | the loop leaves exactly the state `ClearSpec` describes, and it returns true |
| Crm.Service.RequestAdminToken | src/services/teqtank/admintoken.ts:29-40 | answers the reply the oracle gives the next admin request, and counts that request |
| Crm.Service.AuthenticateCustomer | src/services/teqtank/repauth.ts:31-42 | answers the oracle's reply to the next customer request, and records its credentials and bearer |
| AdminToken.TokenFromReply | src/services/teqtank/admintoken.ts:42-60 | a token is produced only from an ok reply with `success`, and is never empty; conversely an ok, successful reply with a non-empty `data.token` yields exactly that token |
| AdminToken.ValidReplyYieldsItsToken | src/services/teqtank/admintoken.ts:54-60 | a successful reply carrying a non-empty token yields that token |
| AdminToken.NonOkReplyYieldsNothing | src/services/teqtank/admintoken.ts:42-45 | a non-ok status yields no token |
| AdminToken.UnsuccessfulOrEmptyYieldsNothing | src/services/teqtank/admintoken.ts:54-57 | `success` false, no `data` or an empty token yields no token |
| AdminToken.FailedFetchYieldsNothing | src/services/teqtank/admintoken.ts:47-64 | a rejected fetch or an unparsable body yields no token |
| AdminToken.FetchAdminTokenSpec | src/services/teqtank/admintoken.ts:15-65 | missing configuration means no request and no change; otherwise exactly one request; the token returned is the one the reply to that request yields; on success the token is cached before it is returned and reads back equal; on failure the store is unchanged; sessions are never touched |
| AdminToken.GrantedTokenIsStored | src/services/teqtank/admintoken.ts:54-60 | with the configuration complete, a granting reply's token is stored under the admin key and returned |
| AdminToken.GetValidAdminTokenSpec | src/services/teqtank/admintoken.ts:67-77 | `getValidAdminToken`: a non-empty cached token, else a fetch; its two cases are stated by `CachedTokenIsReused` and `MissingTokenIsFetched` |
| AdminToken.CachedTokenIsReused | src/services/teqtank/admintoken.ts:69-70 | a non-empty cached token is returned with no request and no store change |
| AdminToken.MissingTokenIsFetched | src/services/teqtank/admintoken.ts:72 | with no usable cached token the call is exactly a fetch |
| AdminToken.FetchAdminToken | src/services/teqtank/admintoken.ts:15-65 | store, requests and result are exactly `FetchAdminTokenSpec` |
| AdminToken.GetValidAdminToken | src/services/teqtank/admintoken.ts:67-77 | store, requests and result are exactly `GetValidAdminTokenSpec` |
| RepAuth.RepTokenFromReply | src/services/teqtank/repauth.ts:44-70 | a token is produced only from an ok, successful reply whose data says `userCanLogIn`, and it is the admin token |
| RepAuth.NonOkCustomerYieldsNothing | src/services/teqtank/repauth.ts:44-74 | a non-ok status or a rejected fetch yields nothing |
| RepAuth.UnsuccessfulCustomerYieldsNothing | src/services/teqtank/repauth.ts:58-66 | `success` false, missing `data` or `userCanLogIn` false yields nothing |
| RepAuth.AcceptedCustomerYieldsAdminToken | src/services/teqtank/repauth.ts:68-70 | an accepted customer yields exactly the admin token from step 1 |
| RepAuth.GetRepTokenSpec | src/services/teqtank/repauth.ts:21-75 | one admin fetch whenever configured; at most one customer request, with the given credentials; a returned token is non-empty, is the cached admin token and was the request's bearer; once an admin token is obtained, exactly one customer request is made with it as bearer and the result is what the customer reply yields for it; sessions are untouched |
| RepAuth.AcceptedCredentialsYieldToken | src/services/teqtank/repauth.ts:21-70 | a granted admin token and an accepting customer reply give exactly one customer request, under that bearer, and return the admin token |
| RepAuth.NoAdminTokenNoCustomerRequest | src/services/teqtank/repauth.ts:24-28 | without an admin token the customer endpoint is never asked and nothing is returned |
| RepAuth.RepTokenIgnoresCache | src/services/teqtank/repauth.ts:21-28 | the result and the requests made do not depend on the cached admin token |
| RepAuth.GetRepToken | src/services/teqtank/repauth.ts:21-75 | store, requests and result are exactly `GetRepTokenSpec` |
| Auth.EnsureState | src/bot/commands/auth.ts:40-43 | afterwards the chat has a state |
| Auth.DeleteMessage | src/bot/commands/auth.ts:16-31 | a best-effort delete request, whose failure is swallowed |
| Auth.DeleteMessages | src/bot/commands/auth.ts:110-111 | one delete request per tracked id, taken in order |
| Auth.Flow.PushMessageId | src/bot/commands/auth.ts:45 | appends one id to the chat's state and changes nothing else |
| Auth.AuthenticateUserSpec | src/bot/commands/auth.ts:91-132 | `authenticateUser` as a step between worlds; its outcomes are stated by `AuthenticateUserRequests`, `FailedAuthenticationKeepsDialogue`, `SuccessfulAuthenticationEndsDialogue` and `UndeliveredConfirmation` |
| Auth.HandleAuthTrySpec | src/bot/commands/auth.ts:34-82 | the `try` block of `handleAuth`; its branches are stated by `LoginPromptOpensDialogue`, `ShortcutMissingFields`, `ShortcutAuthenticates`, `FreeTextWithoutDialogue`, `UsernameStep` and `PasswordStep` |
| Auth.HandleAuthSpec | src/bot/commands/auth.ts:33-88 | `handleAuth`: the `try` block, and on an error one apology that changes nothing but the client (`CatchOnlySends`) |
| Auth.ExpireRecentLoginSpec | src/bot/commands/auth.ts:123-125 | the timer's `recentLogins.delete(chatId)`; kept invariant by `Invariants.ExpiryKeepsInvariant` |
| Auth.Flow.AuthenticateUser | src/bot/commands/auth.ts:91-132 | state and result are exactly `AuthenticateUserSpec` |
| Auth.Flow.SendPrompt | src/bot/commands/auth.ts:44-45 | a sent prompt's id is appended to the chat's state; a failed one is thrown |
| Auth.Flow.HandleAuthTry | src/bot/commands/auth.ts:34-82 | state and result are exactly `HandleAuthTrySpec` |
| Auth.Flow.HandleAuth | src/bot/commands/auth.ts:33-88 | state and result are exactly `HandleAuthSpec`, the catch's apology included |
| Auth.Flow.ExpireRecentLogin | src/bot/commands/auth.ts:123-125 | the timer removes the chat's suppression mark and nothing else |
| AuthProperties.AuthenticateUserRequests | src/bot/commands/auth.ts:92-98 | authentication makes `getRepToken`'s requests iff the chat has a state |
| AuthProperties.LoginPromptOpensDialogue | src/bot/commands/auth.ts:39-46 | no text or bare `/login`: the state is kept or made with no username, and gains exactly the prompt's id; no session, CRM request or suppression changes |
| AuthProperties.FreeTextWithoutDialogue | src/bot/commands/auth.ts:66-69 | free text with no state: no state is made, no CRM request, and only "Session expired" is sent |
| AuthProperties.UsernameStep | src/bot/commands/auth.ts:71-77 | the text becomes the username verbatim, the prompt's id is appended, other chats are unchanged, and nothing is authenticated |
| AuthProperties.PasswordStep | src/bot/commands/auth.ts:78-81 | with a username stored, the text authenticates exactly the pair (stored username, text), at most once |
| AuthProperties.TwoStepLogin | src/bot/commands/auth.ts:71-81 | username then password: the second step is exactly `authenticateUser` with that pair; once an admin token is obtained, exactly one customer request is made, for that pair under that bearer |
| AuthProperties.PasswordStepLogsIn | src/bot/commands/auth.ts:78-127 | with a complete configuration, a granted admin token, an accepting reply and a delivered confirmation, the password step saves the session under the token, requests the deletions, ends the dialogue and suppresses the chat |
| AuthProperties.ShortcutMissingFields | src/bot/commands/auth.ts:50-60 | a `/login…` line without a 2nd or 3rd piece re-prompts with the format, appends the id, and authenticates nothing |
| AuthProperties.ShortcutWithoutPassword | src/bot/commands/auth.ts:51-52 | `/login name` has no third piece |
| AuthProperties.ShortcutParses | src/bot/commands/auth.ts:51 | `/login u p` splits into exactly `/login`, `u` and `p` |
| AuthProperties.ShortcutAuthenticates | src/bot/commands/auth.ts:50-62 | `/login u p` authenticates exactly the pair (u, p) |
| AuthProperties.ShortcutWithoutDialogue | src/bot/commands/auth.ts:91-96 | `/login u p` with no state sends "Session expired" and never reaches the CRM |
| AuthProperties.FailedAuthenticationKeepsDialogue | src/bot/commands/auth.ts:98-103 | a null token keeps the state and its username, appends the failure id, saves no session and suppresses nothing |
| AuthProperties.SuccessfulAuthenticationEndsDialogue | src/bot/commands/auth.ts:105-127 | a token is saved as the session with TTL 7200; every tracked id is asked to be deleted; the state is dropped; the chat is suppressed; other sessions are untouched |
| AuthProperties.UndeliveredConfirmation | src/bot/commands/auth.ts:105-131 | a failed confirmation is swallowed: session saved and deletes requested, but the state is kept and the chat is not suppressed |
| Start.StartWithSession | src/bot/commands/start.ts:7-12 | with a session, exactly the "already logged in" notice is sent, and no menu |
| Start.StartWithoutSession | src/bot/commands/start.ts:14-28 | with no session, exactly one structured message is sent, unescaped: one row of two buttons, `cmd_login_username` and `cmd_help` |
| Start.StartFallback | src/bot/commands/start.ts:29-33 | a failed send gets exactly one apology; the handler throws only if that fails too |
| Start.HandleStartSpec | src/bot/commands/start.ts:4-34 | `handleStart` over the client; its cases are stated by `StartWithSession`, `StartWithoutSession` and `StartFallback` |
| Start.HandleStart | src/bot/commands/start.ts:4-34 | the client's state and the result are exactly `HandleStartSpec` |
| Logout.LogoutClearsThenConfirms | src/bot/commands/logout.ts:6-14 | the session is gone; every logged id is asked to be deleted; the log then holds exactly the confirmation's id |
| Logout.LogoutKeepsOtherKeys | src/bot/commands/logout.ts:6 | only the chat's session key leaves the store |
| Logout.LogoutTwice | src/bot/commands/logout.ts:6-14 | a second logout leaves the store as the first left it and still confirms |
| Logout.SessionRemovalIsIdempotent | src/services/storage/kvhelpers.ts:21-23 | removing a session twice is removing it once |
| Logout.HandleLogoutSpec | src/bot/commands/logout.ts:4-20 | `handleLogout` over the store and the client; stated by `LogoutClearsThenConfirms`, `LogoutKeepsOtherKeys` and `LogoutTwice` |
| Logout.HandleLogout | src/bot/commands/logout.ts:4-20 | store, client and result are exactly `HandleLogoutSpec` |
| Help.EscapeLeavesPlainText | src/services/telegramclient.ts:26-29 | text without `&`, `<` or `>` is unchanged by escaping |
| Help.TokensOfPlainText | src/services/telegramclient.ts:26-29 | the token form of such text is the text itself |
| Help.EscapeBoldTitle | src/bot/commands/help.ts:5-17 | bold tags around plain text go out as `&lt;b&gt;…&lt;/b&gt;` |
| Help.HelpMarkupIsEscaped | src/bot/commands/help.ts:5-17 | the help text's `<b>` title is sent escaped, as `&lt;b&gt;TeqTank Bot Help&lt;/b&gt;` |
| Help.HelpSendsOnce | src/bot/commands/help.ts:17-18 | a delivered help text is the one request, and the answer is OK |
| Help.HelpFallback | src/bot/commands/help.ts:19-23 | a failed help text gets exactly one apology |
| Help.HandleHelpSpec | src/bot/commands/help.ts:3-24 | `handleHelp` over the client; stated by `HelpMarkupIsEscaped`, `HelpSendsOnce` and `HelpFallback` |
| Help.HandleHelp | src/bot/commands/help.ts:3-24 | the client's state and the result are exactly `HandleHelpSpec` |
| Telegram.ResolveChatId | src/bot/telegram.ts:9 | a callback query without a message throws; a callback message's non-zero chat id wins; with no callback query, or a callback message in chat 0, the message's chat id is used, and none without a message |
| Telegram.Track | src/bot/telegram.ts:21-29 | only an existing state changes: its username is kept and the truthy ids are appended, message id first; no state is made |
| Telegram.TrackUpdate | src/bot/telegram.ts:21-29 | the dialogue map becomes `Track` of the old one |
| Telegram.DispatchCallback | src/bot/telegram.ts:32-42 | the callback branch; stated by `RouterProperties.LoginButton`, `HelpButton` and `OtherButton` |
| Telegram.DispatchText | src/bot/telegram.ts:45-73 | the text branch, by prefix in the code's order; stated by `StartReplacesDialogue`, `CommandsNeverAuthenticate`, `LogoutCommand`, `FreeTextWithDialogue` and `FreeTextWithoutDialogue` |
| Telegram.HandleTelegramUpdateSpec | src/bot/telegram.ts:7-78 | the whole router; stated by the `RouterProperties` lemmas, `Invariants.RouterKeepsInvariant` and `Invariants.RouterIsolation` |
| Telegram.RouteCallback | src/bot/telegram.ts:32-42 | state and result are exactly `DispatchCallback` |
| Telegram.RouteCommand | src/bot/telegram.ts:61-73 | state and result are exactly `DispatchText` for text that is neither `/start` nor `/login` |
| Telegram.RouteText | src/bot/telegram.ts:45-73 | state and result are exactly `DispatchText` |
| Telegram.HandleTelegramUpdate | src/bot/telegram.ts:7-78 | state and result are exactly `HandleTelegramUpdateSpec` |
| RouterProperties.NoChatIsNoOp | src/bot/telegram.ts:9-12 | no truthy chat id: OK and no change at all |
| RouterProperties.SuppressedIsNoOp | src/bot/telegram.ts:15-18 | a suppressed chat: OK and no change at all |
| RouterProperties.CallbackWithoutMessageIs500 | src/bot/telegram.ts:74-77 | a callback query without a message gives the 500 response and no change |
| RouterProperties.TrackingAppends | src/bot/telegram.ts:21-29 | tracking makes no state; it appends the message id, then the callback message id |
| RouterProperties.LoginButton | src/bot/telegram.ts:35-36 | `cmd_login_username` starts the dialogue as `handleAuth` with no text does |
| RouterProperties.HelpButton | src/bot/telegram.ts:37-38 | `cmd_help` is `/help`, and touches no dialogue, session or CRM |
| RouterProperties.OtherButton | src/bot/telegram.ts:41 | any other payload does nothing beyond tracking |
| RouterProperties.CommandPrefixesDiffer | src/bot/telegram.ts:51-64 | no text starts with two of `/start`, `/login` (or `/logout`) and `/help` at once |
| RouterProperties.StartReplacesDialogue | src/bot/telegram.ts:51-56 | `/start…` replaces the chat's state by one with no username and only the command's id; no session, CRM request or suppression changes |
| RouterProperties.CommandsNeverAuthenticate | src/bot/telegram.ts:51-64 | `/start`, `/logout` and `/help` make no CRM request; the last two leave every dialogue as tracking left it |
| RouterProperties.LogoutCommand | src/bot/telegram.ts:61-63 | `/logout…` forgets the session and leaves only the confirmation in the chat's log |
| RouterProperties.FreeTextWithDialogue | src/bot/telegram.ts:67-70 | other text with a state is exactly `handleAuth` with that text |
| RouterProperties.FreeTextWithoutDialogue | src/bot/telegram.ts:72-77 | other text without a state sends exactly one "don't understand" message and changes nothing else; OK, or 500 if that send fails |
| RouterProperties.HandlerRejectionEscapes | src/bot/telegram.ts:64-77 | a handler's rejection is not turned into 500: `/help` with both sends failing throws |
| Invariants.IsolatedChain | src/bot/telegram.ts:7-78 | isolation composes across steps |
| Invariants.AuthenticateUserKeeps | src/bot/commands/auth.ts:91-132 | authentication keeps the invariant and touches no other chat |
| Invariants.HandleAuthKeeps | src/bot/commands/auth.ts:33-88 | `handleAuth` keeps the invariant for an unsuppressed chat and touches no other chat |
| Invariants.LogoutKeeps | src/bot/commands/logout.ts:4-20 | `/logout` keeps the invariant, touches no other chat, and changes only the client and the store |
| Invariants.StartKeeps | src/bot/commands/start.ts:4-34 | `handleStart` keeps the invariant and changes only the client: no dialogue, suppression or session |
| Invariants.HelpKeeps | src/bot/commands/help.ts:3-24 | `handleHelp` keeps the invariant and changes only the client |
| Invariants.RouterIsolation | src/bot/telegram.ts:7-78 | an update touches only the chat it resolves to: other chats' dialogues, marks, sessions and logs are unchanged, and every new request is addressed to that chat; an update with no chat changes nothing |
| Invariants.RouterKeepsInvariant | src/bot/telegram.ts:7-78 | every update keeps the invariant: fresh ordered ids, well-formed store keys with TTL 7200, no dialogue for a suppressed chat, and no empty username |
| Invariants.ExpiryKeepsInvariant | src/bot/commands/auth.ts:123-125 | the suppression timer keeps the invariant |

## Left out

- Network I/O is not modelled. `fetch` to the Telegram Bot API and the CRM
  becomes the delivery oracle and the reply oracles, and the request URLs and
  headers are reduced to the fields the logic uses.
- A message whose send failed after Telegram accepted it is not distinguished.
  That happens when the reply cannot be parsed after `response.ok`. Such a send
  is one undelivered request: it is thrown, and its id is not logged.
- The 2-second `setTimeout` that lifts the suppression is not modelled as a
  timer. It is the explicit event `ExpireRecentLoginSpec` /
  `Auth.Flow.ExpireRecentLogin`.
- `Promise.all` over the deletes is modelled as one delete request per id, in
  order. Deletes have no observable outcome here, because their failures are
  swallowed. Concurrent webhook calls are not modelled: each update is handled
  to completion.
- Key-value TTL expiry is not modelled. A TTL is only recorded, so a
  `get` after `put` always sees the value.
- Failures of the key-value store itself are not modelled. The bindings'
  `put`, `get` and `delete` are taken never to throw.
- `console` logging is left out. So are the JSON schemas of updates and CRM
  replies, beyond the fields the code reads.
- `src/index.ts` is not part of this model. It is the HTTP front end that
  parses the webhook body and serialises the response.
- `src/teqtank/api.ts` is not part of this model. No core file imports it.
- Telegram.ResolveChatId: a chat id is an integer, and the `chat` object of a
  message is taken to be always present. A message id is likewise always a
  number.
- Invariants.Inv: its "fresh, increasing message ids" part (`TelegramClient.Fresh`)
  holds only because the Bot API is modelled as one global id counter. Telegram
  numbers messages per chat, so that part describes the modelled environment,
  not a promise of the bot's own code. In reality ids in different chats may
  coincide; the logs and deletions are kept per chat, and the other parts of
  `Inv` do not mention ids.
- Crm.CustomerContract: only `userCanLogIn` is kept, because it is the only
  field the guard chain reads.
