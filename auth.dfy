/**
 * The per-chat login conversation: the `userStates` map of dialogues in
 * progress, the `recentLogins` suppression marks, the two-step
 * username/password dialogue with its one-line `/login user pass` shortcut,
 * and the authentication step that ends it.
 *
 * `World` is the value of everything the handlers touch: the two maps of this
 * module, the Telegram client, the key-value store and the CRM requests made.
 * Each operation is a function from one world to the next (`...Spec`), and a
 * method of `Flow` that does the same by updating the objects in place.
 */
module Auth {
  import opened Common
  import opened Strings
  import opened KvHelpers
  import opened TelegramClient
  import opened Crm
  import opened AdminToken
  import opened RepAuth

  const UsernamePrompt := "Please enter your username:"
  const CredentialsFormatPrompt := "Please provide both username and password. Format: /login username password"
  const SessionExpiredText := "❌ Session expired. Please start over with /login"
  const PasswordPrompt := "Great! Now please enter your password:"
  const AuthFailedText := "❌ Authentication failed. Please check your username and password and try again with /login"
  const LoginSuccessText := "✅ Successfully logged in! You can now use the bot's features."
  const AuthErrorText := "An error occurred while processing your request. Please try again later."

  /** A dialogue in progress: the username once given, and the ids to delete when it ends. */
  datatype UserState = UserState(username: Option<string>, messageIds: seq<MessageId>)

  datatype World = World(
    states: map<ChatId, UserState>,
    recent: set<ChatId>,
    client: ClientState,
    kv: Kv,
    crm: CrmState)

  /** The outside world's answers: the Bot API's deliveries and the CRM's configuration and replies. */
  datatype Env = Env(delivers: nat -> bool, crm: CrmApi)

  /** A handler's effect: the world afterwards and the response, or the error it threw. */
  datatype Step = Step(world: World, result: Outcome<Response>)

  // ---------------------------------------------------------------------------
  // building blocks

  /** Send a plain message and answer OK; a failed send is thrown. */
  function Reply(w: World, e: Env, chatId: ChatId, text: string): Step {
    var sent := SendSpec(w.client, e.delivers, chatId, Plain(text));
    Step(w.(client := sent.client), if sent.id.Normal? then Normal(OK) else Thrown)
  }

  /** Send a plain message and push its id onto the chat's dialogue state. */
  function Prompt(w: World, e: Env, chatId: ChatId, text: string): Step
    requires chatId in w.states
  {
    var sent := SendSpec(w.client, e.delivers, chatId, Plain(text));
    if sent.id.Normal? then
      var state := w.states[chatId];
      var state' := state.(messageIds := state.messageIds + [sent.id.value]);
      Step(w.(client := sent.client, states := w.states[chatId := state']), Normal(OK))
    else
      Step(w.(client := sent.client), Thrown)
  }

  /** `if (!state) { state = { messageIds: [] }; userStates.set(chatId, state); }` */
  function EnsureState(w: World, chatId: ChatId): (w': World)
    ensures chatId in w'.states
  {
    if chatId in w.states then w else w.(states := w.states[chatId := UserState(None, [])])
  }

  /** One best-effort deleteMessage per id (`Promise.all` over `deleteMessage`, taken in order). */
  function DeleteAllSpec(c: ClientState, chatId: ChatId, ids: seq<MessageId>): ClientState {
    c.(deletions := c.deletions + DeletionsOf(chatId, ids))
  }

  // ---------------------------------------------------------------------------
  // the operations

  /** `authenticateUser(chatId, username, password)`. */
  function AuthenticateUserSpec(w: World, e: Env, chatId: ChatId, username: string, password: string): Step {
    if chatId !in w.states then
      Reply(w, e, chatId, SessionExpiredText)
    else
      var rep := GetRepTokenSpec(w.kv, w.crm, e.crm, username, password);
      var w1 := w.(kv := rep.kv, crm := rep.crm);
      if !Truthy(rep.token) then
        Prompt(w1, e, chatId, AuthFailedText)
      else
        var kv2 := WithSession(w1.kv, chatId, rep.token.value);
        var c2 := DeleteAllSpec(w1.client, chatId, w.states[chatId].messageIds);
        var sent := SendSpec(c2, e.delivers, chatId, Plain(LoginSuccessText));
        if sent.id.Normal? then
          Step(w1.(kv := kv2, client := sent.client, recent := w1.recent + {chatId}, states := w1.states - {chatId}), Normal(OK))
        else
          // the failed confirmation is caught by the cleanup `try`: nothing after it happens
          Step(w1.(kv := kv2, client := sent.client), Normal(OK))
  }

  /** The `try` block of `handleAuth(chatId, text)`. */
  function HandleAuthTrySpec(w: World, e: Env, chatId: ChatId, text: Option<string>): Step {
    if !Truthy(text) || text.value == "/login" then
      Prompt(EnsureState(w, chatId), e, chatId, UsernamePrompt)
    else if StartsWith(text.value, "/login") then
      var parts := Split(text.value, ' ');
      var username := Nth(parts, 1);
      var password := Nth(parts, 2);
      if !Truthy(username) || !Truthy(password) then
        Prompt(EnsureState(w, chatId), e, chatId, CredentialsFormatPrompt)
      else
        AuthenticateUserSpec(w, e, chatId, username.value, password.value)
    else if chatId !in w.states then
      Reply(w, e, chatId, SessionExpiredText)
    else if !Truthy(w.states[chatId].username) then
      var state := w.states[chatId];
      Prompt(w.(states := w.states[chatId := state.(username := text)]), e, chatId, PasswordPrompt)
    else
      AuthenticateUserSpec(w, e, chatId, w.states[chatId].username.value, text.value)
  }

  /** `handleAuth(chatId, text)`: the `try` block, and on an error the apology of its `catch`. */
  function HandleAuthSpec(w: World, e: Env, chatId: ChatId, text: Option<string>): Step {
    var attempt := HandleAuthTrySpec(w, e, chatId, text);
    if attempt.result.Thrown? then Reply(attempt.world, e, chatId, AuthErrorText) else attempt
  }

  /** The 2-second timer after a login firing: `recentLogins.delete(chatId)`. */
  function ExpireRecentLoginSpec(w: World, chatId: ChatId): World {
    w.(recent := w.recent - {chatId})
  }

  // ---------------------------------------------------------------------------
  // the module state and its methods

  /** `deleteMessage`: one best-effort request; its failure is logged and swallowed. */
  method DeleteMessage(client: Client, chatId: ChatId, messageId: MessageId)
    modifies client
    ensures client.Model() == DeleteSpec(old(client.Model()), chatId, messageId)
  {
    client.RequestDelete(chatId, messageId);
  }

  /** The deletes of a successful login, one after the other. */
  method DeleteMessages(client: Client, chatId: ChatId, ids: seq<MessageId>)
    modifies client
    ensures client.Model() == DeleteAllSpec(old(client.Model()), chatId, ids)
  {
    var i := 0;
    while i < |ids|
      invariant 0 <= i <= |ids|
      invariant client.Model() == DeleteAllSpec(old(client.Model()), chatId, ids[..i])
    {
      DeleteMessage(client, chatId, ids[i]);
      assert ids[..i + 1][..i] == ids[..i];
      i := i + 1;
    }
    assert ids[..i] == ids;
  }

  /** The module-level maps of the login flow. */
  class Flow {
    var userStates: map<ChatId, UserState>
    var recentLogins: set<ChatId>

    constructor ()
      ensures userStates == map[] && recentLogins == {}
    {
      userStates := map[];
      recentLogins := {};
    }

    /** Everything a handler can touch, as one value. */
    function Snapshot(client: Client, store: Store, crm: Service): World
      reads this, client, store, crm
    {
      World(userStates, recentLogins, client.Model(), store.entries, crm.Model())
    }

    /** `state.messageIds.push(...)` for the state of `chatId`. */
    method PushMessageId(chatId: ChatId, messageId: MessageId)
      requires chatId in userStates
      modifies this
      ensures recentLogins == old(recentLogins)
      ensures userStates == old(userStates)[chatId := old(userStates)[chatId].(messageIds := old(userStates)[chatId].messageIds + [messageId])]
    {
      var state := userStates[chatId];
      userStates := userStates[chatId := state.(messageIds := state.messageIds + [messageId])];
    }

    method AuthenticateUser(client: Client, store: Store, crm: Service, chatId: ChatId, username: string, password: string)
      returns (result: Outcome<Response>)
      modifies this, client, store, crm
      ensures Step(Snapshot(client, store, crm), result)
           == AuthenticateUserSpec(old(Snapshot(client, store, crm)), Env(client.delivers, crm.api), chatId, username, password)
    {
      if chatId !in userStates {
        var sent := client.SendTelegramMessage(chatId, Plain(SessionExpiredText));
        return if sent.Normal? then Normal(OK) else Thrown;
      }
      var token := GetRepToken(store, crm, username, password);
      if !Truthy(token) {
        var sent := client.SendTelegramMessage(chatId, Plain(AuthFailedText));
        if sent.Thrown? {
          return Thrown;
        }
        PushMessageId(chatId, sent.value);
        return Normal(OK);
      }
      store.SaveUserSession(chatId, token.value);
      DeleteMessages(client, chatId, userStates[chatId].messageIds);
      var sent := client.SendTelegramMessage(chatId, Plain(LoginSuccessText));
      if sent.Thrown? {
        return Normal(OK);
      }
      recentLogins := recentLogins + {chatId};
      userStates := userStates - {chatId};
      result := Normal(OK);
    }

    /** Send a prompt and record its id in the chat's state. */
    method SendPrompt(client: Client, store: Store, crm: Service, chatId: ChatId, text: string)
      returns (result: Outcome<Response>)
      requires chatId in userStates
      modifies this, client
      ensures Step(Snapshot(client, store, crm), result)
           == Prompt(old(Snapshot(client, store, crm)), Env(client.delivers, crm.api), chatId, text)
    {
      var sent := client.SendTelegramMessage(chatId, Plain(text));
      if sent.Thrown? {
        return Thrown;
      }
      PushMessageId(chatId, sent.value);
      result := Normal(OK);
    }

    /** The `try` block of `handleAuth`. */
    method HandleAuthTry(client: Client, store: Store, crm: Service, chatId: ChatId, text: Option<string>)
      returns (result: Outcome<Response>)
      modifies this, client, store, crm
      ensures Step(Snapshot(client, store, crm), result)
           == HandleAuthTrySpec(old(Snapshot(client, store, crm)), Env(client.delivers, crm.api), chatId, text)
    {
      if !Truthy(text) || text.value == "/login" {
        if chatId !in userStates {
          userStates := userStates[chatId := UserState(None, [])];
        }
        result := SendPrompt(client, store, crm, chatId, UsernamePrompt);
        return;
      }
      if StartsWith(text.value, "/login") {
        var parts := Split(text.value, ' ');
        var username := Nth(parts, 1);
        var password := Nth(parts, 2);
        if !Truthy(username) || !Truthy(password) {
          if chatId !in userStates {
            userStates := userStates[chatId := UserState(None, [])];
          }
          result := SendPrompt(client, store, crm, chatId, CredentialsFormatPrompt);
          return;
        }
        result := AuthenticateUser(client, store, crm, chatId, username.value, password.value);
        return;
      }
      if chatId !in userStates {
        var sent := client.SendTelegramMessage(chatId, Plain(SessionExpiredText));
        return if sent.Normal? then Normal(OK) else Thrown;
      }
      var state := userStates[chatId];
      if !Truthy(state.username) {
        userStates := userStates[chatId := state.(username := text)];
        result := SendPrompt(client, store, crm, chatId, PasswordPrompt);
      } else {
        result := AuthenticateUser(client, store, crm, chatId, state.username.value, text.value);
      }
    }

    /** `handleAuth(chatId, text)`. */
    method HandleAuth(client: Client, store: Store, crm: Service, chatId: ChatId, text: Option<string>)
      returns (result: Outcome<Response>)
      modifies this, client, store, crm
      ensures Step(Snapshot(client, store, crm), result)
           == HandleAuthSpec(old(Snapshot(client, store, crm)), Env(client.delivers, crm.api), chatId, text)
    {
      result := HandleAuthTry(client, store, crm, chatId, text);
      if result.Thrown? {
        var sent := client.SendTelegramMessage(chatId, Plain(AuthErrorText));
        result := if sent.Normal? then Normal(OK) else Thrown;
      }
    }

    /** The 2-second timer set after a login fires. */
    method ExpireRecentLogin(client: Client, store: Store, crm: Service, chatId: ChatId)
      modifies this
      ensures Snapshot(client, store, crm) == ExpireRecentLoginSpec(old(Snapshot(client, store, crm)), chatId)
    {
      recentLogins := recentLogins - {chatId};
    }
  }
}
