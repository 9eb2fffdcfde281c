/** What the login dialogue promises, stated over `HandleAuthSpec` and `AuthenticateUserSpec`. */
module AuthProperties {
  import opened Common
  import opened Strings
  import opened KvHelpers
  import opened TelegramClient
  import opened Crm
  import opened AdminToken
  import opened RepAuth
  import opened Auth

  /** Text that takes the dialogue path of `handleAuth`: truthy and not a `/login` command. */
  predicate FreeText(text: string) {
    text != "" && !StartsWith(text, "/login")
  }

  /** The state a prompt leaves: the chat's state, made if missing, with the prompt's id appended. */
  function Prompted(states: map<ChatId, UserState>, chatId: ChatId, id: MessageId): map<ChatId, UserState> {
    var state := if chatId in states then states[chatId] else UserState(None, []);
    states[chatId := state.(messageIds := state.messageIds + [id])]
  }

  /** The customer requests grew by at most one, and only for these credentials. */
  predicate AtMostOneAttempt(before: seq<CustomerRequest>, after: seq<CustomerRequest>, username: string, password: string) {
    || after == before
    || (&& |after| == |before| + 1 && after[..|before|] == before
        && after[|before|].username == username && after[|before|].password == password)
  }

  /** Authentication makes the CRM requests of `getRepToken` when there is a state, and none otherwise. */
  lemma AuthenticateUserRequests(w: World, e: Env, chatId: ChatId, username: string, password: string)
    ensures AuthenticateUserSpec(w, e, chatId, username, password).world.crm
         == (if chatId in w.states then GetRepTokenSpec(w.kv, w.crm, e.crm, username, password).crm else w.crm)
  {
  }

  /** The `catch` of `handleAuth` sends an apology and changes nothing but the client. */
  lemma CatchOnlySends(w: World, e: Env, chatId: ChatId, text: Option<string>)
    ensures var attempt := HandleAuthTrySpec(w, e, chatId, text);
      HandleAuthSpec(w, e, chatId, text).world == attempt.world.(client := HandleAuthSpec(w, e, chatId, text).world.client)
  {
  }

  /** A delivered prompt: exactly one send, and its id appended to the chat's state. */
  lemma PromptDelivered(w: World, e: Env, chatId: ChatId, text: string)
    requires chatId in w.states && e.delivers(|w.client.sends|)
    ensures var r := Prompt(w, e, chatId, text);
      && r.result == Normal(OK)
      && r.world.states == Prompted(w.states, chatId, w.client.nextId)
      && r.world.client.sends == w.client.sends + [SendRequest(chatId, Body(Plain(text)))]
      && r.world.kv == w.kv && r.world.crm == w.crm && r.world.recent == w.recent
  {
  }

  /** Making the state first does not change what a prompt leaves. */
  lemma PromptedAfterEnsure(w: World, chatId: ChatId, id: MessageId)
    ensures Prompted(EnsureState(w, chatId).states, chatId, id) == Prompted(w.states, chatId, id)
  {
  }

  /** A prompt after making sure there is a state, as the two prompting branches of `handleAuth` do. */
  lemma OpenPromptDelivered(w: World, e: Env, chatId: ChatId, text: string)
    requires e.delivers(|w.client.sends|)
    ensures var r := Prompt(EnsureState(w, chatId), e, chatId, text);
      && r.result == Normal(OK)
      && r.world.states == Prompted(w.states, chatId, w.client.nextId)
      && r.world.client.sends == w.client.sends + [SendRequest(chatId, Body(Plain(text)))]
      && r.world.kv == w.kv && r.world.crm == w.crm && r.world.recent == w.recent
  {
    PromptDelivered(EnsureState(w, chatId), e, chatId, text);
    PromptedAfterEnsure(w, chatId, w.client.nextId);
  }

  /**
   * No text, or exactly `/login`: the chat's state is kept (or made, with no
   * username) and the prompt's id is its last id; nothing else changes.
   */
  lemma LoginPromptOpensDialogue(w: World, e: Env, chatId: ChatId, text: Option<string>)
    requires !Truthy(text) || text == Some("/login")
    requires e.delivers(|w.client.sends|)
    ensures var r := HandleAuthSpec(w, e, chatId, text);
      && r.result == Normal(OK)
      && r.world.states == Prompted(w.states, chatId, w.client.nextId)
      && r.world.client.sends == w.client.sends + [SendRequest(chatId, Body(Plain(UsernamePrompt)))]
      && r.world.kv == w.kv && r.world.crm == w.crm && r.world.recent == w.recent
  {
    assert HandleAuthTrySpec(w, e, chatId, text) == Prompt(EnsureState(w, chatId), e, chatId, UsernamePrompt);
    OpenPromptDelivered(w, e, chatId, UsernamePrompt);
  }

  /** Free text with no dialogue in progress: "Session expired", no state made, no CRM request. */
  lemma FreeTextWithoutDialogue(w: World, e: Env, chatId: ChatId, text: string)
    requires FreeText(text) && chatId !in w.states
    ensures var r := HandleAuthSpec(w, e, chatId, Some(text));
      && r.world.states == w.states && r.world.kv == w.kv && r.world.crm == w.crm && r.world.recent == w.recent
      && (e.delivers(|w.client.sends|) ==>
            r.result == Normal(OK) && r.world.client.sends == w.client.sends + [SendRequest(chatId, Body(Plain(SessionExpiredText)))])
  {
  }

  /**
   * Free text while no username is known: it becomes the username, verbatim,
   * whether or not the password prompt goes out; no authentication is tried.
   */
  lemma UsernameStep(w: World, e: Env, chatId: ChatId, text: string)
    requires FreeText(text) && chatId in w.states && !Truthy(w.states[chatId].username)
    ensures var r := HandleAuthSpec(w, e, chatId, Some(text));
      && r.world.states.Keys == w.states.Keys
      && r.world.states[chatId].username == Some(text)
      && (forall c :: c in w.states && c != chatId ==> r.world.states[c] == w.states[c])
      && r.world.kv == w.kv && r.world.crm == w.crm && r.world.recent == w.recent
      && (e.delivers(|w.client.sends|) ==>
            r.result == Normal(OK) && r.world.states[chatId].messageIds == w.states[chatId].messageIds + [w.client.nextId])
  {
  }

  /** Free text once the username is known is the password: authentication with exactly that pair. */
  lemma PasswordStep(w: World, e: Env, chatId: ChatId, text: string)
    requires FreeText(text) && chatId in w.states && Truthy(w.states[chatId].username)
    ensures HandleAuthTrySpec(w, e, chatId, Some(text))
         == AuthenticateUserSpec(w, e, chatId, w.states[chatId].username.value, text)
    ensures AtMostOneAttempt(w.crm.customerRequests, HandleAuthSpec(w, e, chatId, Some(text)).world.crm.customerRequests,
                             w.states[chatId].username.value, text)
  {
    AuthenticateUserRequests(w, e, chatId, w.states[chatId].username.value, text);
    CatchOnlySends(w, e, chatId, Some(text));
  }

  /** The two steps together: the request made is for the username given first and the password given second. */
  lemma TwoStepLogin(w: World, e: Env, chatId: ChatId, username: string, password: string)
    requires FreeText(username) && FreeText(password)
    requires chatId in w.states && !Truthy(w.states[chatId].username)
    ensures var w1 := HandleAuthSpec(w, e, chatId, Some(username)).world;
      HandleAuthTrySpec(w1, e, chatId, Some(password)) == AuthenticateUserSpec(w1, e, chatId, username, password)
    ensures var w1 := HandleAuthSpec(w, e, chatId, Some(username)).world;
      AtMostOneAttempt(w.crm.customerRequests, HandleAuthSpec(w1, e, chatId, Some(password)).world.crm.customerRequests,
                       username, password)
    ensures var w1 := HandleAuthSpec(w, e, chatId, Some(username)).world;
      var admin := FetchAdminTokenSpec(w.kv, w.crm, e.crm);
      admin.token.Some? ==>
        HandleAuthSpec(w1, e, chatId, Some(password)).world.crm.customerRequests
        == w.crm.customerRequests + [CustomerRequest(username, password, admin.token.value)]
  {
    UsernameStep(w, e, chatId, username);
    var w1 := HandleAuthSpec(w, e, chatId, Some(username)).world;
    PasswordStep(w1, e, chatId, password);
    AuthenticateUserRequests(w1, e, chatId, username, password);
    CatchOnlySends(w1, e, chatId, Some(password));
  }

  /**
   * A `/login…` line whose second or third space-separated piece is missing
   * or empty re-prompts for the format, like the bare command, and tries nothing.
   */
  lemma ShortcutMissingFields(w: World, e: Env, chatId: ChatId, text: string)
    requires StartsWith(text, "/login") && text != "/login"
    requires !Truthy(Nth(Split(text, ' '), 1)) || !Truthy(Nth(Split(text, ' '), 2))
    requires e.delivers(|w.client.sends|)
    ensures var r := HandleAuthSpec(w, e, chatId, Some(text));
      && r.result == Normal(OK)
      && r.world.states == Prompted(w.states, chatId, w.client.nextId)
      && r.world.client.sends == w.client.sends + [SendRequest(chatId, Body(Plain(CredentialsFormatPrompt)))]
      && r.world.kv == w.kv && r.world.crm == w.crm && r.world.recent == w.recent
  {
    assert HandleAuthTrySpec(w, e, chatId, Some(text)) == Prompt(EnsureState(w, chatId), e, chatId, CredentialsFormatPrompt);
    OpenPromptDelivered(w, e, chatId, CredentialsFormatPrompt);
  }

  /** `/login name` with no password is such a line. */
  lemma ShortcutWithoutPassword(username: string)
    requires ' ' !in username
    ensures StartsWith("/login " + username, "/login") && "/login " + username != "/login"
    ensures !Truthy(Nth(Split("/login " + username, ' '), 2))
  {
    var parts := ["/login", username];
    assert ' ' !in parts[0];
    SplitOfJoin(parts, ' ');
    assert Join(parts, ' ') == "/login " + username;
    assert |"/login " + username| > |"/login"|;
  }

  /** The line `/login name pass` splits back into its two credentials. */
  lemma ShortcutParses(username: string, password: string)
    requires ' ' !in username && ' ' !in password
    ensures Split("/login " + username + " " + password, ' ') == ["/login", username, password]
  {
    var command := "/login";
    assert ' ' !in command;
    SplitOfThree(command, username, password, ' ');
    assert command + [' '] + username + [' '] + password == "/login " + username + " " + password;
  }

  /** With a dialogue in progress, the one-line form authenticates with exactly the two credentials. */
  lemma ShortcutAuthenticates(w: World, e: Env, chatId: ChatId, username: string, password: string)
    requires ' ' !in username && ' ' !in password && username != "" && password != ""
    ensures var text := "/login " + username + " " + password;
      HandleAuthTrySpec(w, e, chatId, Some(text)) == AuthenticateUserSpec(w, e, chatId, username, password)
  {
    ShortcutParses(username, password);
    var text := "/login " + username + " " + password;
    assert text == "/login" + (" " + username + " " + password);
    assert text != "/login";
  }

  /** Without one, it answers "Session expired" and never reaches the CRM. */
  lemma ShortcutWithoutDialogue(w: World, e: Env, chatId: ChatId, username: string, password: string)
    requires ' ' !in username && ' ' !in password && username != "" && password != ""
    requires chatId !in w.states
    ensures var r := HandleAuthSpec(w, e, chatId, Some("/login " + username + " " + password));
      && r.world.states == w.states && r.world.kv == w.kv && r.world.crm == w.crm && r.world.recent == w.recent
      && (e.delivers(|w.client.sends|) ==>
            r.result == Normal(OK) && r.world.client.sends == w.client.sends + [SendRequest(chatId, Body(Plain(SessionExpiredText)))])
  {
    ShortcutAuthenticates(w, e, chatId, username, password);
  }

  /**
   * A rejected attempt keeps the dialogue (the username included) for another
   * try, appends the failure notice's id, saves no session and suppresses nothing.
   */
  lemma FailedAuthenticationKeepsDialogue(w: World, e: Env, chatId: ChatId, username: string, password: string)
    requires chatId in w.states
    requires GetRepTokenSpec(w.kv, w.crm, e.crm, username, password).token.None?
    requires e.delivers(|w.client.sends|)
    ensures var r := AuthenticateUserSpec(w, e, chatId, username, password);
      && r.result == Normal(OK)
      && r.world.states == Prompted(w.states, chatId, w.client.nextId)
      && r.world.states[chatId].username == w.states[chatId].username
      && (forall c :: SessionOf(r.world.kv, c) == SessionOf(w.kv, c))
      && r.world.recent == w.recent
      && r.world.client.sends == w.client.sends + [SendRequest(chatId, Body(Plain(AuthFailedText)))]
  {
  }

  /**
   * An accepted attempt saves the session under the token, asks for every
   * tracked id to be deleted, confirms, ends the dialogue and suppresses the chat.
   */
  lemma SuccessfulAuthenticationEndsDialogue(w: World, e: Env, chatId: ChatId, username: string, password: string)
    requires chatId in w.states
    requires GetRepTokenSpec(w.kv, w.crm, e.crm, username, password).token.Some?
    requires e.delivers(|w.client.sends|)
    ensures var token := GetRepTokenSpec(w.kv, w.crm, e.crm, username, password).token.value;
      var r := AuthenticateUserSpec(w, e, chatId, username, password);
      && r.result == Normal(OK)
      && SessionOf(r.world.kv, chatId) == Some(token)
      && r.world.kv[SessionKey(chatId)].ttl == TokenExpiry
      && (forall c :: c != chatId ==> SessionOf(r.world.kv, c) == SessionOf(w.kv, c))
      && r.world.client.deletions == w.client.deletions + DeletionsOf(chatId, w.states[chatId].messageIds)
      && r.world.client.sends == w.client.sends + [SendRequest(chatId, Body(Plain(LoginSuccessText)))]
      && r.world.states == w.states - {chatId}
      && r.world.recent == w.recent + {chatId}
  {
  }

  /**
   * The password step can succeed: with the configuration complete, a granted
   * admin token, an accepting customer reply and the confirmation delivered,
   * the session is saved under that token, the dialogue ends and the chat is
   * suppressed.
   */
  lemma PasswordStepLogsIn(w: World, e: Env, chatId: ChatId, text: string, token: string)
    requires FreeText(text) && chatId in w.states && Truthy(w.states[chatId].username)
    requires Complete(e.crm.config) && Grants(e.crm.adminReply(w.crm.adminRequests), token)
    requires Accepts(e.crm.customerReply(|w.crm.customerRequests|))
    requires e.delivers(|w.client.sends|)
    ensures GetRepTokenSpec(w.kv, w.crm, e.crm, w.states[chatId].username.value, text).token == Some(token)
    ensures var r := HandleAuthSpec(w, e, chatId, Some(text));
      && r.result == Normal(OK)
      && SessionOf(r.world.kv, chatId) == Some(token)
      && r.world.crm.customerRequests
         == w.crm.customerRequests + [CustomerRequest(w.states[chatId].username.value, text, token)]
      && r.world.client.deletions == w.client.deletions + DeletionsOf(chatId, w.states[chatId].messageIds)
      && r.world.states == w.states - {chatId}
      && r.world.recent == w.recent + {chatId}
  {
    var username := w.states[chatId].username.value;
    AcceptedCredentialsYieldToken(w.kv, w.crm, e.crm, username, text, token);
    PasswordStep(w, e, chatId, text);
    SuccessfulAuthenticationEndsDialogue(w, e, chatId, username, text);
    AuthenticateUserRequests(w, e, chatId, username, text);
  }

  /**
   * If the confirmation cannot be sent, the cleanup `catch` swallows it: the
   * session is saved and the deletions asked for, but the dialogue stays and
   * the chat is not suppressed.
   */
  lemma UndeliveredConfirmation(w: World, e: Env, chatId: ChatId, username: string, password: string)
    requires chatId in w.states
    requires GetRepTokenSpec(w.kv, w.crm, e.crm, username, password).token.Some?
    requires !e.delivers(|w.client.sends|)
    ensures var token := GetRepTokenSpec(w.kv, w.crm, e.crm, username, password).token.value;
      var r := AuthenticateUserSpec(w, e, chatId, username, password);
      && r.result == Normal(OK)
      && SessionOf(r.world.kv, chatId) == Some(token)
      && r.world.client.deletions == w.client.deletions + DeletionsOf(chatId, w.states[chatId].messageIds)
      && r.world.states == w.states
      && r.world.recent == w.recent
  {
  }
}
