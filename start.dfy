/** `/start`: greet a chat that has no session with the main menu. */
module Start {
  import opened Common
  import opened KvHelpers
  import opened TelegramClient

  const AlreadyLoggedInText := "You're already logged in! Use /help to see available commands."
  const WelcomeText := "👋 Welcome to the TeqTank Bot! What would you like to do?"
  const StartErrorText := "An error occurred. Please try again later."

  /** The callback payloads of the menu's two buttons. */
  const LoginCallback := "cmd_login_username"
  const HelpCallback := "cmd_help"

  /** The welcome menu: one row of two buttons. */
  const Menu := MessageOptions(WelcomeText, None, Some(InlineKeyboard([[
    Button("🔑 Login", LoginCallback),
    Button("❓ Help", HelpCallback)
  ]])))

  /** The message `/start` sends, chosen by whether the chat has a session. */
  function StartMessage(session: Option<string>): Message {
    if Truthy(session) then Plain(AlreadyLoggedInText) else Structured(Menu)
  }

  /** `handleStart(chatId)`. */
  function HandleStartSpec(c: ClientState, kv: Kv, delivers: nat -> bool, chatId: ChatId): Handled {
    var sent := SendSpec(c, delivers, chatId, StartMessage(SessionOf(kv, chatId)));
    if sent.id.Normal? then Handled(sent.client, Normal(OK))
    else
      var fallback := SendSpec(sent.client, delivers, chatId, Plain(StartErrorText));
      Handled(fallback.client, if fallback.id.Normal? then Normal(OK) else Thrown)
  }

  /** With a session, the only request is the "already logged in" notice, and no menu is shown. */
  lemma StartWithSession(c: ClientState, kv: Kv, delivers: nat -> bool, chatId: ChatId)
    requires Truthy(SessionOf(kv, chatId)) && delivers(|c.sends|)
    ensures HandleStartSpec(c, kv, delivers, chatId)
         == Handled(SendSpec(c, delivers, chatId, Plain(AlreadyLoggedInText)).client, Normal(OK))
    ensures HandleStartSpec(c, kv, delivers, chatId).client.sends
         == c.sends + [SendRequest(chatId, Body(Plain(AlreadyLoggedInText)))]
  {
  }

  /**
   * Without a session, exactly one request is made: the menu, sent as the
   * structured payload it is (no escaping, no parse mode), whose one row holds
   * the Login and Help buttons.
   */
  lemma StartWithoutSession(c: ClientState, kv: Kv, delivers: nat -> bool, chatId: ChatId)
    requires !Truthy(SessionOf(kv, chatId)) && delivers(|c.sends|)
    ensures HandleStartSpec(c, kv, delivers, chatId).client.sends == c.sends + [SendRequest(chatId, Menu)]
    ensures HandleStartSpec(c, kv, delivers, chatId).result == Normal(OK)
    ensures Menu.parseMode == None && Menu.replyMarkup.Some?
    ensures |Menu.replyMarkup.value.rows| == 1 && |Menu.replyMarkup.value.rows[0]| == 2
    ensures Menu.replyMarkup.value.rows[0][0].callbackData == LoginCallback
    ensures Menu.replyMarkup.value.rows[0][1].callbackData == HelpCallback
  {
  }

  /** A failed first send is answered by exactly one apology; the handler throws only if that fails too. */
  lemma StartFallback(c: ClientState, kv: Kv, delivers: nat -> bool, chatId: ChatId)
    requires !delivers(|c.sends|)
    ensures |HandleStartSpec(c, kv, delivers, chatId).client.sends| == |c.sends| + 2
    ensures HandleStartSpec(c, kv, delivers, chatId).client.sends[|c.sends| + 1]
         == SendRequest(chatId, Body(Plain(StartErrorText)))
    ensures HandleStartSpec(c, kv, delivers, chatId).result == (if delivers(|c.sends| + 1) then Normal(OK) else Thrown)
  {
  }

  method HandleStart(client: Client, store: Store, chatId: ChatId) returns (result: Outcome<Response>)
    modifies client
    ensures Handled(client.Model(), result) == HandleStartSpec(old(client.Model()), store.entries, client.delivers, chatId)
  {
    var session := store.GetUserSession(chatId);
    var sent;
    if Truthy(session) {
      sent := client.SendTelegramMessage(chatId, Plain(AlreadyLoggedInText));
    } else {
      sent := client.SendTelegramMessage(chatId, Structured(Menu));
    }
    if sent.Normal? {
      return Normal(OK);
    }
    var fallback := client.SendTelegramMessage(chatId, Plain(StartErrorText));
    result := if fallback.Normal? then Normal(OK) else Thrown;
  }
}
