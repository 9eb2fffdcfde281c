/** What the update router promises, stated over `HandleTelegramUpdateSpec`. */
module RouterProperties {
  import opened Common
  import opened Strings
  import opened KvHelpers
  import opened TelegramClient
  import opened Crm
  import opened Auth
  import opened Start
  import opened Logout
  import opened Help
  import opened Telegram
  import opened AuthProperties

  /** The update resolves to `chatId`, which is truthy and not suppressed. */
  predicate Admitted(w: World, u: Update, chatId: ChatId) {
    ResolveChatId(u) == Normal(Some(chatId)) && chatId != 0 && chatId !in w.recent
  }

  /** The world after the tracking step. */
  function Tracked(w: World, u: Update, chatId: ChatId): World {
    w.(states := Track(w.states, chatId, MessageIdOf(u), CallbackMessageIdOf(u)))
  }

  /** An update without a truthy chat id is answered OK and changes nothing. */
  lemma NoChatIsNoOp(w: World, e: Env, u: Update)
    requires ResolveChatId(u).Normal? && !TruthyId(ResolveChatId(u).value)
    ensures HandleTelegramUpdateSpec(w, e, u) == Step(w, Normal(OK))
  {
  }

  /** While a chat is suppressed after a login, its updates are answered OK and change nothing. */
  lemma SuppressedIsNoOp(w: World, e: Env, u: Update, chatId: ChatId)
    requires ResolveChatId(u) == Normal(Some(chatId)) && chatId in w.recent
    ensures HandleTelegramUpdateSpec(w, e, u) == Step(w, Normal(OK))
  {
  }

  /** A callback query without its message fails on the chat lookup: the 500 response, and nothing changes. */
  lemma CallbackWithoutMessageIs500(w: World, e: Env, data: Option<string>, message: Option<IncomingMessage>)
    ensures HandleTelegramUpdateSpec(w, e, Update(message, Some(CallbackQuery(None, data)))) == Step(w, Normal(ServerError))
  {
  }

  /** The ids appended to a dialogue in progress, message id first; no state is made by tracking. */
  lemma TrackingAppends(w: World, u: Update, chatId: ChatId)
    ensures Tracked(w, u, chatId).states.Keys == w.states.Keys
    ensures chatId in w.states ==>
      Tracked(w, u, chatId).states[chatId].messageIds == w.states[chatId].messageIds + TrackedIds(MessageIdOf(u), CallbackMessageIdOf(u))
    ensures TruthyId(MessageIdOf(u)) && !TruthyId(CallbackMessageIdOf(u)) ==>
      TrackedIds(MessageIdOf(u), CallbackMessageIdOf(u)) == [MessageIdOf(u).value]
    ensures TruthyId(MessageIdOf(u)) && TruthyId(CallbackMessageIdOf(u)) ==>
      TrackedIds(MessageIdOf(u), CallbackMessageIdOf(u)) == [MessageIdOf(u).value, CallbackMessageIdOf(u).value]
  {
  }

  /** The login button starts the dialogue exactly as `handleAuth` with no text does. */
  lemma LoginButton(w: World, e: Env, u: Update, chatId: ChatId)
    requires Admitted(w, u, chatId)
    requires u.callbackQuery.Some? && u.callbackQuery.value.data == Some(LoginCallback)
    requires e.delivers(|w.client.sends|)
    ensures var r := HandleTelegramUpdateSpec(w, e, u);
      && r.result == Normal(OK)
      && r.world.states == Prompted(Tracked(w, u, chatId).states, chatId, w.client.nextId)
      && r.world.client.sends == w.client.sends + [SendRequest(chatId, Body(Plain(UsernamePrompt)))]
      && r.world.kv == w.kv && r.world.crm == w.crm
  {
    assert HandleTelegramUpdateSpec(w, e, u) == HandleAuthSpec(Tracked(w, u, chatId), e, chatId, None);
    LoginPromptOpensDialogue(Tracked(w, u, chatId), e, chatId, None);
  }

  /** The help button sends the help text and touches no dialogue, session or CRM. */
  lemma HelpButton(w: World, e: Env, u: Update, chatId: ChatId)
    requires Admitted(w, u, chatId)
    requires u.callbackQuery.Some? && u.callbackQuery.value.data == Some(HelpCallback)
    ensures var r := HandleTelegramUpdateSpec(w, e, u);
      && r == HelpStep(Tracked(w, u, chatId), e, chatId)
      && r.world.states == Tracked(w, u, chatId).states
      && r.world.kv == w.kv && r.world.crm == w.crm && r.world.recent == w.recent
  {
  }

  /** Any other button payload does nothing beyond tracking. */
  lemma OtherButton(w: World, e: Env, u: Update, chatId: ChatId)
    requires Admitted(w, u, chatId)
    requires u.callbackQuery.Some? && u.callbackQuery.value.data != Some(LoginCallback) && u.callbackQuery.value.data != Some(HelpCallback)
    ensures HandleTelegramUpdateSpec(w, e, u) == Step(Tracked(w, u, chatId), Normal(OK))
  {
  }

  lemma CommandPrefixesDiffer(text: string)
    ensures StartsWith(text, "/start") ==> !StartsWith(text, "/login") && !StartsWith(text, "/logout") && !StartsWith(text, "/help")
    ensures StartsWith(text, "/logout") ==> !StartsWith(text, "/login") && !StartsWith(text, "/start")
    ensures StartsWith(text, "/help") ==> !StartsWith(text, "/start") && !StartsWith(text, "/login") && !StartsWith(text, "/logout")
  {
    if StartsWith(text, "/start") { assert text[1] == 's'; }
    if StartsWith(text, "/logout") { assert text[4] == 'o'; assert text[1] == 'l'; }
    if StartsWith(text, "/help") { assert text[1] == 'h'; }
  }

  /**
   * `/start…` replaces the chat's dialogue by a fresh one holding only the
   * command's id, whatever was there, and runs `handleStart`: no other
   * dialogue, no session and no CRM request is touched.
   */
  lemma StartReplacesDialogue(w: World, e: Env, u: Update, chatId: ChatId)
    requires Admitted(w, u, chatId) && u.callbackQuery.None?
    requires Truthy(TextOf(u)) && StartsWith(TextOf(u).value, "/start")
    ensures var r := HandleTelegramUpdateSpec(w, e, u);
      && r.world.states == w.states[chatId := StartState(MessageIdOf(u))]
      && r.world.kv == w.kv && r.world.crm == w.crm && r.world.recent == w.recent
      && r.result == HandleStartSpec(w.client, w.kv, e.delivers, chatId).result
  {
    var w1 := Tracked(w, u, chatId);
    assert w1.states[chatId := StartState(MessageIdOf(u))] == w.states[chatId := StartState(MessageIdOf(u))];
  }

  /**
   * `/start`, `/logout` and `/help` never reach the login dialogue: no
   * CRM request is made, and `/logout` and `/help` leave every dialogue as
   * tracking left it.
   */
  lemma CommandsNeverAuthenticate(w: World, e: Env, u: Update, chatId: ChatId)
    requires Admitted(w, u, chatId) && u.callbackQuery.None? && Truthy(TextOf(u))
    requires StartsWith(TextOf(u).value, "/start") || StartsWith(TextOf(u).value, "/logout") || StartsWith(TextOf(u).value, "/help")
    ensures var r := HandleTelegramUpdateSpec(w, e, u);
      && r.world.crm == w.crm && r.world.recent == w.recent
      && (!StartsWith(TextOf(u).value, "/start") ==> r.world.states == Tracked(w, u, chatId).states)
  {
    CommandPrefixesDiffer(TextOf(u).value);
  }

  /** `/logout…` forgets the session and leaves the chat's log holding only the confirmation. */
  lemma LogoutCommand(w: World, e: Env, u: Update, chatId: ChatId)
    requires Admitted(w, u, chatId) && u.callbackQuery.None? && Truthy(TextOf(u))
    requires StartsWith(TextOf(u).value, "/logout") && e.delivers(|w.client.sends|)
    ensures var r := HandleTelegramUpdateSpec(w, e, u);
      && r.result == Normal(OK)
      && SessionOf(r.world.kv, chatId) == None
      && LogOf(r.world.client, chatId) == [w.client.nextId]
  {
    CommandPrefixesDiffer(TextOf(u).value);
    LogoutClearsThenConfirms(w.client, w.kv, e.delivers, chatId);
  }

  /** Other text goes to the dialogue exactly when the chat has one. */
  lemma FreeTextWithDialogue(w: World, e: Env, u: Update, chatId: ChatId)
    requires Admitted(w, u, chatId) && u.callbackQuery.None? && Truthy(TextOf(u))
    requires !StartsWith(TextOf(u).value, "/start") && !StartsWith(TextOf(u).value, "/login")
    requires !StartsWith(TextOf(u).value, "/logout") && !StartsWith(TextOf(u).value, "/help")
    requires chatId in w.states
    ensures HandleTelegramUpdateSpec(w, e, u) == HandleAuthSpec(Tracked(w, u, chatId), e, chatId, TextOf(u))
  {
  }

  /**
   * Without a dialogue, exactly one "don't understand" message is sent and
   * nothing else changes; the answer is OK, or the 500 response if that
   * send fails.
   */
  lemma FreeTextWithoutDialogue(w: World, e: Env, u: Update, chatId: ChatId)
    requires Admitted(w, u, chatId) && u.callbackQuery.None? && Truthy(TextOf(u))
    requires !StartsWith(TextOf(u).value, "/start") && !StartsWith(TextOf(u).value, "/login")
    requires !StartsWith(TextOf(u).value, "/logout") && !StartsWith(TextOf(u).value, "/help")
    requires chatId !in w.states
    ensures var r := HandleTelegramUpdateSpec(w, e, u);
      && r.world == w.(client := r.world.client)
      && r.world.client.sends == w.client.sends + [SendRequest(chatId, Body(Plain(DontUnderstandText)))]
      && r.result == (if e.delivers(|w.client.sends|) then Normal(OK) else Normal(ServerError))
  {
  }

  /**
   * A handler's failure is returned un-awaited from inside the router's
   * `try`, so it is not turned into the 500 response: `/help` with both the
   * help text and the apology undelivered ends in the thrown error.
   */
  lemma HandlerRejectionEscapes(w: World, e: Env, u: Update, chatId: ChatId)
    requires Admitted(w, u, chatId) && u.callbackQuery.None? && TextOf(u) == Some("/help")
    requires !e.delivers(|w.client.sends|) && !e.delivers(|w.client.sends| + 1)
    ensures HandleTelegramUpdateSpec(w, e, u).result == Thrown
  {
    var w1 := Tracked(w, u, chatId);
    CommandPrefixesDiffer("/help");
    assert StartsWith("/help", "/help");
    assert HandleTelegramUpdateSpec(w, e, u) == DispatchText(w1, e, chatId, MessageIdOf(u), "/help");
    assert DispatchText(w1, e, chatId, MessageIdOf(u), "/help") == HelpStep(w1, e, chatId);
    HelpFallback(w1.client, e.delivers, chatId);
  }
}
