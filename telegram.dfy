/**
 * `handleTelegramUpdate`: resolve the chat, drop updates right after a login,
 * track message ids in a dialogue in progress, and dispatch callbacks by
 * payload and text by prefix.
 */
module Telegram {
  import opened Common
  import opened Strings
  import opened KvHelpers
  import opened TelegramClient
  import opened Crm
  import opened Auth
  import opened Start
  import opened Logout
  import opened Help

  const DontUnderstandText := "I don't understand that command. Type /help to see available commands."

  // ---------------------------------------------------------------------------
  // the fields of an update the router reads

  datatype IncomingMessage = IncomingMessage(messageId: MessageId, chatId: ChatId, text: Option<string>)
  datatype CallbackQuery = CallbackQuery(message: Option<IncomingMessage>, data: Option<string>)
  datatype Update = Update(message: Option<IncomingMessage>, callbackQuery: Option<CallbackQuery>)

  /**
   * `callback_query?.message.chat.id || message?.chat.id`: a callback query
   * without a message makes the property access throw; a zero chat id of the
   * callback's message falls through to the message's.
   */
  function ResolveChatId(u: Update): (r: Outcome<Option<ChatId>>)
    ensures r.Thrown? <==> u.callbackQuery.Some? && u.callbackQuery.value.message.None?
    ensures u.callbackQuery.Some? && u.callbackQuery.value.message.Some? && u.callbackQuery.value.message.value.chatId != 0 ==>
      r == Normal(Some(u.callbackQuery.value.message.value.chatId))
    ensures r.Normal? && r.value.Some? && u.callbackQuery.Some? ==> r.value.value != 0 || u.message.Some?
    ensures r.Normal? && r.value.None? ==> u.message.None?
    ensures u.callbackQuery.None? || (u.callbackQuery.value.message.Some? && u.callbackQuery.value.message.value.chatId == 0) ==>
      r == Normal(if u.message.Some? then Some(u.message.value.chatId) else None)
  {
    var fromMessage := if u.message.Some? then Some(u.message.value.chatId) else None;
    if u.callbackQuery.None? then Normal(fromMessage)
    else if u.callbackQuery.value.message.None? then Thrown
    else if u.callbackQuery.value.message.value.chatId != 0 then Normal(Some(u.callbackQuery.value.message.value.chatId))
    else Normal(fromMessage)
  }

  /** `update.message?.message_id` */
  function MessageIdOf(u: Update): Option<MessageId> {
    if u.message.Some? then Some(u.message.value.messageId) else None
  }

  /** `update.callback_query?.message?.message_id` */
  function CallbackMessageIdOf(u: Update): Option<MessageId> {
    if u.callbackQuery.Some? && u.callbackQuery.value.message.Some? then Some(u.callbackQuery.value.message.value.messageId)
    else None
  }

  /** `update.message?.text` */
  function TextOf(u: Update): Option<string> {
    if u.message.Some? then u.message.value.text else None
  }

  /** The truthy ones of the two ids, message id first. */
  function TrackedIds(messageId: Option<MessageId>, callbackMessageId: Option<MessageId>): seq<MessageId> {
    (if TruthyId(messageId) then [messageId.value] else []) + (if TruthyId(callbackMessageId) then [callbackMessageId.value] else [])
  }

  /** Append the update's ids to the chat's dialogue state, if there is one. */
  function Track(states: map<ChatId, UserState>, chatId: ChatId, messageId: Option<MessageId>, callbackMessageId: Option<MessageId>)
    : (states': map<ChatId, UserState>)
    ensures states'.Keys == states.Keys
    ensures forall c :: c in states && c != chatId ==> states'[c] == states[c]
    ensures chatId in states ==> states'[chatId].username == states[chatId].username
    ensures chatId in states ==>
      states'[chatId].messageIds == states[chatId].messageIds + TrackedIds(messageId, callbackMessageId)
  {
    if TrackedIds(messageId, callbackMessageId) != [] && chatId in states then
      var state := states[chatId];
      states[chatId := state.(messageIds := state.messageIds + TrackedIds(messageId, callbackMessageId))]
    else
      assert chatId in states ==> states[chatId].messageIds + [] == states[chatId].messageIds;
      states
  }

  /** The fresh dialogue state `/start` installs. */
  function StartState(messageId: Option<MessageId>): UserState {
    UserState(None, if TruthyId(messageId) then [messageId.value] else [])
  }

  // ---------------------------------------------------------------------------
  // the command handlers, lifted to the world

  function StartStep(w: World, e: Env, chatId: ChatId): Step {
    var h := HandleStartSpec(w.client, w.kv, e.delivers, chatId);
    Step(w.(client := h.client), h.result)
  }

  function LogoutStep(w: World, e: Env, chatId: ChatId): Step {
    var r := HandleLogoutSpec(w.client, w.kv, e.delivers, chatId);
    Step(w.(client := r.handled.client, kv := r.kv), r.handled.result)
  }

  function HelpStep(w: World, e: Env, chatId: ChatId): Step {
    var h := HandleHelpSpec(w.client, e.delivers, chatId);
    Step(w.(client := h.client), h.result)
  }

  // ---------------------------------------------------------------------------
  // dispatch

  /** A button press: the login button starts the dialogue, the help button shows help. */
  function DispatchCallback(w: World, e: Env, chatId: ChatId, data: Option<string>): Step {
    if data == Some(LoginCallback) then HandleAuthSpec(w, e, chatId, None)
    else if data == Some(HelpCallback) then HelpStep(w, e, chatId)
    else Step(w, Normal(OK))
  }

  /** A text message, by prefix in a fixed order, then the dialogue, then the fallback. */
  function DispatchText(w: World, e: Env, chatId: ChatId, messageId: Option<MessageId>, text: string): Step {
    if StartsWith(text, "/start") then
      StartStep(w.(states := w.states[chatId := StartState(messageId)]), e, chatId)
    else if StartsWith(text, "/login") then HandleAuthSpec(w, e, chatId, Some(text))
    else if StartsWith(text, "/logout") then LogoutStep(w, e, chatId)
    else if StartsWith(text, "/help") then HelpStep(w, e, chatId)
    else if chatId in w.states then HandleAuthSpec(w, e, chatId, Some(text))
    else
      var sent := SendSpec(w.client, e.delivers, chatId, Plain(DontUnderstandText));
      Step(w.(client := sent.client), if sent.id.Normal? then Normal(OK) else Normal(ServerError))
  }

  /**
   * `handleTelegramUpdate(update)`. A handler's own rejection is returned
   * un-awaited from inside the `try`, so it is not turned into a 500: it
   * stays `Thrown`. Only the failures the router itself awaits or raises
   * become the 500 response.
   */
  function HandleTelegramUpdateSpec(w: World, e: Env, u: Update): Step {
    match ResolveChatId(u)
    case Thrown => Step(w, Normal(ServerError))
    case Normal(chat) =>
      if !TruthyId(chat) then Step(w, Normal(OK))
      else if chat.value in w.recent then Step(w, Normal(OK))
      else
        var chatId := chat.value;
        var w1 := w.(states := Track(w.states, chatId, MessageIdOf(u), CallbackMessageIdOf(u)));
        if u.callbackQuery.Some? then DispatchCallback(w1, e, chatId, u.callbackQuery.value.data)
        else
          var text := TextOf(u);
          if !Truthy(text) then Step(w1, Normal(OK))
          else DispatchText(w1, e, chatId, MessageIdOf(u), text.value)
  }

  // ---------------------------------------------------------------------------
  // the router over the objects

  /** The id-tracking step, on the flow object. */
  method TrackUpdate(flow: Flow, chatId: ChatId, messageId: Option<MessageId>, callbackMessageId: Option<MessageId>)
    modifies flow
    ensures flow.recentLogins == old(flow.recentLogins)
    ensures flow.userStates == Track(old(flow.userStates), chatId, messageId, callbackMessageId)
  {
    if TruthyId(messageId) || TruthyId(callbackMessageId) {
      if chatId in flow.userStates {
        ghost var ids := flow.userStates[chatId].messageIds;
        if TruthyId(messageId) {
          flow.PushMessageId(chatId, messageId.value);
        }
        if TruthyId(callbackMessageId) {
          flow.PushMessageId(chatId, callbackMessageId.value);
        }
        assert flow.userStates[chatId].messageIds == ids + TrackedIds(messageId, callbackMessageId);
      }
    }
  }

  method RouteCallback(flow: Flow, client: Client, store: Store, crm: Service, chatId: ChatId, data: Option<string>)
    returns (result: Outcome<Response>)
    modifies flow, client, store, crm
    ensures Step(flow.Snapshot(client, store, crm), result)
         == DispatchCallback(old(flow.Snapshot(client, store, crm)), Env(client.delivers, crm.api), chatId, data)
  {
    if data == Some(LoginCallback) {
      result := flow.HandleAuth(client, store, crm, chatId, None);
    } else if data == Some(HelpCallback) {
      result := HandleHelp(client, chatId);
    } else {
      result := Normal(OK);
    }
  }

  method RouteCommand(flow: Flow, client: Client, store: Store, crm: Service, chatId: ChatId, text: string)
    returns (result: Outcome<Response>)
    requires !StartsWith(text, "/start") && !StartsWith(text, "/login")
    modifies flow, client, store, crm
    ensures Step(flow.Snapshot(client, store, crm), result)
         == DispatchText(old(flow.Snapshot(client, store, crm)), Env(client.delivers, crm.api), chatId, None, text)
  {
    if StartsWith(text, "/logout") {
      result := HandleLogout(client, store, chatId);
    } else if StartsWith(text, "/help") {
      result := HandleHelp(client, chatId);
    } else if chatId in flow.userStates {
      result := flow.HandleAuth(client, store, crm, chatId, Some(text));
    } else {
      var sent := client.SendTelegramMessage(chatId, Plain(DontUnderstandText));
      result := if sent.Normal? then Normal(OK) else Normal(ServerError);
    }
  }

  method RouteText(flow: Flow, client: Client, store: Store, crm: Service, chatId: ChatId, messageId: Option<MessageId>, text: string)
    returns (result: Outcome<Response>)
    modifies flow, client, store, crm
    ensures Step(flow.Snapshot(client, store, crm), result)
         == DispatchText(old(flow.Snapshot(client, store, crm)), Env(client.delivers, crm.api), chatId, messageId, text)
  {
    if StartsWith(text, "/start") {
      flow.userStates := flow.userStates[chatId := StartState(messageId)];
      result := HandleStart(client, store, chatId);
    } else if StartsWith(text, "/login") {
      result := flow.HandleAuth(client, store, crm, chatId, Some(text));
    } else {
      result := RouteCommand(flow, client, store, crm, chatId, text);
    }
  }

  method HandleTelegramUpdate(flow: Flow, client: Client, store: Store, crm: Service, u: Update)
    returns (result: Outcome<Response>)
    modifies flow, client, store, crm
    ensures Step(flow.Snapshot(client, store, crm), result)
         == HandleTelegramUpdateSpec(old(flow.Snapshot(client, store, crm)), Env(client.delivers, crm.api), u)
  {
    var chat := ResolveChatId(u);
    if chat.Thrown? {
      return Normal(ServerError);
    }
    if !TruthyId(chat.value) || chat.value.value in flow.recentLogins {
      return Normal(OK);
    }
    var chatId := chat.value.value;
    TrackUpdate(flow, chatId, MessageIdOf(u), CallbackMessageIdOf(u));
    if u.callbackQuery.Some? {
      result := RouteCallback(flow, client, store, crm, chatId, u.callbackQuery.value.data);
      return;
    }
    var text := TextOf(u);
    if !Truthy(text) {
      return Normal(OK);
    }
    result := RouteText(flow, client, store, crm, chatId, MessageIdOf(u), text.value);
  }
}
