/**
 * Two facts every handler keeps: the world invariant `Inv`, and isolation,
 * which says a handler for one chat leaves every other chat as it was.
 */
module Invariants {
  import opened Common
  import opened Strings
  import opened KvHelpers
  import opened TelegramClient
  import opened Crm
  import opened AdminToken
  import opened RepAuth
  import opened Auth
  import opened Start
  import opened Logout
  import opened Help
  import opened Telegram

  /**
   * Logged ids are fresh and ordered, every stored key is one of the
   * bot's with its TTL, a suppressed chat has no dialogue (it just ended),
   * and a recorded username is never empty.
   */
  predicate Inv(w: World) {
    && Fresh(w.client)
    && WellFormed(w.kv)
    && w.recent !! w.states.Keys
    && forall c :: c in w.states && w.states[c].username.Some? ==> w.states[c].username.value != ""
  }

  /** Requests only grow, and the new ones of `w'` are all addressed to `chatId`. */
  predicate RequestsTo(w: World, w': World, chatId: ChatId) {
    && w.client.sends <= w'.client.sends
    && w.client.deletions <= w'.client.deletions
    && (forall i :: |w.client.sends| <= i < |w'.client.sends| ==> w'.client.sends[i].chatId == chatId)
    && (forall i :: |w.client.deletions| <= i < |w'.client.deletions| ==> w'.client.deletions[i].chatId == chatId)
  }

  /** Nothing that belongs to another chat than `chatId` differs between `w` and `w'`. */
  ghost predicate Isolated(w: World, w': World, chatId: ChatId) {
    && RequestsTo(w, w', chatId)
    && (forall c :: c != chatId ==> (c in w'.states <==> c in w.states))
    && (forall c :: c != chatId && c in w.states ==> w'.states[c] == w.states[c])
    && (forall c :: c != chatId ==> (c in w'.recent <==> c in w.recent))
    && (forall c :: c != chatId ==> SessionOf(w'.kv, c) == SessionOf(w.kv, c))
    && (forall c :: c != chatId ==> LogOf(w'.client, c) == LogOf(w.client, c))
  }

  lemma IsolatedChain(w1: World, w2: World, w3: World, chatId: ChatId)
    requires Isolated(w1, w2, chatId) && Isolated(w2, w3, chatId)
    ensures Isolated(w1, w3, chatId)
  {
    assert w1.client.sends <= w3.client.sends;
    assert w1.client.deletions <= w3.client.deletions;
  }

  // ---------------------------------------------------------------------------
  // the building blocks

  lemma SendKeeps(w: World, e: Env, chatId: ChatId, message: Message)
    ensures var w' := w.(client := SendSpec(w.client, e.delivers, chatId, message).client);
      Isolated(w, w', chatId) && (Inv(w) ==> Inv(w'))
  {
  }

  lemma ReplyKeeps(w: World, e: Env, chatId: ChatId, text: string)
    ensures Isolated(w, Reply(w, e, chatId, text).world, chatId)
    ensures Inv(w) ==> Inv(Reply(w, e, chatId, text).world)
  {
    SendKeeps(w, e, chatId, Plain(text));
  }

  lemma PromptKeeps(w: World, e: Env, chatId: ChatId, text: string)
    requires chatId in w.states
    ensures Isolated(w, Prompt(w, e, chatId, text).world, chatId)
    ensures Inv(w) ==> Inv(Prompt(w, e, chatId, text).world)
  {
    SendKeeps(w, e, chatId, Plain(text));
  }

  lemma EnsureStateKeeps(w: World, chatId: ChatId)
    ensures Isolated(w, EnsureState(w, chatId), chatId)
    ensures Inv(w) && chatId !in w.recent ==> Inv(EnsureState(w, chatId))
  {
  }

  lemma OpenPromptKeeps(w: World, e: Env, chatId: ChatId, text: string)
    ensures Isolated(w, Prompt(EnsureState(w, chatId), e, chatId, text).world, chatId)
    ensures Inv(w) && chatId !in w.recent ==> Inv(Prompt(EnsureState(w, chatId), e, chatId, text).world)
  {
    EnsureStateKeeps(w, chatId);
    PromptKeeps(EnsureState(w, chatId), e, chatId, text);
    IsolatedChain(w, EnsureState(w, chatId), Prompt(EnsureState(w, chatId), e, chatId, text).world, chatId);
  }

  // ---------------------------------------------------------------------------
  // the login dialogue

  /** The deletes and the confirmation of the accepted branch touch only the chat's log. */
  lemma ConfirmationKeeps(c: ClientState, e: Env, chatId: ChatId, ids: seq<MessageId>)
    ensures var sent := SendSpec(DeleteAllSpec(c, chatId, ids), e.delivers, chatId, Plain(LoginSuccessText));
      && (forall other :: other != chatId ==> LogOf(sent.client, other) == LogOf(c, other))
      && c.deletions <= sent.client.deletions
      && (Fresh(c) ==> Fresh(sent.client))
  {
    var c2 := DeleteAllSpec(c, chatId, ids);
    assert forall other :: LogOf(c2, other) == LogOf(c, other);
    assert c.deletions <= c2.deletions;
  }

  /** The accepted branch of `authenticateUser` when the confirmation goes out. */
  lemma AcceptedDoneKeeps(w: World, e: Env, chatId: ChatId, ids: seq<MessageId>, token: string)
    requires chatId in w.states && token != ""
    ensures var sent := SendSpec(DeleteAllSpec(w.client, chatId, ids), e.delivers, chatId, Plain(LoginSuccessText));
      var done := w.(kv := WithSession(w.kv, chatId, token), client := sent.client,
                     recent := w.recent + {chatId}, states := w.states - {chatId});
      && Isolated(w, done, chatId)
      && (Inv(w) ==> Inv(done))
  {
    ConfirmationKeeps(w.client, e, chatId, ids);
  }

  /** The accepted branch of `authenticateUser` when the confirmation fails and is caught. */
  lemma AcceptedCaughtKeeps(w: World, e: Env, chatId: ChatId, ids: seq<MessageId>, token: string)
    requires chatId in w.states && token != ""
    ensures var sent := SendSpec(DeleteAllSpec(w.client, chatId, ids), e.delivers, chatId, Plain(LoginSuccessText));
      var caught := w.(kv := WithSession(w.kv, chatId, token), client := sent.client);
      && Isolated(w, caught, chatId)
      && (Inv(w) ==> Inv(caught))
  {
    ConfirmationKeeps(w.client, e, chatId, ids);
  }

  lemma AuthenticateUserKeeps(w: World, e: Env, chatId: ChatId, username: string, password: string)
    ensures Isolated(w, AuthenticateUserSpec(w, e, chatId, username, password).world, chatId)
    ensures Inv(w) ==> Inv(AuthenticateUserSpec(w, e, chatId, username, password).world)
  {
    if chatId !in w.states {
      ReplyKeeps(w, e, chatId, SessionExpiredText);
    } else {
      var rep := GetRepTokenSpec(w.kv, w.crm, e.crm, username, password);
      var w1 := w.(kv := rep.kv, crm := rep.crm);
      assert Isolated(w, w1, chatId) && (Inv(w) ==> Inv(w1));
      if !Truthy(rep.token) {
        PromptKeeps(w1, e, chatId, AuthFailedText);
        IsolatedChain(w, w1, Prompt(w1, e, chatId, AuthFailedText).world, chatId);
      } else {
        AcceptedDoneKeeps(w1, e, chatId, w.states[chatId].messageIds, rep.token.value);
        AcceptedCaughtKeeps(w1, e, chatId, w.states[chatId].messageIds, rep.token.value);
        var r := AuthenticateUserSpec(w, e, chatId, username, password);
        IsolatedChain(w, w1, r.world, chatId);
      }
    }
  }

  lemma HandleAuthTryKeeps(w: World, e: Env, chatId: ChatId, text: Option<string>)
    ensures Isolated(w, HandleAuthTrySpec(w, e, chatId, text).world, chatId)
    ensures Inv(w) && chatId !in w.recent ==> Inv(HandleAuthTrySpec(w, e, chatId, text).world)
  {
    if !Truthy(text) || text.value == "/login" {
      OpenPromptKeeps(w, e, chatId, UsernamePrompt);
    } else if StartsWith(text.value, "/login") {
      var parts := Split(text.value, ' ');
      var username := Nth(parts, 1);
      var password := Nth(parts, 2);
      if !Truthy(username) || !Truthy(password) {
        OpenPromptKeeps(w, e, chatId, CredentialsFormatPrompt);
      } else {
        AuthenticateUserKeeps(w, e, chatId, username.value, password.value);
      }
    } else if chatId !in w.states {
      ReplyKeeps(w, e, chatId, SessionExpiredText);
    } else if !Truthy(w.states[chatId].username) {
      var w1 := w.(states := w.states[chatId := w.states[chatId].(username := text)]);
      assert Isolated(w, w1, chatId) && (Inv(w) ==> Inv(w1));
      PromptKeeps(w1, e, chatId, PasswordPrompt);
      IsolatedChain(w, w1, Prompt(w1, e, chatId, PasswordPrompt).world, chatId);
    } else {
      AuthenticateUserKeeps(w, e, chatId, w.states[chatId].username.value, text.value);
    }
  }

  lemma HandleAuthKeeps(w: World, e: Env, chatId: ChatId, text: Option<string>)
    ensures Isolated(w, HandleAuthSpec(w, e, chatId, text).world, chatId)
    ensures Inv(w) && chatId !in w.recent ==> Inv(HandleAuthSpec(w, e, chatId, text).world)
  {
    var attempt := HandleAuthTrySpec(w, e, chatId, text);
    HandleAuthTryKeeps(w, e, chatId, text);
    if attempt.result.Thrown? {
      ReplyKeeps(attempt.world, e, chatId, AuthErrorText);
      IsolatedChain(w, attempt.world, HandleAuthSpec(w, e, chatId, text).world, chatId);
    }
  }

  // ---------------------------------------------------------------------------
  // the commands

  lemma StartKeeps(w: World, e: Env, chatId: ChatId)
    ensures Isolated(w, StartStep(w, e, chatId).world, chatId)
    ensures Inv(w) ==> Inv(StartStep(w, e, chatId).world)
    ensures StartStep(w, e, chatId).world == w.(client := StartStep(w, e, chatId).world.client)
  {
    var sent := SendSpec(w.client, e.delivers, chatId, StartMessage(SessionOf(w.kv, chatId)));
    SendKeeps(w, e, chatId, StartMessage(SessionOf(w.kv, chatId)));
    SendKeeps(w.(client := sent.client), e, chatId, Plain(StartErrorText));
  }

  lemma HelpKeeps(w: World, e: Env, chatId: ChatId)
    ensures Isolated(w, HelpStep(w, e, chatId).world, chatId)
    ensures Inv(w) ==> Inv(HelpStep(w, e, chatId).world)
    ensures HelpStep(w, e, chatId).world == w.(client := HelpStep(w, e, chatId).world.client)
  {
    var sent := SendSpec(w.client, e.delivers, chatId, Plain(HelpText));
    SendKeeps(w, e, chatId, Plain(HelpText));
    SendKeeps(w.(client := sent.client), e, chatId, Plain(HelpErrorText));
  }

  lemma LogoutKeeps(w: World, e: Env, chatId: ChatId)
    ensures Isolated(w, LogoutStep(w, e, chatId).world, chatId)
    ensures Inv(w) ==> Inv(LogoutStep(w, e, chatId).world)
    ensures var w' := LogoutStep(w, e, chatId).world;
      w' == w.(client := w'.client, kv := w'.kv)
  {
    var w1 := w.(kv := WithoutSession(w.kv, chatId), client := ClearSpec(w.client, chatId));
    assert Isolated(w, w1, chatId) && (Inv(w) ==> Inv(w1));
    var sent := SendSpec(w1.client, e.delivers, chatId, Plain(LogoutText));
    SendKeeps(w1, e, chatId, Plain(LogoutText));
    SendKeeps(w1.(client := sent.client), e, chatId, Plain(LogoutErrorText));
    IsolatedChain(w, w1, w1.(client := sent.client), chatId);
    IsolatedChain(w, w1.(client := sent.client), LogoutStep(w, e, chatId).world, chatId);
  }

  // ---------------------------------------------------------------------------
  // the router

  lemma TrackKeeps(w: World, chatId: ChatId, messageId: Option<MessageId>, callbackMessageId: Option<MessageId>)
    ensures var w' := w.(states := Track(w.states, chatId, messageId, callbackMessageId));
      Isolated(w, w', chatId) && (Inv(w) ==> Inv(w'))
  {
  }

  lemma DispatchTextKeeps(w: World, e: Env, chatId: ChatId, messageId: Option<MessageId>, text: string)
    ensures Isolated(w, DispatchText(w, e, chatId, messageId, text).world, chatId)
    ensures Inv(w) && chatId !in w.recent ==> Inv(DispatchText(w, e, chatId, messageId, text).world)
  {
    if StartsWith(text, "/start") {
      var w1 := w.(states := w.states[chatId := StartState(messageId)]);
      assert Isolated(w, w1, chatId) && (Inv(w) && chatId !in w.recent ==> Inv(w1));
      StartKeeps(w1, e, chatId);
      IsolatedChain(w, w1, StartStep(w1, e, chatId).world, chatId);
    } else if StartsWith(text, "/login") {
      HandleAuthKeeps(w, e, chatId, Some(text));
    } else if StartsWith(text, "/logout") {
      LogoutKeeps(w, e, chatId);
    } else if StartsWith(text, "/help") {
      HelpKeeps(w, e, chatId);
    } else if chatId in w.states {
      HandleAuthKeeps(w, e, chatId, Some(text));
    } else {
      SendKeeps(w, e, chatId, Plain(DontUnderstandText));
    }
  }

  lemma DispatchCallbackKeeps(w: World, e: Env, chatId: ChatId, data: Option<string>)
    ensures Isolated(w, DispatchCallback(w, e, chatId, data).world, chatId)
    ensures Inv(w) && chatId !in w.recent ==> Inv(DispatchCallback(w, e, chatId, data).world)
  {
    if data == Some(LoginCallback) {
      HandleAuthKeeps(w, e, chatId, None);
    } else if data == Some(HelpCallback) {
      HelpKeeps(w, e, chatId);
    }
  }

  /** Every update keeps the invariant. */
  lemma RouterKeepsInvariant(w: World, e: Env, u: Update)
    requires Inv(w)
    ensures Inv(HandleTelegramUpdateSpec(w, e, u).world)
  {
    RouterIsolation(w, e, u);
  }

  /**
   * An update touches at most the chat it resolves to: every other chat's
   * dialogue, suppression mark, session and log are as before, and every
   * request it makes is addressed to that chat. An update that resolves to
   * no chat changes nothing.
   */
  lemma RouterIsolation(w: World, e: Env, u: Update)
    ensures ResolveChatId(u).Normal? && TruthyId(ResolveChatId(u).value) ==>
      Isolated(w, HandleTelegramUpdateSpec(w, e, u).world, ResolveChatId(u).value.value)
      && (Inv(w) ==> Inv(HandleTelegramUpdateSpec(w, e, u).world))
    ensures !(ResolveChatId(u).Normal? && TruthyId(ResolveChatId(u).value)) ==> HandleTelegramUpdateSpec(w, e, u).world == w
  {
    var chat := ResolveChatId(u);
    if chat.Normal? && TruthyId(chat.value) && chat.value.value !in w.recent {
      var chatId := chat.value.value;
      var w1 := w.(states := Track(w.states, chatId, MessageIdOf(u), CallbackMessageIdOf(u)));
      TrackKeeps(w, chatId, MessageIdOf(u), CallbackMessageIdOf(u));
      var r := HandleTelegramUpdateSpec(w, e, u);
      if u.callbackQuery.Some? {
        DispatchCallbackKeeps(w1, e, chatId, u.callbackQuery.value.data);
        IsolatedChain(w, w1, r.world, chatId);
      } else if Truthy(TextOf(u)) {
        DispatchTextKeeps(w1, e, chatId, MessageIdOf(u), TextOf(u).value);
        IsolatedChain(w, w1, r.world, chatId);
      }
    }
  }

  /** The suppression timer keeps the invariant. */
  lemma ExpiryKeepsInvariant(w: World, chatId: ChatId)
    requires Inv(w)
    ensures Inv(ExpireRecentLoginSpec(w, chatId))
    ensures ExpireRecentLoginSpec(w, chatId).recent == w.recent - {chatId}
  {
  }
}
