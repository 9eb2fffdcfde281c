/** `/logout`: forget the chat's session, wipe its visible history, confirm. */
module Logout {
  import opened Common
  import opened KvHelpers
  import opened TelegramClient

  const LogoutText := "✅ Successfully logged out!"
  const LogoutErrorText := "An error occurred while logging out. Please try again later."

  datatype LoggedOut = LoggedOut(kv: Kv, handled: Handled)

  /** `handleLogout(chatId)`. */
  function HandleLogoutSpec(c: ClientState, kv: Kv, delivers: nat -> bool, chatId: ChatId): LoggedOut {
    var kv1 := WithoutSession(kv, chatId);
    var c1 := ClearSpec(c, chatId);
    var sent := SendSpec(c1, delivers, chatId, Plain(LogoutText));
    if sent.id.Normal? then LoggedOut(kv1, Handled(sent.client, Normal(OK)))
    else
      var fallback := SendSpec(sent.client, delivers, chatId, Plain(LogoutErrorText));
      LoggedOut(kv1, Handled(fallback.client, if fallback.id.Normal? then Normal(OK) else Thrown))
  }

  /**
   * The session is gone, every id logged before was asked to be deleted, and
   * since the log is emptied before the confirmation goes out, it then holds
   * exactly the confirmation's id.
   */
  lemma LogoutClearsThenConfirms(c: ClientState, kv: Kv, delivers: nat -> bool, chatId: ChatId)
    requires delivers(|c.sends|)
    ensures var r := HandleLogoutSpec(c, kv, delivers, chatId);
      && SessionOf(r.kv, chatId) == None
      && r.handled.client.deletions == c.deletions + DeletionsOf(chatId, LogOf(c, chatId))
      && LogOf(r.handled.client, chatId) == [c.nextId]
      && r.handled.client.nextId == c.nextId + 1
      && r.handled.client.sends == c.sends + [SendRequest(chatId, Body(Plain(LogoutText)))]
      && r.handled.result == Normal(OK)
  {
  }

  /** Nothing but this chat's session key leaves the store. */
  lemma LogoutKeepsOtherKeys(c: ClientState, kv: Kv, delivers: nat -> bool, chatId: ChatId)
    ensures var r := HandleLogoutSpec(c, kv, delivers, chatId);
      && r.kv.Keys == kv.Keys - {SessionKey(chatId)}
      && forall key :: key in r.kv ==> r.kv[key] == kv[key]
  {
  }

  /** Logging out again leaves the store as the first logout left it, and still confirms. */
  lemma LogoutTwice(c: ClientState, kv: Kv, delivers: nat -> bool, chatId: ChatId)
    requires delivers(|c.sends|)
    requires delivers(|c.sends| + 1)
    ensures var first := HandleLogoutSpec(c, kv, delivers, chatId);
      var second := HandleLogoutSpec(first.handled.client, first.kv, delivers, chatId);
      && second.kv == first.kv
      && LogOf(second.handled.client, chatId) == [c.nextId + 1]
      && second.handled.result == Normal(OK)
  {
    var first := HandleLogoutSpec(c, kv, delivers, chatId);
    LogoutClearsThenConfirms(c, kv, delivers, chatId);
    LogoutClearsThenConfirms(first.handled.client, first.kv, delivers, chatId);
    SessionRemovalIsIdempotent(kv, chatId);
  }

  lemma SessionRemovalIsIdempotent(kv: Kv, chatId: ChatId)
    ensures WithoutSession(WithoutSession(kv, chatId), chatId) == WithoutSession(kv, chatId)
  {
  }

  method HandleLogout(client: Client, store: Store, chatId: ChatId) returns (result: Outcome<Response>)
    modifies client, store
    ensures LoggedOut(store.entries, Handled(client.Model(), result))
         == HandleLogoutSpec(old(client.Model()), old(store.entries), client.delivers, chatId)
  {
    store.RemoveUserSession(chatId);
    var _ := client.ClearChatHistory(chatId);
    var sent := client.SendTelegramMessage(chatId, Plain(LogoutText));
    if sent.Normal? {
      return Normal(OK);
    }
    var fallback := client.SendTelegramMessage(chatId, Plain(LogoutErrorText));
    result := if fallback.Normal? then Normal(OK) else Thrown;
  }
}
