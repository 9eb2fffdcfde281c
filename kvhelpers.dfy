/**
 * The key scheme the bot uses in its key-value binding, and the five helpers
 * that read and write it. The binding itself is a map from key to a stored
 * value with its time-to-live; expiry is not modelled, so a TTL is only a
 * recorded attribute of the entry.
 */
module KvHelpers {
  import opened Common
  import opened Strings

  const AdminTokenKey := "admintoken"
  const SessionPrefix := "session:"
  /** Two hours, in seconds: the TTL of every entry the helpers write. */
  const TokenExpiry := 7200

  datatype Entry = Entry(value: string, ttl: int)

  type Kv = map<string, Entry>

  /** The chat a session key belongs to, if the key is a session key at all. */
  function ChatIdOfKey(key: string): Option<ChatId> {
    if StartsWith(key, SessionPrefix) then ParseInt(key[|SessionPrefix|..]) else None
  }

  /** `session:<chatId>`, the key of a chat's session token. */
  function SessionKey(chatId: ChatId): (key: string)
    ensures StartsWith(key, SessionPrefix)
    ensures ChatIdOfKey(key) == Some(chatId)
    ensures key != AdminTokenKey
  {
    var key := SessionPrefix + IntToDecimal(chatId);
    assert key[|SessionPrefix|..] == IntToDecimal(chatId);
    IntDecimalRoundTrip(chatId);
    assert key[0] != AdminTokenKey[0];
    key
  }

  /** Distinct chats have distinct session keys, and no session key is the admin key. */
  lemma SessionKeysDistinct(a: ChatId, b: ChatId)
    ensures SessionKey(a) == SessionKey(b) <==> a == b
    ensures SessionKey(a) != AdminTokenKey
  {
  }

  /** What `get(key)` answers: the stored value, or `null`. */
  function Lookup(kv: Kv, key: string): (r: Option<string>)
    ensures r.Some? <==> key in kv
  {
    if key in kv then Some(kv[key].value) else None
  }

  /** What `getUserSession` answers for a chat. */
  function SessionOf(kv: Kv, chatId: ChatId): Option<string> {
    Lookup(kv, SessionKey(chatId))
  }

  /** What `getAdminToken` answers. */
  function AdminTokenOf(kv: Kv): Option<string> {
    Lookup(kv, AdminTokenKey)
  }

  /** Every entry carries the helpers' TTL and sits under the admin key or a session key. */
  predicate WellFormed(kv: Kv) {
    forall key :: key in kv ==>
      kv[key].ttl == TokenExpiry && (key == AdminTokenKey || ChatIdOfKey(key).Some?)
  }

  /** The store after `saveAdminToken(token)`. */
  function WithAdminToken(kv: Kv, token: string): (r: Kv)
    ensures AdminTokenOf(r) == Some(token) && r[AdminTokenKey].ttl == TokenExpiry
    ensures forall c :: SessionOf(r, c) == SessionOf(kv, c)
    ensures forall key :: key != AdminTokenKey ==> (key in r <==> key in kv)
    ensures forall key :: key != AdminTokenKey && key in kv ==> r[key] == kv[key]
    ensures WellFormed(kv) ==> WellFormed(r)
  {
    kv[AdminTokenKey := Entry(token, TokenExpiry)]
  }

  /** The store after `saveUserSession(chatId, token)`. */
  function WithSession(kv: Kv, chatId: ChatId, token: string): (r: Kv)
    ensures SessionOf(r, chatId) == Some(token) && r[SessionKey(chatId)].ttl == TokenExpiry
    ensures forall c :: c != chatId ==> SessionOf(r, c) == SessionOf(kv, c)
    ensures AdminTokenOf(r) == AdminTokenOf(kv)
    ensures forall key :: key != SessionKey(chatId) ==> (key in r <==> key in kv)
    ensures forall key :: key != SessionKey(chatId) && key in kv ==> r[key] == kv[key]
    ensures WellFormed(kv) ==> WellFormed(r)
  {
    kv[SessionKey(chatId) := Entry(token, TokenExpiry)]
  }

  /** The store after `removeUserSession(chatId)`. */
  function WithoutSession(kv: Kv, chatId: ChatId): (r: Kv)
    ensures SessionOf(r, chatId) == None
    ensures forall c :: c != chatId ==> SessionOf(r, c) == SessionOf(kv, c)
    ensures AdminTokenOf(r) == AdminTokenOf(kv)
    ensures forall key :: key != SessionKey(chatId) ==> (key in r <==> key in kv)
    ensures forall key :: key != SessionKey(chatId) && key in kv ==> r[key] == kv[key]
    ensures WellFormed(kv) ==> WellFormed(r)
  {
    kv - {SessionKey(chatId)}
  }

  /** The key-value binding, as the helpers see it. */
  class Store {
    var entries: Kv

    constructor ()
      ensures entries == map[]
    {
      entries := map[];
    }

    method SaveAdminToken(token: string)
      modifies this
      ensures entries == WithAdminToken(old(entries), token)
    {
      entries := entries[AdminTokenKey := Entry(token, TokenExpiry)];
    }

    method GetAdminToken() returns (token: Option<string>)
      ensures token == AdminTokenOf(entries)
    {
      token := if AdminTokenKey in entries then Some(entries[AdminTokenKey].value) else None;
    }

    method SaveUserSession(chatId: ChatId, token: string)
      modifies this
      ensures entries == WithSession(old(entries), chatId, token)
    {
      entries := entries[SessionKey(chatId) := Entry(token, TokenExpiry)];
    }

    method GetUserSession(chatId: ChatId) returns (token: Option<string>)
      ensures token == SessionOf(entries, chatId)
    {
      var key := SessionKey(chatId);
      token := if key in entries then Some(entries[key].value) else None;
    }

    method RemoveUserSession(chatId: ChatId)
      modifies this
      ensures entries == WithoutSession(old(entries), chatId)
    {
      entries := entries - {SessionKey(chatId)};
    }
  }
}
