/**
 * Fetching the CRM admin token and caching it in the key-value store
 * (`fetchAdminToken`), and the cache-or-fetch wrapper `getValidAdminToken`.
 * Neither throws: every failure is an absent token.
 */
module AdminToken {
  import opened Common
  import opened KvHelpers
  import opened Crm

  /** The validation of an admin-token reply: the token it yields, if any. */
  function TokenFromReply(reply: AdminReply): (token: Option<string>)
    ensures token.Some? ==> token.value != ""
    ensures token.Some? ==> reply.AdminHttp? && reply.ok && reply.body.Some? && reply.body.value.success
    ensures reply.AdminHttp? && reply.ok && reply.body.Some? && reply.body.value.success
         && reply.body.value.data.Some? && Truthy(reply.body.value.data.value.token)
         ==> token == reply.body.value.data.value.token
  {
    match reply
    case AdminNetworkError => None
    case AdminHttp(ok, body) =>
      if !ok then None
      else if body.None? then None
      else if !body.value.success || body.value.data.None? || !Truthy(body.value.data.value.token) then None
      else body.value.data.value.token
  }

  /** A successful reply carrying a non-empty token. */
  predicate Grants(reply: AdminReply, token: string) {
    token != "" && reply == AdminHttp(true, Some(AdminBody(true, Some(AdminAuthData(Some(token))))))
  }

  /** A valid reply yields its own token. */
  lemma ValidReplyYieldsItsToken(reply: AdminReply, token: string)
    requires Grants(reply, token)
    ensures TokenFromReply(reply) == Some(token)
  {
  }

  lemma NonOkReplyYieldsNothing(body: Option<AdminBody>)
    ensures TokenFromReply(AdminHttp(false, body)) == None
  {
  }

  lemma UnsuccessfulOrEmptyYieldsNothing(body: AdminBody)
    requires !body.success || body.data.None? || !Truthy(body.data.value.token)
    ensures TokenFromReply(AdminHttp(true, Some(body))) == None
  {
  }

  lemma FailedFetchYieldsNothing()
    ensures TokenFromReply(AdminNetworkError) == None
    ensures TokenFromReply(AdminHttp(true, None)) == None
  {
  }

  /** A store, the requests made, and the token a call produced. */
  datatype TokenStep = TokenStep(kv: Kv, crm: CrmState, token: Option<string>)

  /** `fetchAdminToken`. */
  function FetchAdminTokenSpec(kv: Kv, crm: CrmState, api: CrmApi): (r: TokenStep)
    ensures !Complete(api.config) ==> r == TokenStep(kv, crm, None)
    ensures Complete(api.config) ==> r.crm == crm.(adminRequests := crm.adminRequests + 1)
    ensures Complete(api.config) ==> r.token == TokenFromReply(api.adminReply(crm.adminRequests))
    ensures r.token.Some? ==> r.token.value != "" && r.kv == WithAdminToken(kv, r.token.value)
    ensures r.token.Some? ==> AdminTokenOf(r.kv) == r.token
    ensures r.token.None? ==> r.kv == kv
    ensures forall c :: SessionOf(r.kv, c) == SessionOf(kv, c)
    ensures WellFormed(kv) ==> WellFormed(r.kv)
  {
    if !Complete(api.config) then TokenStep(kv, crm, None)
    else
      var crm1 := crm.(adminRequests := crm.adminRequests + 1);
      var token := TokenFromReply(api.adminReply(crm.adminRequests));
      if token.Some? then TokenStep(WithAdminToken(kv, token.value), crm1, token)
      else TokenStep(kv, crm1, None)
  }

  /** With the configuration complete, a granting reply is stored and returned. */
  lemma GrantedTokenIsStored(kv: Kv, crm: CrmState, api: CrmApi, token: string)
    requires Complete(api.config) && Grants(api.adminReply(crm.adminRequests), token)
    ensures FetchAdminTokenSpec(kv, crm, api).token == Some(token)
    ensures FetchAdminTokenSpec(kv, crm, api).kv == WithAdminToken(kv, token)
  {
    ValidReplyYieldsItsToken(api.adminReply(crm.adminRequests), token);
  }

  /** `getValidAdminToken`: a non-empty cached token, or else a fetch. */
  function GetValidAdminTokenSpec(kv: Kv, crm: CrmState, api: CrmApi): TokenStep {
    var existing := AdminTokenOf(kv);
    if Truthy(existing) then TokenStep(kv, crm, existing) else FetchAdminTokenSpec(kv, crm, api)
  }

  /** A usable cached token is returned without any request and without touching the store. */
  lemma CachedTokenIsReused(kv: Kv, crm: CrmState, api: CrmApi)
    requires Truthy(AdminTokenOf(kv))
    ensures GetValidAdminTokenSpec(kv, crm, api) == TokenStep(kv, crm, AdminTokenOf(kv))
  {
  }

  /** Without a usable cached token the call is exactly a fetch. */
  lemma MissingTokenIsFetched(kv: Kv, crm: CrmState, api: CrmApi)
    requires !Truthy(AdminTokenOf(kv))
    ensures GetValidAdminTokenSpec(kv, crm, api) == FetchAdminTokenSpec(kv, crm, api)
  {
  }

  method FetchAdminToken(store: Store, service: Service) returns (token: Option<string>)
    modifies store, service
    ensures TokenStep(store.entries, service.Model(), token)
         == FetchAdminTokenSpec(old(store.entries), old(service.Model()), service.api)
  {
    if !Complete(service.api.config) {
      return None;
    }
    var reply := service.RequestAdminToken();
    token := TokenFromReply(reply);
    if token.Some? {
      store.SaveAdminToken(token.value);
    }
  }

  method GetValidAdminToken(store: Store, service: Service) returns (token: Option<string>)
    modifies store, service
    ensures TokenStep(store.entries, service.Model(), token)
         == GetValidAdminTokenSpec(old(store.entries), old(service.Model()), service.api)
  {
    var existing := store.GetAdminToken();
    if Truthy(existing) {
      return existing;
    }
    token := FetchAdminToken(store, service);
  }
}
