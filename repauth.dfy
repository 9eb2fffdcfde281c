/**
 * `getRepToken`: fetch a fresh admin token, ask the CRM to authenticate the
 * candidate credentials under it, and hand back the admin token itself as the
 * chat's session token when the CRM accepts. It never throws.
 */
module RepAuth {
  import opened Common
  import opened KvHelpers
  import opened Crm
  import opened AdminToken

  /** The guard chain over the customer-authentication reply. */
  function RepTokenFromReply(adminToken: string, reply: CustomerReply): (token: Option<string>)
    ensures token.Some? ==> token.value == adminToken
    ensures token.Some? ==> reply.CustomerHttp? && reply.ok && reply.body.Some? && reply.body.value.success
    ensures token.Some? ==> reply.body.value.data.Some? && reply.body.value.data.value.userCanLogIn
  {
    match reply
    case CustomerNetworkError => None
    case CustomerHttp(ok, body) =>
      if !ok then None
      else if body.None? then None
      else if !body.value.success || body.value.data.None? then None
      else if !body.value.data.value.userCanLogIn then None
      else Some(adminToken)
  }

  /** An ok, successful reply whose contract says the customer may log in. */
  predicate Accepts(reply: CustomerReply) {
    && reply.CustomerHttp? && reply.ok && reply.body.Some? && reply.body.value.success
    && reply.body.value.data.Some? && reply.body.value.data.value.userCanLogIn
  }

  lemma NonOkCustomerYieldsNothing(adminToken: string, body: Option<CustomerBody>)
    ensures RepTokenFromReply(adminToken, CustomerHttp(false, body)) == None
    ensures RepTokenFromReply(adminToken, CustomerNetworkError) == None
  {
  }

  lemma UnsuccessfulCustomerYieldsNothing(adminToken: string, body: CustomerBody)
    requires !body.success || body.data.None? || !body.data.value.userCanLogIn
    ensures RepTokenFromReply(adminToken, CustomerHttp(true, Some(body))) == None
  {
  }

  lemma AcceptedCustomerYieldsAdminToken(adminToken: string, canLogIn: CustomerContract)
    requires canLogIn.userCanLogIn
    ensures RepTokenFromReply(adminToken, CustomerHttp(true, Some(CustomerBody(true, Some(canLogIn))))) == Some(adminToken)
  {
  }

  /** `getRepToken(username, password)`. */
  function GetRepTokenSpec(kv: Kv, crm: CrmState, api: CrmApi, username: string, password: string): (r: TokenStep)
    ensures r.crm.adminRequests == crm.adminRequests + (if Complete(api.config) then 1 else 0)
    ensures r.crm.customerRequests == crm.customerRequests
         || (exists bearer :: r.crm.customerRequests == crm.customerRequests + [CustomerRequest(username, password, bearer)])
    ensures r.token.Some? ==> r.token.value != "" && AdminTokenOf(r.kv) == r.token
    ensures r.token.Some? ==> r.crm.customerRequests == crm.customerRequests + [CustomerRequest(username, password, r.token.value)]
    ensures var admin := FetchAdminTokenSpec(kv, crm, api);
      admin.token.Some? ==>
        && r.kv == admin.kv
        && r.crm.customerRequests == crm.customerRequests + [CustomerRequest(username, password, admin.token.value)]
        && r.token == RepTokenFromReply(admin.token.value, api.customerReply(|crm.customerRequests|))
    ensures forall c :: SessionOf(r.kv, c) == SessionOf(kv, c)
    ensures WellFormed(kv) ==> WellFormed(r.kv)
  {
    var admin := FetchAdminTokenSpec(kv, crm, api);
    if !Truthy(admin.token) then TokenStep(admin.kv, admin.crm, None)
    else
      var request := CustomerRequest(username, password, admin.token.value);
      var reply := api.customerReply(|admin.crm.customerRequests|);
      var crm2 := admin.crm.(customerRequests := admin.crm.customerRequests + [request]);
      TokenStep(admin.kv, crm2, RepTokenFromReply(admin.token.value, reply))
  }

  /**
   * A granted admin token and an accepting customer reply: exactly one customer
   * request, under that token as bearer, and the token comes back.
   */
  lemma AcceptedCredentialsYieldToken(kv: Kv, crm: CrmState, api: CrmApi, username: string, password: string, token: string)
    requires Complete(api.config) && Grants(api.adminReply(crm.adminRequests), token)
    requires Accepts(api.customerReply(|crm.customerRequests|))
    ensures GetRepTokenSpec(kv, crm, api, username, password).token == Some(token)
    ensures GetRepTokenSpec(kv, crm, api, username, password).crm.customerRequests
         == crm.customerRequests + [CustomerRequest(username, password, token)]
  {
    GrantedTokenIsStored(kv, crm, api, token);
  }

  /** Without an admin token the customer endpoint is never asked. */
  lemma NoAdminTokenNoCustomerRequest(kv: Kv, crm: CrmState, api: CrmApi, username: string, password: string)
    requires FetchAdminTokenSpec(kv, crm, api).token.None?
    ensures GetRepTokenSpec(kv, crm, api, username, password).token == None
    ensures GetRepTokenSpec(kv, crm, api, username, password).crm.customerRequests == crm.customerRequests
  {
  }

  /**
   * The admin token is always fetched afresh: what the call decides, and the
   * requests it makes, do not depend on what the store holds.
   */
  lemma RepTokenIgnoresCache(kv1: Kv, kv2: Kv, crm: CrmState, api: CrmApi, username: string, password: string)
    ensures GetRepTokenSpec(kv1, crm, api, username, password).token == GetRepTokenSpec(kv2, crm, api, username, password).token
    ensures GetRepTokenSpec(kv1, crm, api, username, password).crm == GetRepTokenSpec(kv2, crm, api, username, password).crm
  {
  }

  method GetRepToken(store: Store, service: Service, username: string, password: string) returns (token: Option<string>)
    modifies store, service
    ensures TokenStep(store.entries, service.Model(), token)
         == GetRepTokenSpec(old(store.entries), old(service.Model()), service.api, username, password)
  {
    var adminToken := FetchAdminToken(store, service);
    if !Truthy(adminToken) {
      return None;
    }
    var reply := service.AuthenticateCustomer(CustomerRequest(username, password, adminToken.value));
    token := RepTokenFromReply(adminToken.value, reply);
  }
}
