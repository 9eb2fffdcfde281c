/**
 * The CRM's two HTTP endpoints as the bot sees them. Replies are oracles:
 * the k-th admin-token request gets `adminReply(k)` and the k-th customer
 * authentication gets `customerReply(k)`. A reply is either a rejected fetch
 * or an HTTP status with a JSON body that may fail to parse.
 */
module Crm {
  import opened Common

  /** The four environment values the admin-token request needs; absent or empty ones are missing. */
  datatype Config = Config(
    apiBaseUrl: Option<string>,
    companyId: Option<string>,
    username: Option<string>,
    password: Option<string>)

  predicate Complete(config: Config) {
    Truthy(config.apiBaseUrl) && Truthy(config.companyId) && Truthy(config.username) && Truthy(config.password)
  }

  /** `TeqTankResponse<TeqTankAuthData>`: `data` may be absent and `data.token` empty or absent. */
  datatype AdminAuthData = AdminAuthData(token: Option<string>)
  datatype AdminBody = AdminBody(success: bool, data: Option<AdminAuthData>)
  /** `body == None` stands for a body that `response.json()` cannot parse. */
  datatype AdminReply = AdminNetworkError | AdminHttp(ok: bool, body: Option<AdminBody>)

  /** `TeqTankResponse<CRMCustomerContract>`, reduced to the fields the bot reads. */
  datatype CustomerContract = CustomerContract(userCanLogIn: bool)
  datatype CustomerBody = CustomerBody(success: bool, data: Option<CustomerContract>)
  datatype CustomerReply = CustomerNetworkError | CustomerHttp(ok: bool, body: Option<CustomerBody>)

  /** The headers of one customer authentication: the candidate credentials and the bearer token. */
  datatype CustomerRequest = CustomerRequest(username: string, password: string, bearer: string)

  /** Every request made so far. */
  datatype CrmState = CrmState(adminRequests: nat, customerRequests: seq<CustomerRequest>)

  /** The configuration and the CRM's replies. */
  datatype CrmApi = CrmApi(config: Config, adminReply: nat -> AdminReply, customerReply: nat -> CustomerReply)

  /** The CRM endpoints, counting the requests made to them. */
  class Service {
    const api: CrmApi
    var adminRequests: nat
    var customerRequests: seq<CustomerRequest>

    function Model(): CrmState
      reads this
    {
      CrmState(adminRequests, customerRequests)
    }

    constructor (api: CrmApi)
      ensures this.api == api && Model() == CrmState(0, [])
    {
      this.api := api;
      adminRequests := 0;
      customerRequests := [];
    }

    /** `GET /Authorize/CompanyId/<companyId>/3` with the instance credentials. */
    method RequestAdminToken() returns (reply: AdminReply)
      modifies this
      ensures reply == api.adminReply(old(adminRequests))
      ensures Model() == old(Model()).(adminRequests := old(adminRequests) + 1)
    {
      reply := api.adminReply(adminRequests);
      adminRequests := adminRequests + 1;
    }

    /** `GET /Crm/Customers/Authenticate` with the candidate credentials and a bearer token. */
    method AuthenticateCustomer(request: CustomerRequest) returns (reply: CustomerReply)
      modifies this
      ensures reply == api.customerReply(|old(customerRequests)|)
      ensures Model() == old(Model()).(customerRequests := old(customerRequests) + [request])
    {
      reply := api.customerReply(|customerRequests|);
      customerRequests := customerRequests + [request];
    }
  }
}
