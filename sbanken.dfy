/**
 * sbanken.go: building a client. The configuration is validated first;
 * only then is the transport built, which authorizes once.
 */
module Sbanken {
  import opened GoTypes
  import opened Failures
  import Configuration
  import Transport

  /** The API's base address. */
  const BaseURL := "https://api.sbanken.no/exec.bank/api"

  /** `Client`: the base address and the transport it sends through. */
  datatype Client = Client(baseURL: string, transport: Transport.Client)

  /** The transport's configuration: the three credentials, nothing else. */
  function TransportConfig(cfg: Configuration.Config): (t: Transport.Config)
    ensures t.clientID == cfg.clientID && t.clientSecret == cfg.clientSecret && t.customerID == cfg.customerID
  {
    Transport.Config(cfg.clientID, cfg.clientSecret, cfg.customerID)
  }

  /**
   * `NewClient`: an invalid configuration is refused, wrapped with
   * "validate: ", before any HTTP traffic; otherwise the transport is built
   * (one token exchange) and its failure is wrapped with "NewClient: ". A
   * client comes back exactly when both succeed, with the fixed base address.
   */
  method NewClient(cfg: Configuration.Config, httpClient: Transport.HttpClient?, defaultClient: Transport.HttpClient,
                   now: int, x: Transport.TokenExchange)
    returns (c: Option<Client>, err: Option<Failure>)
    modifies httpClient, defaultClient
    ensures c.Some? <==> err.None?
    ensures c.Some? <==> Configuration.Validate(cfg).None? && Transport.Exchange(x, now).Stored?
    ensures Configuration.Validate(cfg).Some? ==>
      err == Some(Wrapped("validate: ", Configuration.Validate(cfg).value))
      && (httpClient != null ==> unchanged(httpClient)) && unchanged(defaultClient)
    ensures Configuration.Validate(cfg).None? && !Transport.Exchange(x, now).Stored? ==>
      err == Some(Wrapped("NewClient: ", Wrapped("authorize: ", Transport.Exchange(x, now).err)))
    ensures Configuration.Validate(cfg).None? ==>
      var h := if httpClient == null then defaultClient else httpClient;
      h.sent == old(h.sent) + Transport.TokenCalls(x, cfg.clientID, cfg.clientSecret)
    ensures Configuration.Validate(cfg).None? && httpClient != null && httpClient != defaultClient ==>
      unchanged(defaultClient)
    ensures c.Some? ==>
      c.value.baseURL == BaseURL && fresh(c.value.transport) && c.value.transport.Ready()
      && c.value.transport.clientID == cfg.clientID && c.value.transport.clientSecret == cfg.clientSecret
      && c.value.transport.customerID == cfg.customerID
      && c.value.transport.http == (if httpClient == null then defaultClient else httpClient)
  {
    var e := Configuration.Validate(cfg);
    if e.Some? {
      return None, Some(Wrapped("validate: ", e.value));
    }
    var t, te := Transport.New(TransportConfig(cfg), httpClient, defaultClient, now, x);
    if te.Some? {
      return None, Some(Wrapped("NewClient: ", te.value));
    }
    return Some(Client(BaseURL, t)), None;
  }
}
