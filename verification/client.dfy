/** The payment client of client.go: a configuration plus an embedded
    bearer token, and the online-checkout initiation (`InitiateOC`) built
    on the request executor. The clock, token expiry, token refresh,
    timestamp generation and URL templating are inputs. */
module Client {
  import opened Common
  import opened Models
  import opened Internal

  /** A bearer token and its expiry instant (`time.Time`, here an opaque
      number). */
  datatype AuthToken = AuthToken(Token: string, Expiry: int)

  /** The token a client holds before any refresh: Go's zero value. */
  const ZeroToken := AuthToken("", 0)

  /** The `mpesa` client: its configuration and the token it embeds. */
  datatype MPesa = MPesa(config: MPesaConfig, auth: AuthToken)

  /** What a call to `refresh` leaves behind: the token the client holds
      afterwards and the error it returned, if any. */
  datatype Refreshed = Refreshed(token: AuthToken, err: Option<Error>)

  /** The collaborators `InitiateOC` relies on that this model leaves abstract. */
  datatype Env = Env(
    isExpired: AuthToken -> bool,                  // m.isExpired()
    refresh: AuthToken -> Refreshed,               // m.refresh(ctx)
    amountEmpty: Decimal -> bool,                  // ozzo-validation's Required on an amount
    timestamp: string,                             // utils.GenerateTimestamp(time.Now())
    sprintf: (string, string) -> string,           // fmt.Sprintf(template, paymentID)
    transport: Transport<MpesaOcInitiate, MpesaOcInitiateResponse>)

  /** Everything one checkout initiation does: the client afterwards,
      whether it refreshed the token, the filled request and the executor
      call (if it got that far), and the `(*response, error)` it returned. */
  datatype Checkout = Checkout(
    client: MPesa,
    refreshed: bool,
    request: Option<MpesaOcInitiate>,
    exchange: Option<Exchange<MpesaOcInitiateResponse>>,
    result: Result<MpesaOcInitiateResponse>)

  /** `Init`: the client starts with the zero token and neither refreshes
      it nor validates the configuration (the refresh call in `Init` is
      commented out). Whether the first `InitiateOC` refreshes depends on
      what `isExpired` says of the zero token, which is an input here. */
  function Init(config: MPesaConfig): (m: MPesa)
    ensures m.config == config && m.auth == ZeroToken
  {
    MPesa(config, ZeroToken)
  }

  /** The hook `InitiateOC` passes to the executor: it sets
      `Authorization: Bearer <token>` and leaves every other header as it
      was. */
  function BearerHook(token: string): (hook: Header -> Header)
    ensures forall h :: "Authorization" in hook(h) && hook(h)["Authorization"] == ["Bearer " + token]
    ensures forall h, k | k != "Authorization" ::
              (k in hook(h) <==> k in h) && (k in h ==> hook(h)[k] == h[k])
  {
    (h: Header) => SetHeader(h, "Authorization", "Bearer " + token)
  }

  /** The request carries the provider fields taken from the configuration. */
  predicate HasProviderFields(r: MpesaOcInitiate, config: MPesaConfig, timestamp: string, callbackURL: string)
  {
    && r.BusinessShortCode == config.BusinessShortCode
    && r.PartyB == config.BusinessShortCode
    && r.Password == config.Passkey
    && r.Timestamp == timestamp
    && r.TransactionType == config.TransactionType
    && r.CallBackURL == callbackURL
  }

  /** The two requests agree on every field the caller supplies. */
  predicate SameCallerFields(p: MpesaOcInitiate, q: MpesaOcInitiate)
  {
    && p.Amount == q.Amount
    && p.PartyA == q.PartyA
    && p.PhoneNumber == q.PhoneNumber
    && p.AccountReference == q.AccountReference
    && p.TransactionDesc == q.TransactionDesc
  }

  /** The overwriting of the provider fields in `InitiateOC`: short code
      and PartyB from the configuration's short code, password from the
      pass key, the timestamp, the transaction type and the callback URL;
      the caller's own fields pass through. */
  function FillProviderFields(param: MpesaOcInitiate, config: MPesaConfig, timestamp: string, callbackURL: string)
    : (r: MpesaOcInitiate)
    ensures HasProviderFields(r, config, timestamp, callbackURL)
    ensures SameCallerFields(r, param)
  {
    param.(BusinessShortCode := config.BusinessShortCode,
           PartyB := config.BusinessShortCode,
           Password := config.Passkey,
           Timestamp := timestamp,
           TransactionType := config.TransactionType,
           CallBackURL := callbackURL)
  }

  /** The caller's values for the overwritten fields are discarded: two
      requests that agree on the caller fields are filled identically. */
  lemma FillDiscardsCallerProviderFields(p: MpesaOcInitiate, q: MpesaOcInitiate, config: MPesaConfig,
                                         timestamp: string, callbackURL: string)
    requires SameCallerFields(p, q)
    ensures FillProviderFields(p, config, timestamp, callbackURL)
            == FillProviderFields(q, config, timestamp, callbackURL)
  {
  }

  /** Filling twice is filling once. */
  lemma FillIdempotent(p: MpesaOcInitiate, config: MPesaConfig, timestamp: string, callbackURL: string)
    ensures var once := FillProviderFields(p, config, timestamp, callbackURL);
      FillProviderFields(once, config, timestamp, callbackURL) == once
  {
  }

  /** Filling does not change the validation verdict, since it keeps the
      four validated fields. */
  lemma FillKeepsValidation(p: MpesaOcInitiate, config: MPesaConfig, timestamp: string, callbackURL: string,
                            amountEmpty: Decimal -> bool)
    ensures ValidateOcInitiate(FillProviderFields(p, config, timestamp, callbackURL), amountEmpty)
            == ValidateOcInitiate(p, amountEmpty)
  {
    ValidateOcInitiateIgnoresProviderFields(FillProviderFields(p, config, timestamp, callbackURL), p, amountEmpty);
  }

  /** The token the client holds once the expiry check (and any refresh)
      is done: an unexpired token is kept with no error and no refresh; an
      expired one is replaced by whatever the refresh leaves. */
  function TokenAfterCheck(m: MPesa, env: Env): (r: Refreshed)
    ensures !env.isExpired(m.auth) ==> r.token == m.auth && r.err.None?
    ensures env.isExpired(m.auth) ==> r.token == env.refresh(m.auth).token && r.err == env.refresh(m.auth).err
  {
    if env.isExpired(m.auth) then env.refresh(m.auth) else Refreshed(m.auth, None)
  }

  /** `mpesa.InitiateOC(ctx, param, paymentID)`. */
  function InitiateOC(m: MPesa, env: Env, param: MpesaOcInitiate, paymentID: string): (c: Checkout)
    // Refresh happens exactly when the token is expired; the client keeps
    // its configuration and holds the refreshed token afterwards.
    ensures c.refreshed <==> env.isExpired(m.auth)
    ensures c.client.config == m.config
    ensures !env.isExpired(m.auth) ==> c.client == m
    ensures env.isExpired(m.auth) ==> c.client.auth == env.refresh(m.auth).token
    // A refresh error is returned as it is, before validation and without a request.
    ensures env.isExpired(m.auth) && env.refresh(m.auth).err.Some? ==>
              c.result == Err(env.refresh(m.auth).err.value) && c.request.None? && c.exchange.None?
    // Invalid input is rejected, wrapped, after the refresh and before any request.
    ensures TokenAfterCheck(m, env).err.None? && ValidateOcInitiate(param, env.amountEmpty).Some? ==>
              && c.result == Err(MpesaConn("required fields missing", ValidateOcInitiate(param, env.amountEmpty)))
              && c.request.None? && c.exchange.None?
    // The executor is called exactly once when the token is usable and the input valid.
    ensures c.exchange.Some? <==>
              TokenAfterCheck(m, env).err.None? && ValidateOcInitiate(param, env.amountEmpty).None?
    ensures c.request.Some? <==> c.exchange.Some?
    // The request is the caller's, with the provider fields overwritten.
    ensures c.request.Some? ==>
              && HasProviderFields(c.request.value, m.config, env.timestamp,
                                   env.sprintf(m.config.OnlineCheckoutCallbackURL, paymentID))
              && SameCallerFields(c.request.value, param)
    // What reaches the transport: one POST to the initiate URL carrying the
    // filled request and exactly the bearer and default content-type headers.
    ensures c.exchange.Some? ==>
              && (c.exchange.value.sent.Some? <==>
                    env.transport.marshal(c.request.value).Ok? &&
                    env.transport.newRequest("POST", m.config.OnlineCheckoutInitiateURL).None?)
              && (c.exchange.value.sent.Some? ==>
                    && c.exchange.value.sent.value.verb == "POST"
                    && c.exchange.value.sent.value.url == m.config.OnlineCheckoutInitiateURL
                    && c.exchange.value.sent.value.body == env.transport.marshal(c.request.value).value
                    && c.exchange.value.sent.value.header ==
                         map["Authorization" := ["Bearer " + c.client.auth.Token],
                             "Content-Type" := ["application/json"]])
              && (c.exchange.value.format.Some? ==> c.exchange.value.format.value == Json)
    // The exchange is the executor's own outcome for that one call.
    ensures c.exchange.Some? ==>
              c.exchange.value == DoRequest(env.transport, "POST", m.config.OnlineCheckoutInitiateURL,
                                            "application/json", Some(BearerHook(c.client.auth.Token)),
                                            Structured(c.request.value), Some(EmptyOcInitiateResponse))
    // An executor error becomes a wrapped error.
    ensures c.exchange.Some? && c.exchange.value.err.Some? ==>
              c.result == Err(MpesaConn("unable to initiate the payment process", c.exchange.value.err))
    // Otherwise the decoded response decides: code "0" is success, any other
    // code is an error carrying the provider's description.
    ensures c.exchange.Some? && c.exchange.value.err.None? ==>
              && c.exchange.value.target.Some?
              && var response := c.exchange.value.target.value;
                 && (response.ResponseCode == "0" ==> c.result == Ok(response))
                 && (response.ResponseCode != "0" ==> c.result == Err(MpesaConn(response.ResponseDescription, None)))
    ensures c.result.Ok? ==> c.result.value.ResponseCode == "0" && c.exchange.Some?
  {
    var refreshed := TokenAfterCheck(m, env);
    var m' := m.(auth := refreshed.token);
    var expired := env.isExpired(m.auth);
    if refreshed.err.Some? then
      Checkout(m', expired, None, None, Err(refreshed.err.value))
    else
      match ValidateOcInitiate(param, env.amountEmpty)
      case Some(e) =>
        Checkout(m', expired, None, None, Err(MpesaConn("required fields missing", Some(e))))
      case None =>
        var req := FillProviderFields(param, m.config, env.timestamp,
                                      env.sprintf(m.config.OnlineCheckoutCallbackURL, paymentID));
        var x := DoRequest(env.transport, "POST", m.config.OnlineCheckoutInitiateURL, "application/json",
                           Some(BearerHook(m'.auth.Token)), Structured(req), Some(EmptyOcInitiateResponse));
        if x.err.Some? then
          Checkout(m', expired, Some(req), Some(x), Err(MpesaConn("unable to initiate the payment process", x.err)))
        else
          var response := x.target.value;
          if response.ResponseCode != "0" then
            Checkout(m', expired, Some(req), Some(x), Err(MpesaConn(response.ResponseDescription, None)))
          else
            Checkout(m', expired, Some(req), Some(x), Ok(response))
  }

  /** Refresh precedes validation: with an expired token, invalid input
      still causes a refresh, and then fails without any request. */
  lemma RefreshPrecedesValidation(m: MPesa, env: Env, param: MpesaOcInitiate, paymentID: string)
    requires env.isExpired(m.auth)
    requires !OcInitiateComplete(param, env.amountEmpty)
    ensures var c := InitiateOC(m, env, param, paymentID);
      c.refreshed && c.result.Err? && c.exchange.None? && c.client.auth == env.refresh(m.auth).token
  {
  }

  /** When the token is not expired, `refresh` is never consulted: the
      whole checkout is the same whatever the refresh would have done. */
  lemma NoRefreshWhenFresh(m: MPesa, env: Env, refresh: AuthToken -> Refreshed,
                           param: MpesaOcInitiate, paymentID: string)
    requires !env.isExpired(m.auth)
    ensures InitiateOC(m, env, param, paymentID) == InitiateOC(m, env.(refresh := refresh), param, paymentID)
    ensures !InitiateOC(m, env, param, paymentID).refreshed
  {
  }

  /** The first checkout after `Init` refreshes exactly when `isExpired`
      holds of the zero token, and then installs the refreshed token. */
  lemma FirstCallRefreshesIffZeroTokenExpired(config: MPesaConfig, env: Env, param: MpesaOcInitiate,
                                              paymentID: string)
    ensures var c := InitiateOC(Init(config), env, param, paymentID);
      && (c.refreshed <==> env.isExpired(ZeroToken))
      && (env.isExpired(ZeroToken) ==> c.client.auth == env.refresh(ZeroToken).token)
      && (!env.isExpired(ZeroToken) ==> c.client.auth == ZeroToken)
  {
  }

  /** A transport failure surfaces as the wrapped send error, before any
      decoding: when every send fails, a request that went out yields that
      error and is never mistaken for a decode error or a provider failure. */
  lemma SendFailureSurfaces(m: MPesa, env: Env, param: MpesaOcInitiate, paymentID: string)
    requires forall r :: env.transport.send(r).Err?
    ensures var c := InitiateOC(m, env, param, paymentID);
      c.exchange.Some? && c.exchange.value.sent.Some? ==>
        && c.exchange.value.format.None?
        && c.result == Err(MpesaConn("unable to initiate the payment process",
                                     Some(env.transport.send(c.exchange.value.sent.value).error)))
    ensures InitiateOC(m, env, param, paymentID).result.Err?
  {
  }
}
