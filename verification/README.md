# M-Pesa checkout gateway — a Dafny model

This project models the decision logic of a small Go client for the M-Pesa
payment API:

- the **required-field validators** of the provider configuration
  (`MPesaConfig.Validate`) and of the online-checkout request
  (`MpesaOcInitiate.Validate`), and the error text of a `ValidationCallback`;
- the **request executor** `client.DoRequest`: how the outgoing body is
  chosen (nil, raw bytes or JSON-marshalled value), how the caller's header
  hook and the `Content-Type: application/json` default interact, its early
  exits (marshal, request construction, send and read failures, nil decode
  target) and the exact, case-sensitive JSON/XML choice on the content-type
  hint;
- the **checkout initiation** `mpesa.InitiateOC`: refresh the token if it is
  expired, validate the input, overwrite the provider fields from the
  configuration, make one POST with a bearer header, and turn any response
  code other than `"0"` into an error carrying the provider's description.

Everything the Go code delegates — the JSON marshaller, `http.NewRequest`,
the HTTP transport, the body reader, the JSON and XML decoders, `isExpired`,
`refresh`, the timestamp generator, `fmt.Sprintf` and ozzo-validation's
verdict on a `decimal.Decimal` — is a parameter: a field of the
`Internal.Transport` or `Client.Env` records. The model is a set of pure
functions whose results record what each call did (`Internal.Exchange`,
`Client.Checkout`), so that ordering ("no request after a validation
failure") and framing ("these fields are preserved") are statements about
those results.

Modules follow the source layout: `Common` (bytes, `Option`, `Result`, the
error values), `Validation` (the part of ozzo-validation's `ValidateStruct`
the models use), `Models` (models/models.go), `Internal`
(models/internal/internal.go) and `Client` (client.go).

Validation errors are modelled as ozzo-validation's `validation.Errors`
value: a map from each failing field's JSON name to the message of its
`Required` rule. Both validators take their receiver by value, so they
cannot change their argument; in this model they are pure functions, and
`Client.InitiateOC` states that the caller's fields reach the request
unchanged.

Behaviour of the code worth noting:
- the code refreshes the token **before** validating the input, so invalid
  input can still cause a refresh (`Client.RefreshPrecedesValidation`);
- `isExpired` and `refresh` are called (client.go:45-46) but are methods
  of `mpesa` defined outside client.go and are not modelled, so the model
  assumes neither an expiry safety margin nor any token state machine:
  both are opaque inputs; client.go, models/models.go and
  models/internal/internal.go contain no locking or single-flight refresh;
- a refresh error is returned unwrapped; validation and executor errors are
  wrapped in the `ErrMpesaConn` class; a provider failure is
  `ErrMpesaConn.New(ResponseDescription)`;
- a decode failure returns the decoder's own error, not an error carrying
  the raw bytes;
- `Init` validates neither the configuration nor the token, and does not
  refresh (the refresh call at client.go:37-39 is commented out); whether
  the first `InitiateOC` refreshes depends on what `isExpired` says of the
  zero token, which the model leaves open
  (`Client.FirstCallRefreshesIffZeroTokenExpired`).

## Model

| member | source | states |
|---|---|---|
| Validation.CollectErrors | models/models.go:19-27 | the errors map has a key exactly for the field names some rule rejects, and a rejected field whose name is not reused later maps to its own rule's message |
| Validation.ValidateStruct | models/models.go:19-27 | the verdict is nil exactly when every rule passes; otherwise it is a field-error map whose keys are the rejected field names; with distinct names, a field's name is a key exactly when its rule fails, and then with its own message |
| Models.ValidateConfig | models/models.go:18-28 | the configuration passes exactly when all seven fields are non-empty; the errors map has a key for each empty field and for no other (no key outside the seven JSON names, and a non-empty field's name is absent), each with its own message ("Username is required", ...) |
| Models.ValidateOcInitiate | models/models.go:84-91 | only Amount, PhoneNumber, PartyA and AccountReference are checked; the errors map has a key for each of them exactly when it is empty, with its own message, and no other key |
| Models.ValidateOcInitiateIgnoresProviderFields | models/models.go:70-91 | two requests that agree on the four caller fields get the same verdict, whatever their other seven fields hold |
| Models.ValidateOcInitiateAllowsEmptyProviderFields | models/models.go:70-91 | a request with the four caller fields set passes even when BusinessShortCode, Password, Timestamp, TransactionType, PartyB, CallBackURL and TransactionDesc are all empty |
| Models.CallbackErrorText | models/models.go:66-68 | a callback used as an error reads as exactly its ResultCode |
| Models.CallbackErrorTextIsResultCode | models/models.go:61-68 | a callback's error text is its ResultCode, and changing ResultDesc does not change it |
| Internal.SetHeader | models/internal/internal.go:73 | after setting, the header name holds exactly the one value and every other header is unchanged |
| Internal.EncodeBody | models/internal/internal.go:49-62 | a nil body becomes the empty payload, a byte body is used as it is, and only a structured value goes through the marshaller, whose failure is the outcome |
| Internal.RawBodyNotMarshalled | models/internal/internal.go:50-53 | a nil body becomes the empty payload and a byte body is sent unchanged; neither can fail, and neither depends on the marshaller at all |
| Internal.OutgoingHeader | models/internal/internal.go:68-74 | the hook runs on the new request's empty header first; a Content-Type it set is kept; otherwise Content-Type is exactly `application/json`; with no hook the header is only that default |
| Internal.OutgoingHeaderDefaultsContentType | models/internal/internal.go:68-74 | every outgoing request has a Content-Type, and every other header is exactly the hook's |
| Internal.FormatFor | models/internal/internal.go:103-109 | JSON is chosen exactly for the hints "text/json", "" and "application/json", XML for every other hint |
| Internal.FormatForIsCaseSensitive | models/internal/internal.go:103-109 | differently cased JSON hints such as "Application/JSON" select XML |
| Internal.DoRequest | models/internal/internal.go:40-112 | a request is sent exactly when the body encoded and the request was built, with the encoded body and defaulted header; a marshal failure or a request that cannot be built returns (nil, err) with nothing sent; a send failure returns (nil, err) with nothing read; a nil target returns the response with a nil error, unread; a read failure returns (nil, err); otherwise the hint's decoder runs and the response comes back alongside the decoder's error |
| Internal.DoRequestSuccess | models/internal/internal.go:76-111 | the executor reports no error exactly when the request was sent, the send succeeded, and either there was no target or the body read succeeded and the hint's decoder reported no error; a nil response always comes with an error |
| Client.Init | client.go:29-42 | a new client keeps the configuration and starts with Go's zero token (empty string, zero expiry), without refreshing |
| Client.BearerHook | client.go:71-73 | the hook sets `Authorization` to exactly `Bearer <token>` and leaves every other header as it was |
| Client.TokenAfterCheck | client.go:45-49 | an unexpired token is kept with no refresh and no error; an expired one is replaced by the token and error the refresh leaves |
| Client.FillProviderFields | client.go:57-63 | the filled request has BusinessShortCode and PartyB from the configuration's short code, Password from the pass key, the timestamp, the configuration's transaction type and the templated callback URL, and keeps the caller's Amount, PartyA, PhoneNumber, AccountReference and TransactionDesc |
| Client.FillDiscardsCallerProviderFields | client.go:57-63 | the caller's values for the overwritten fields are discarded: requests agreeing on the caller fields are filled identically |
| Client.FillIdempotent | client.go:57-63 | filling an already filled request changes nothing |
| Client.FillKeepsValidation | client.go:51-63 | filling does not change the validation verdict |
| Client.InitiateOC | client.go:43-92 | refresh runs exactly when the token is expired and a refresh error is returned as it is with no request; a validation failure (after any refresh) returns a wrapped error with no request; otherwise exactly one executor call is made, and the recorded exchange is that call's outcome: a POST to the initiate URL whose request carries the filled fields and exactly the headers `Authorization: Bearer <token held after refresh>` and `Content-Type: application/json`, decoded as JSON into an empty response; an executor error becomes a wrapped error; response code "0" returns the decoded response and any other code an error carrying ResponseDescription |
| Client.NoRefreshWhenFresh | client.go:45-49 | with an unexpired token the refresh is never called: the whole checkout is the same whatever `refresh` would do, and it reports no refresh |
| Client.FirstCallRefreshesIffZeroTokenExpired | client.go:29-49 | the first checkout after `Init` refreshes exactly when `isExpired` holds of the zero token, installing the refreshed token then and keeping the zero token otherwise |
| Client.RefreshPrecedesValidation | client.go:45-55 | with an expired token, invalid input still triggers the refresh and then fails without a request |
| Client.SendFailureSurfaces | client.go:67-81 | when every send fails the call never succeeds, and a request that went out yields the wrapped send error with no decoder run, so a connection failure is never reported as a decode or provider error |

## Left out

- Transport construction in `Init` of models/internal/internal.go (connection-pool sizes, timeout, and the disabled TLS certificate verification): configuration of the Go HTTP library, not decision logic.
- Byte-level JSON and XML encoding and decoding: the marshaller and the two decoders are oracles (`Internal.Transport`); a decoder returns the decode target afterwards and its error.
- `http.NewRequest` and the transport: oracles; the modelled request records method, URL, header and body only.
- Header name canonicalisation by `Header.Set`: header names are taken to be already canonical, as the two names the code uses are.
- The header hook's access to the rest of the request: the hook is modelled by its effect on the header only.
- The ozzo-validation library's internals: `Required` on a string is "non-empty"; on a `decimal.Decimal` its verdict is the `amountEmpty` input, with no claim about zero amounts; the `Error()` string rendering of `validation.Errors` is not modelled.
- `isExpired`, `refresh` (defined outside client.go), `utils.GenerateTimestamp` and `fmt.Sprintf`: not modelled; they are inputs (`Client.Env`), and no safety margin or token state machine is assumed.
- Concurrency: the code has no locking and none is modelled.
- Logging, context cancellation and closing the response body (and logging a close failure): no effect on results.
- `errors.ErrMpesaConn`: modelled only as an error carrying a message and an optional cause (`Common.Error.MpesaConn`).
- The `HTTPClient` interface: `InitiateOC` is modelled against the executor of models/internal/internal.go, the implementation the code provides.
- Calling `ValidationCallback.Error` through a nil pointer (a Go panic).
- The field-only records `MpesaPaymentInitiate`, `MpesaPaymentInitiateResponse`, `ValidationTransaction`, `MpesaOcInitiateErrorResponse`, `CallbackMetadataItem`, `CallbackMetadata`, `StkCallback`, `Body`, `EnvelopeBody`, `Envelope` and `TokenResponse`: no logic, and no modelled operation uses them.
- `decimal.Decimal` arithmetic: an amount is only carried, so it is a plain (value, exponent) pair.
