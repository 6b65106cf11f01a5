/** The provider configuration, the checkout-initiate request and its
    response (models/models.go), with their required-field validators. */
module Models {
  import opened Common
  import opened Validation

  /** Static configuration of the payment provider: credentials, business
      identifiers and the two endpoint URLs. */
  datatype MPesaConfig = MPesaConfig(
    Username: string,
    Password: string,
    BusinessShortCode: string,
    Passkey: string,
    OnlineCheckoutCallbackURL: string,
    OnlineCheckoutInitiateURL: string,
    TransactionType: string)

  /** A `decimal.Decimal`, which denotes value * 10^exp; it is only carried
      around, never computed with. */
  datatype Decimal = Decimal(value: int, exp: int)

  /** The body of an online-checkout (STK push) initiation. */
  datatype MpesaOcInitiate = MpesaOcInitiate(
    BusinessShortCode: string,
    Password: string,
    Timestamp: string,
    TransactionType: string,
    Amount: Decimal,
    PartyA: string,
    PartyB: string,
    PhoneNumber: string,
    CallBackURL: string,
    AccountReference: string,
    TransactionDesc: string)

  /** The provider's reply to an online-checkout initiation. */
  datatype MpesaOcInitiateResponse = MpesaOcInitiateResponse(
    MerchantRequestID: string,
    CheckoutRequestID: string,
    ResponseCode: string,
    ResponseDescription: string,
    CustomerMessage: string)

  /** The Go zero value of the response, which the decoder fills in. */
  const EmptyOcInitiateResponse := MpesaOcInitiateResponse("", "", "", "", "")

  /** The result a provider posts to the validation URL. */
  datatype ValidationCallback = ValidationCallback(ResultCode: string, ResultDesc: string)

  /** Every field of the configuration is filled in. */
  predicate ConfigComplete(m: MPesaConfig)
  {
    && m.Username != ""
    && m.Password != ""
    && m.BusinessShortCode != ""
    && m.Passkey != ""
    && m.OnlineCheckoutCallbackURL != ""
    && m.OnlineCheckoutInitiateURL != ""
    && m.TransactionType != ""
  }

  /** The one rule per configuration field, in declaration order, with the
      field's JSON name and its message. */
  function ConfigRules(m: MPesaConfig): seq<FieldRule>
  {
    [ FieldRule("username", m.Username != "", "Username is required"),
      FieldRule("password", m.Password != "", "Password is required"),
      FieldRule("business_short_code", m.BusinessShortCode != "", "Business short code is required"),
      FieldRule("passkey", m.Passkey != "", "Pass key is required"),
      FieldRule("online_checkout_callback_url", m.OnlineCheckoutCallbackURL != "", "online checkout callback url is required"),
      FieldRule("online_checkout_initiate_url", m.OnlineCheckoutInitiateURL != "", "online checkout initiate url is required"),
      FieldRule("transaction_type", m.TransactionType != "", "transaction type is required") ]
  }

  /** The JSON names of the configuration fields. */
  const ConfigFieldNames: set<string> := {"username", "password", "business_short_code", "passkey",
    "online_checkout_callback_url", "online_checkout_initiate_url", "transaction_type"}

  /** The configuration rules have distinct names drawn from
      `ConfigFieldNames`, and all of them pass exactly when the configuration
      is complete. */
  lemma ConfigRulesShape(m: MPesaConfig)
    ensures TagsDistinct(ConfigRules(m))
    ensures forall i | 0 <= i < |ConfigRules(m)| :: ConfigRules(m)[i].tag in ConfigFieldNames
    ensures ConfigComplete(m) <==> forall i | 0 <= i < |ConfigRules(m)| :: ConfigRules(m)[i].present
  {
    var rules := ConfigRules(m);
    forall i | 0 <= i < |rules| ensures rules[i].tag in ConfigFieldNames && (ConfigComplete(m) ==> rules[i].present) {
      if i == 0 {} else if i == 1 {} else if i == 2 {} else if i == 3 {}
      else if i == 4 {} else if i == 5 {} else {}
    }
    if forall i | 0 <= i < |rules| :: rules[i].present {
      assert rules[0].present && rules[1].present && rules[2].present && rules[3].present;
      assert rules[4].present && rules[5].present && rules[6].present;
    }
  }

  /** Each configuration rule is reported exactly when its field is empty. */
  lemma ConfigRulesReported(m: MPesaConfig)
    ensures var r := ValidateStruct(ConfigRules(m));
      && (Reports(r, "username", "Username is required") <==> m.Username == "")
      && (Reports(r, "password", "Password is required") <==> m.Password == "")
      && (Reports(r, "business_short_code", "Business short code is required") <==> m.BusinessShortCode == "")
      && (Reports(r, "passkey", "Pass key is required") <==> m.Passkey == "")
      && (Reports(r, "online_checkout_callback_url", "online checkout callback url is required") <==> m.OnlineCheckoutCallbackURL == "")
      && (Reports(r, "online_checkout_initiate_url", "online checkout initiate url is required") <==> m.OnlineCheckoutInitiateURL == "")
      && (Reports(r, "transaction_type", "transaction type is required") <==> m.TransactionType == "")
  {
    var rules := ConfigRules(m);
    ConfigRulesShape(m);
    var r := ValidateStruct(rules);
    assert Reports(r, rules[0].tag, rules[0].message) <==> !rules[0].present;
    assert Reports(r, rules[1].tag, rules[1].message) <==> !rules[1].present;
    assert Reports(r, rules[2].tag, rules[2].message) <==> !rules[2].present;
    assert Reports(r, rules[3].tag, rules[3].message) <==> !rules[3].present;
    assert Reports(r, rules[4].tag, rules[4].message) <==> !rules[4].present;
    assert Reports(r, rules[5].tag, rules[5].message) <==> !rules[5].present;
    assert Reports(r, rules[6].tag, rules[6].message) <==> !rules[6].present;
  }

  /** A configuration field's JSON name is a key of the errors exactly when
      the field is empty. */
  lemma ConfigRulesFlagged(m: MPesaConfig)
    ensures var r := ValidateStruct(ConfigRules(m));
      && (Flags(r, "username") <==> m.Username == "")
      && (Flags(r, "password") <==> m.Password == "")
      && (Flags(r, "business_short_code") <==> m.BusinessShortCode == "")
      && (Flags(r, "passkey") <==> m.Passkey == "")
      && (Flags(r, "online_checkout_callback_url") <==> m.OnlineCheckoutCallbackURL == "")
      && (Flags(r, "online_checkout_initiate_url") <==> m.OnlineCheckoutInitiateURL == "")
      && (Flags(r, "transaction_type") <==> m.TransactionType == "")
  {
    var rules := ConfigRules(m);
    ConfigRulesShape(m);
    var r := ValidateStruct(rules);
    assert Flags(r, rules[0].tag) <==> !rules[0].present;
    assert Flags(r, rules[1].tag) <==> !rules[1].present;
    assert Flags(r, rules[2].tag) <==> !rules[2].present;
    assert Flags(r, rules[3].tag) <==> !rules[3].present;
    assert Flags(r, rules[4].tag) <==> !rules[4].present;
    assert Flags(r, rules[5].tag) <==> !rules[5].present;
    assert Flags(r, rules[6].tag) <==> !rules[6].present;
  }

  /** Only configuration field names appear in a configuration's errors. */
  lemma ConfigRulesKeys(m: MPesaConfig)
    ensures var r := ValidateStruct(ConfigRules(m));
      r.Some? ==> r.value.FieldErrors? && r.value.fields.Keys <= ConfigFieldNames
  {
    var rules := ConfigRules(m);
    ConfigRulesShape(m);
    var r := ValidateStruct(rules);
    if r.Some? {
      forall tag | tag in r.value.fields ensures tag in ConfigFieldNames {
        assert Fails(rules, tag);
      }
    }
  }

  /** `MPesaConfig.Validate`: passes exactly when all seven fields are
      non-empty; the errors hold a key for each empty field and for no
      other, each under its JSON name with its own message. */
  function ValidateConfig(m: MPesaConfig): (r: Option<Error>)
    ensures r.None? <==> ConfigComplete(m)
    ensures r.Some? ==> r.value.FieldErrors? && r.value.fields.Keys <= ConfigFieldNames
    ensures Reports(r, "username", "Username is required") <==> m.Username == ""
    ensures Reports(r, "password", "Password is required") <==> m.Password == ""
    ensures Reports(r, "business_short_code", "Business short code is required") <==> m.BusinessShortCode == ""
    ensures Reports(r, "passkey", "Pass key is required") <==> m.Passkey == ""
    ensures Reports(r, "online_checkout_callback_url", "online checkout callback url is required")
            <==> m.OnlineCheckoutCallbackURL == ""
    ensures Reports(r, "online_checkout_initiate_url", "online checkout initiate url is required")
            <==> m.OnlineCheckoutInitiateURL == ""
    ensures Reports(r, "transaction_type", "transaction type is required") <==> m.TransactionType == ""
    ensures Flags(r, "username") <==> m.Username == ""
    ensures Flags(r, "password") <==> m.Password == ""
    ensures Flags(r, "business_short_code") <==> m.BusinessShortCode == ""
    ensures Flags(r, "passkey") <==> m.Passkey == ""
    ensures Flags(r, "online_checkout_callback_url") <==> m.OnlineCheckoutCallbackURL == ""
    ensures Flags(r, "online_checkout_initiate_url") <==> m.OnlineCheckoutInitiateURL == ""
    ensures Flags(r, "transaction_type") <==> m.TransactionType == ""
  {
    ConfigRulesShape(m);
    ConfigRulesReported(m);
    ConfigRulesFlagged(m);
    ConfigRulesKeys(m);
    ValidateStruct(ConfigRules(m))
  }

  /** The four fields the caller of a checkout must supply; `amountEmpty`
      is ozzo-validation's `Required` verdict on a `decimal.Decimal`, which
      this model leaves open. */
  predicate OcInitiateComplete(c: MpesaOcInitiate, amountEmpty: Decimal -> bool)
  {
    && !amountEmpty(c.Amount)
    && c.PhoneNumber != ""
    && c.PartyA != ""
    && c.AccountReference != ""
  }

  function OcInitiateRules(c: MpesaOcInitiate, amountEmpty: Decimal -> bool): seq<FieldRule>
  {
    [ FieldRule("Amount", !amountEmpty(c.Amount), "amount is required"),
      FieldRule("PhoneNumber", c.PhoneNumber != "", "phone-number is required"),
      FieldRule("PartyA", c.PartyA != "", "Pparty-A is required"),
      FieldRule("AccountReference", c.AccountReference != "", "account-reference is required") ]
  }

  /** The JSON names of the fields a checkout caller must supply. */
  const OcInitiateFieldNames: set<string> := {"Amount", "PhoneNumber", "PartyA", "AccountReference"}

  /** The checkout rules have distinct names drawn from
      `OcInitiateFieldNames`, and all of them pass exactly when the four
      caller fields are set. */
  lemma OcInitiateRulesShape(c: MpesaOcInitiate, amountEmpty: Decimal -> bool)
    ensures TagsDistinct(OcInitiateRules(c, amountEmpty))
    ensures forall i | 0 <= i < |OcInitiateRules(c, amountEmpty)| ::
              OcInitiateRules(c, amountEmpty)[i].tag in OcInitiateFieldNames
    ensures OcInitiateComplete(c, amountEmpty) <==>
              forall i | 0 <= i < |OcInitiateRules(c, amountEmpty)| :: OcInitiateRules(c, amountEmpty)[i].present
  {
    var rules := OcInitiateRules(c, amountEmpty);
    forall i | 0 <= i < |rules|
      ensures rules[i].tag in OcInitiateFieldNames && (OcInitiateComplete(c, amountEmpty) ==> rules[i].present)
    {
      if i == 0 {} else if i == 1 {} else if i == 2 {} else {}
    }
    if forall i | 0 <= i < |rules| :: rules[i].present {
      assert rules[0].present && rules[1].present && rules[2].present && rules[3].present;
    }
  }

  /** Each checkout rule is reported exactly when its field is empty. */
  lemma OcInitiateRulesReported(c: MpesaOcInitiate, amountEmpty: Decimal -> bool)
    ensures var r := ValidateStruct(OcInitiateRules(c, amountEmpty));
      && (Reports(r, "Amount", "amount is required") <==> amountEmpty(c.Amount))
      && (Reports(r, "PhoneNumber", "phone-number is required") <==> c.PhoneNumber == "")
      && (Reports(r, "PartyA", "Pparty-A is required") <==> c.PartyA == "")
      && (Reports(r, "AccountReference", "account-reference is required") <==> c.AccountReference == "")
  {
    var rules := OcInitiateRules(c, amountEmpty);
    OcInitiateRulesShape(c, amountEmpty);
    var r := ValidateStruct(rules);
    assert Reports(r, rules[0].tag, rules[0].message) <==> !rules[0].present;
    assert Reports(r, rules[1].tag, rules[1].message) <==> !rules[1].present;
    assert Reports(r, rules[2].tag, rules[2].message) <==> !rules[2].present;
    assert Reports(r, rules[3].tag, rules[3].message) <==> !rules[3].present;
  }

  /** A checkout caller field's JSON name is a key of the errors exactly when
      the field is empty. */
  lemma OcInitiateRulesFlagged(c: MpesaOcInitiate, amountEmpty: Decimal -> bool)
    ensures var r := ValidateStruct(OcInitiateRules(c, amountEmpty));
      && (Flags(r, "Amount") <==> amountEmpty(c.Amount))
      && (Flags(r, "PhoneNumber") <==> c.PhoneNumber == "")
      && (Flags(r, "PartyA") <==> c.PartyA == "")
      && (Flags(r, "AccountReference") <==> c.AccountReference == "")
  {
    var rules := OcInitiateRules(c, amountEmpty);
    OcInitiateRulesShape(c, amountEmpty);
    var r := ValidateStruct(rules);
    assert Flags(r, rules[0].tag) <==> !rules[0].present;
    assert Flags(r, rules[1].tag) <==> !rules[1].present;
    assert Flags(r, rules[2].tag) <==> !rules[2].present;
    assert Flags(r, rules[3].tag) <==> !rules[3].present;
  }

  /** Only the four caller field names appear in a checkout's errors. */
  lemma OcInitiateRulesKeys(c: MpesaOcInitiate, amountEmpty: Decimal -> bool)
    ensures var r := ValidateStruct(OcInitiateRules(c, amountEmpty));
      r.Some? ==> r.value.FieldErrors? && r.value.fields.Keys <= OcInitiateFieldNames
  {
    var rules := OcInitiateRules(c, amountEmpty);
    OcInitiateRulesShape(c, amountEmpty);
    var r := ValidateStruct(rules);
    if r.Some? {
      forall tag | tag in r.value.fields ensures tag in OcInitiateFieldNames {
        assert Fails(rules, tag);
      }
    }
  }

  /** `MpesaOcInitiate.Validate`: only Amount, PhoneNumber, PartyA and
      AccountReference are checked; the errors hold a key for each of them
      exactly when it is empty, under its JSON name with its own message;
      the provider fields may be empty. */
  function ValidateOcInitiate(c: MpesaOcInitiate, amountEmpty: Decimal -> bool): (r: Option<Error>)
    ensures r.None? <==> OcInitiateComplete(c, amountEmpty)
    ensures r.Some? ==> r.value.FieldErrors? && r.value.fields.Keys <= OcInitiateFieldNames
    ensures Reports(r, "Amount", "amount is required") <==> amountEmpty(c.Amount)
    ensures Reports(r, "PhoneNumber", "phone-number is required") <==> c.PhoneNumber == ""
    ensures Reports(r, "PartyA", "Pparty-A is required") <==> c.PartyA == ""
    ensures Reports(r, "AccountReference", "account-reference is required") <==> c.AccountReference == ""
    ensures Flags(r, "Amount") <==> amountEmpty(c.Amount)
    ensures Flags(r, "PhoneNumber") <==> c.PhoneNumber == ""
    ensures Flags(r, "PartyA") <==> c.PartyA == ""
    ensures Flags(r, "AccountReference") <==> c.AccountReference == ""
  {
    OcInitiateRulesShape(c, amountEmpty);
    OcInitiateRulesReported(c, amountEmpty);
    OcInitiateRulesFlagged(c, amountEmpty);
    OcInitiateRulesKeys(c, amountEmpty);
    ValidateStruct(OcInitiateRules(c, amountEmpty))
  }

  /** Two requests that agree on the four caller-supplied fields validate
      alike, whatever their provider fields hold. */
  lemma ValidateOcInitiateIgnoresProviderFields(c: MpesaOcInitiate, d: MpesaOcInitiate, amountEmpty: Decimal -> bool)
    requires c.Amount == d.Amount && c.PhoneNumber == d.PhoneNumber
    requires c.PartyA == d.PartyA && c.AccountReference == d.AccountReference
    ensures ValidateOcInitiate(c, amountEmpty) == ValidateOcInitiate(d, amountEmpty)
  {
    assert OcInitiateRules(c, amountEmpty) == OcInitiateRules(d, amountEmpty);
  }

  /** A request whose four caller fields are set passes even with every
      provider field empty. */
  lemma ValidateOcInitiateAllowsEmptyProviderFields(c: MpesaOcInitiate, amountEmpty: Decimal -> bool)
    requires OcInitiateComplete(c, amountEmpty)
    ensures ValidateOcInitiate(c.(BusinessShortCode := "", Password := "", Timestamp := "",
                                  TransactionType := "", PartyB := "", CallBackURL := "",
                                  TransactionDesc := ""), amountEmpty).None?
  {
  }

  /** `ValidationCallback.Error`: a callback used as an error reads as its
      result code; the description is not part of the text. */
  function CallbackErrorText(v: ValidationCallback): (text: string)
    ensures text == v.ResultCode
  {
    v.ResultCode
  }

  /** The error text is the result code, whatever the description says. */
  lemma CallbackErrorTextIsResultCode(v: ValidationCallback, desc: string)
    ensures CallbackErrorText(v.(ResultDesc := desc)) == v.ResultCode
    ensures CallbackErrorText(v.(ResultDesc := desc)) == CallbackErrorText(v)
  {
  }
}
