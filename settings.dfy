/** The admin settings page of a payment-method module
    (GingerConfigurableTrait): which configuration keys a submitted form
    writes, the check that the API key is set, and the list of fields the
    page shows for a payment method. */
module Settings {
  import opened Base
  import opened Domain

  /** What the module's capabilities are: it supports an IP allow-list, a
      country allow-list, and capture (the source tests these with
      instanceof on marker interfaces). */
  datatype Capabilities = Capabilities(ipValidation: bool, countryValidation: bool, capturable: bool)

  /** A payment-method module: its module name, its method id and its capabilities. */
  datatype Module = Module(name: string, methodId: string, caps: Capabilities)

  const ApiKey := "GINGER_API_KEY"
  const BundleCaKey := "GINGER_BUNDLE_CA"
  const ExpirationKey := "GINGER_ORDER_EXPIRATION_PERIOD"
  const AfterpayTestKey := "GINGER_AFTERPAY_TEST_API_KEY"
  const KlarnaTestKey := "GINGER_KLARNAPAYLATER_TEST_API_KEY"

  /** The upper bound (exclusive) on the order expiration period, in minutes. */
  const MaxExpirationPeriod := 360

  /** A submitted expiration period that is stored: ctype_digit and
      strictly between 0 and 360. */
  predicate ValidExpiration(v: string) {
    IsDigits(v) && 0 < DigitsValue(v) < MaxExpirationPeriod
  }

  /** The keys of the provider module that do not depend on a method id. */
  predicate FixedKey(k: string) {
    k == ApiKey || k == BundleCaKey || k == ExpirationKey || k == AfterpayTestKey || k == KlarnaTestKey
  }

  /** A key under the method's prefix with one of the four suffixes. */
  predicate MethodKeyOf(methodId: string, k: string) {
    k == MethodKey(methodId, IpSuffix) || k == MethodKey(methodId, CountrySuffix)
    || k == MethodKey(methodId, CaptureSuffix) || k == MethodKey(methodId, LabelSuffix)
  }

  /** The keys written under a method's prefix differ from one another and
      from the fixed keys of the provider module. */
  lemma KeysDistinct(methodId: string)
    ensures var p := KeyPrefix(methodId);
      && p + IpSuffix != p + CountrySuffix && p + IpSuffix != p + CaptureSuffix
      && p + IpSuffix != p + LabelSuffix && p + CountrySuffix != p + CaptureSuffix
      && p + CountrySuffix != p + LabelSuffix && p + CaptureSuffix != p + LabelSuffix
      && !FixedKey(p + IpSuffix) && !FixedKey(p + CountrySuffix)
      && !FixedKey(p + CaptureSuffix) && !FixedKey(p + LabelSuffix)
  {
    var p := KeyPrefix(methodId);
    SuffixesDiffer(p, IpSuffix, CountrySuffix);
    SuffixesDiffer(p, IpSuffix, CaptureSuffix);
    SuffixesDiffer(p, IpSuffix, LabelSuffix);
    SuffixesDiffer(p, CountrySuffix, CaptureSuffix);
    SuffixesDiffer(p, CountrySuffix, LabelSuffix);
    SuffixesDiffer(p, CaptureSuffix, LabelSuffix);
    NotFixed(p, IpSuffix);
    NotFixed(p, CountrySuffix);
    NotFixed(p, CaptureSuffix);
    NotFixed(p, LabelSuffix);
  }

  /** Every fixed key ends in Y, A or D; the per-method suffixes do not. */
  lemma NotFixed(p: string, suffix: string)
    requires |suffix| > 0 && suffix[|suffix| - 1] !in "YAD"
    ensures !FixedKey(p + suffix)
  {
    var k := p + suffix;
    assert k[|k| - 1] == suffix[|suffix| - 1];
  }

  lemma SuffixesDiffer(p: string, a: string, b: string)
    requires a != b
    ensures p + a != p + b
  {
    assert (p + a)[|p|..] == a;
    assert (p + b)[|p|..] == b;
  }

  /** The keys postProcess writes for module m, with their values, when the
      form is submitted. form holds the submitted values (Tools::getValue).
      - The IP list is written, trimmed, iff the module supports IP
        validation; likewise the country list for country validation; the
        manual-capture switch iff the method is credit-card.
      - The provider module (method id PSP_PREFIX) writes the trimmed API key
        and the CA-bundle switch, the expiration period only when it is all
        digits and strictly between 0 and 360, and the test API keys of the
        methods the installation has; any other module writes only its label.
        So the API key and a label are never both written.
      - Nothing else is written. */
  function SettingsWrites(m: Module, form: Config, pspPrefix: string, labels: set<string>): (w: map<string, string>)
    ensures var p := KeyPrefix(m.methodId);
      && (p + IpSuffix in w <==> m.caps.ipValidation)
      && (p + IpSuffix in w ==> w[p + IpSuffix] == Trim(ConfigValue(form, p + IpSuffix)))
      && (p + CountrySuffix in w <==> m.caps.countryValidation)
      && (p + CountrySuffix in w ==> w[p + CountrySuffix] == Trim(ConfigValue(form, p + CountrySuffix)))
      && (p + CaptureSuffix in w <==> m.methodId == "credit-card")
      && (p + CaptureSuffix in w ==> w[p + CaptureSuffix] == Trim(ConfigValue(form, p + CaptureSuffix)))
      && (p + LabelSuffix in w <==> m.methodId != pspPrefix)
      && (p + LabelSuffix in w ==> w[p + LabelSuffix] == Trim(ConfigValue(form, p + LabelSuffix)))
    ensures ApiKey in w <==> m.methodId == pspPrefix
    ensures ApiKey in w ==> w[ApiKey] == Trim(ConfigValue(form, ApiKey))
    ensures BundleCaKey in w <==> m.methodId == pspPrefix
    ensures BundleCaKey in w ==> w[BundleCaKey] == ConfigValue(form, BundleCaKey)
    ensures ExpirationKey in w <==> m.methodId == pspPrefix && ValidExpiration(ConfigValue(form, ExpirationKey))
    ensures ExpirationKey in w ==> w[ExpirationKey] == ConfigValue(form, ExpirationKey)
    ensures AfterpayTestKey in w <==> m.methodId == pspPrefix && "afterpay" in labels
    ensures AfterpayTestKey in w ==> w[AfterpayTestKey] == Trim(ConfigValue(form, AfterpayTestKey))
    ensures KlarnaTestKey in w <==> m.methodId == pspPrefix && "klarna-pay-later" in labels
    ensures KlarnaTestKey in w ==> w[KlarnaTestKey] == Trim(ConfigValue(form, KlarnaTestKey))
    ensures !(ApiKey in w && KeyPrefix(m.methodId) + LabelSuffix in w)
    ensures forall k :: k in w ==> MethodKeyOf(m.methodId, k) || FixedKey(k)
  {
    KeysDistinct(m.methodId);
    if m.methodId == pspPrefix then MethodWrites(m, form) + ProviderWrites(form, labels)
    else MethodWrites(m, form)[MethodKey(m.methodId, LabelSuffix) := Trim(ConfigValue(form, MethodKey(m.methodId, LabelSuffix)))]
  }

  /** The writes that depend on the module's capabilities and method id. */
  function MethodWrites(m: Module, form: Config): (w: map<string, string>)
    ensures var p := KeyPrefix(m.methodId);
      && (p + IpSuffix in w <==> m.caps.ipValidation)
      && (p + IpSuffix in w ==> w[p + IpSuffix] == Trim(ConfigValue(form, p + IpSuffix)))
      && (p + CountrySuffix in w <==> m.caps.countryValidation)
      && (p + CountrySuffix in w ==> w[p + CountrySuffix] == Trim(ConfigValue(form, p + CountrySuffix)))
      && (p + CaptureSuffix in w <==> m.methodId == "credit-card")
      && (p + CaptureSuffix in w ==> w[p + CaptureSuffix] == Trim(ConfigValue(form, p + CaptureSuffix)))
      && (forall k :: k in w ==> k == p + IpSuffix || k == p + CountrySuffix || k == p + CaptureSuffix)
      && p + LabelSuffix !in w
    ensures forall k :: FixedKey(k) ==> k !in w
  {
    KeysDistinct(m.methodId);
    var p := KeyPrefix(m.methodId);
    var w1 := if m.caps.ipValidation then map[p + IpSuffix := Trim(ConfigValue(form, p + IpSuffix))] else map[];
    var w2 := if m.caps.countryValidation then w1[p + CountrySuffix := Trim(ConfigValue(form, p + CountrySuffix))] else w1;
    if m.methodId == "credit-card" then w2[p + CaptureSuffix := Trim(ConfigValue(form, p + CaptureSuffix))] else w2
  }

  /** The writes only the provider module makes. */
  function ProviderWrites(form: Config, labels: set<string>): (w: map<string, string>)
    ensures ApiKey in w && w[ApiKey] == Trim(ConfigValue(form, ApiKey))
    ensures BundleCaKey in w && w[BundleCaKey] == ConfigValue(form, BundleCaKey)
    ensures ExpirationKey in w <==> ValidExpiration(ConfigValue(form, ExpirationKey))
    ensures ExpirationKey in w ==> w[ExpirationKey] == ConfigValue(form, ExpirationKey)
    ensures AfterpayTestKey in w <==> "afterpay" in labels
    ensures AfterpayTestKey in w ==> w[AfterpayTestKey] == Trim(ConfigValue(form, AfterpayTestKey))
    ensures KlarnaTestKey in w <==> "klarna-pay-later" in labels
    ensures KlarnaTestKey in w ==> w[KlarnaTestKey] == Trim(ConfigValue(form, KlarnaTestKey))
    ensures forall k :: k in w ==> FixedKey(k)
  {
    var period := ConfigValue(form, ExpirationKey);
    var w1 := map[ApiKey := Trim(ConfigValue(form, ApiKey)), BundleCaKey := ConfigValue(form, BundleCaKey)];
    var w2 := if ValidExpiration(period) then w1[ExpirationKey := period] else w1;
    var w3 := if "afterpay" in labels then w2[AfterpayTestKey := Trim(ConfigValue(form, AfterpayTestKey))] else w2;
    if "klarna-pay-later" in labels then w3[KlarnaTestKey := Trim(ConfigValue(form, KlarnaTestKey))] else w3
  }

  /** An expiration period that is not all digits, or not strictly between
      0 and 360, leaves the stored period as it was. */
  lemma InvalidExpirationKeepsStored(config: Config, m: Module, form: Config, pspPrefix: string, labels: set<string>)
    requires !ValidExpiration(ConfigValue(form, ExpirationKey))
    ensures var after := config + SettingsWrites(m, form, pspPrefix, labels);
            (ExpirationKey in after <==> ExpirationKey in config)
            && (ExpirationKey in config ==> after[ExpirationKey] == config[ExpirationKey])
  {
  }

  /** The prefix of a method id with dashes between dash-free pieces:
      GINGER_ and the pieces run together, upper-cased. */
  lemma PrefixOfDashed(a: string, b: string)
    requires '-' !in a && '-' !in b
    ensures KeyPrefix(a + "-" + b) == "GINGER_" + Upper(a + b)
  {
    RemoveDashJoin(a, b);
  }

  lemma PrefixOfDashed3(a: string, b: string, c: string)
    requires '-' !in a && '-' !in b && '-' !in c
    ensures KeyPrefix(a + "-" + b + "-" + c) == "GINGER_" + Upper(a + b + c)
  {
    RemoveDashJoin3(a, b, c);
  }

  /** The configuration key the credit-card module writes for its switch is
      the key the order-status hook reads. */
  lemma CreditCardCaptureKey(methodId: string)
    requires methodId == "credit-card"
    ensures MethodKey(methodId, CaptureSuffix) == ManualCaptureKey
  {
    PrefixOfDashed("credit", "card");
    assert "credit" + "-" + "card" == methodId;
    UpperCreditCard("credit" + "card");
  }

  // The helpers below take the literal pieces through parameters pinned by
  // their requires: written with the literals inline, the same facts cost
  // the solver far more than with the strings bound to variables.

  /** Upper-casing creditcard and appending the capture suffix gives the
      manual-capture key. */
  lemma UpperCreditCard(s: string)
    requires s == "creditcard"
    ensures "GINGER_" + Upper(s) + CaptureSuffix == ManualCaptureKey
  {
  }

  /** The key prefix of klarna-pay-later is GINGER_KLARNAPAYLATER. */
  lemma KlarnaPayLaterPrefix(methodId: string)
    requires methodId == "klarna-pay-later"
    ensures KeyPrefix(methodId) == "GINGER_KLARNAPAYLATER"
  {
    KlarnaPieces(methodId, "klarna", "pay", "later");
    PrefixOfDashed3("klarna", "pay", "later");
    UpperKlarna("klarna", "pay", "later");
  }

  /** klarna-pay-later is klarna, pay and later joined by dashes. */
  lemma KlarnaPieces(methodId: string, a: string, b: string, c: string)
    requires methodId == "klarna-pay-later" && a == "klarna" && b == "pay" && c == "later"
    ensures methodId == a + "-" + b + "-" + c
  {
  }

  /** Upper-casing klarnapaylater gives KLARNAPAYLATER. */
  lemma UpperKlarna(a: string, b: string, c: string)
    requires a == "klarna" && b == "pay" && c == "later"
    ensures "GINGER_" + Upper(a + b + c) == "GINGER_KLARNAPAYLATER"
  {
  }

  /** The capture checkbox posts under the key the order-status hook reads. */
  lemma CaptureCheckboxKey()
    ensures CaptureCheckbox.name + "_" + CaptureCheckbox.optionId == ManualCaptureKey
  {
  }

  /** postProcess: when the form is submitted, the configuration store
      receives exactly SettingsWrites and keeps every other key; the page
      then shows the confirmation. */
  method PostProcess(shop: Shop, m: Module, form: Config, submitted: bool, pspPrefix: string, labels: set<string>)
    returns (confirmation: string)
    modifies shop`config
    ensures shop.config == if submitted then old(shop.config) + SettingsWrites(m, form, pspPrefix, labels) else old(shop.config)
    ensures confirmation == "Settings updated"
  {
    confirmation := "Settings updated";
    if !submitted {
      return;
    }
    ghost var start := shop.config;
    WriteMethodKeys(shop, m, form);
    if m.methodId == pspPrefix {
      WriteProviderKeys(shop, form, labels);
      UnionAssociates(start, MethodWrites(m, form), ProviderWrites(form, labels));
    } else {
      var key := MethodKey(m.methodId, LabelSuffix);
      Write(shop, start, MethodWrites(m, form), key, Trim(ConfigValue(form, key)));
    }
  }

  /** The writes of MethodWrites, one updateValue at a time. */
  method WriteMethodKeys(shop: Shop, m: Module, form: Config)
    modifies shop`config
    ensures shop.config == old(shop.config) + MethodWrites(m, form)
  {
    var p := KeyPrefix(m.methodId);
    ghost var start := shop.config;
    ghost var w: map<string, string> := map[];
    if m.caps.ipValidation {
      Write(shop, start, w, p + IpSuffix, Trim(ConfigValue(form, p + IpSuffix)));
      w := w[p + IpSuffix := Trim(ConfigValue(form, p + IpSuffix))];
    }
    if m.caps.countryValidation {
      Write(shop, start, w, p + CountrySuffix, Trim(ConfigValue(form, p + CountrySuffix)));
      w := w[p + CountrySuffix := Trim(ConfigValue(form, p + CountrySuffix))];
    }
    if m.methodId == "credit-card" {
      Write(shop, start, w, p + CaptureSuffix, Trim(ConfigValue(form, p + CaptureSuffix)));
      w := w[p + CaptureSuffix := Trim(ConfigValue(form, p + CaptureSuffix))];
    }
  }

  /** The writes of ProviderWrites, one updateValue at a time. */
  method WriteProviderKeys(shop: Shop, form: Config, labels: set<string>)
    modifies shop`config
    ensures shop.config == old(shop.config) + ProviderWrites(form, labels)
  {
    ghost var start := shop.config;
    ghost var v: map<string, string> := map[];
    Write(shop, start, v, ApiKey, Trim(ConfigValue(form, ApiKey)));
    v := v[ApiKey := Trim(ConfigValue(form, ApiKey))];
    Write(shop, start, v, BundleCaKey, ConfigValue(form, BundleCaKey));
    v := v[BundleCaKey := ConfigValue(form, BundleCaKey)];
    var period := ConfigValue(form, ExpirationKey);
    if ValidExpiration(period) {
      Write(shop, start, v, ExpirationKey, period);
      v := v[ExpirationKey := period];
    }
    if "afterpay" in labels {
      Write(shop, start, v, AfterpayTestKey, Trim(ConfigValue(form, AfterpayTestKey)));
      v := v[AfterpayTestKey := Trim(ConfigValue(form, AfterpayTestKey))];
    }
    if "klarna-pay-later" in labels {
      Write(shop, start, v, KlarnaTestKey, Trim(ConfigValue(form, KlarnaTestKey)));
      v := v[KlarnaTestKey := Trim(ConfigValue(form, KlarnaTestKey))];
    }
  }

  /** Configuration::updateValue(key, value) on a store that holds start
      plus the writes w so far: it then holds start plus w with key set. */
  method Write(shop: Shop, ghost start: Config, ghost w: map<string, string>, key: string, value: string)
    requires shop.config == start + w
    modifies shop`config
    ensures shop.config == start + w[key := value]
  {
    shop.config := shop.config[key := value];
  }

  lemma UnionAssociates(a: map<string, string>, b: map<string, string>, c: map<string, string>)
    ensures (a + b) + c == a + (b + c)
  {
  }

  const ApiKeyMissing := "API key should be set."

  /** postValidation: the one error, that the API key should be set, is
      reported iff no (truthy) API key is stored and the module is not the
      provider module itself. */
  function PostValidation(config: Config, m: Module, pspPrefix: string): (errors: seq<string>)
    ensures errors != [] <==> !Truthy(ConfigValue(config, ApiKey)) && m.name != pspPrefix
    ensures errors != [] ==> errors == [ApiKeyMissing]
  {
    if !Truthy(ConfigValue(config, ApiKey)) && m.name != pspPrefix then [ApiKeyMissing] else []
  }

  /** A message shown on the settings page. */
  datatype Message = Error(text: string) | Confirmation(text: string)

  /** getContent: on a submitted form, the validation errors are shown and
      the settings are written anyway, followed by the confirmation; without
      a submission nothing is written. */
  method GetContent(shop: Shop, m: Module, form: Config, submitted: bool, pspPrefix: string, labels: set<string>)
    returns (messages: seq<Message>)
    modifies shop`config
    ensures submitted ==> shop.config == old(shop.config) + SettingsWrites(m, form, pspPrefix, labels)
    ensures submitted ==>
      var errors := PostValidation(old(shop.config), m, pspPrefix);
      |messages| == |errors| + 1 && messages[|errors|] == Confirmation("Settings updated")
      && forall i :: 0 <= i < |errors| ==> messages[i] == Error(errors[i])
    ensures !submitted ==> shop.config == old(shop.config) && messages == []
  {
    messages := [];
    if !submitted {
      return;
    }
    var errors := PostValidation(shop.config, m, pspPrefix);
    var i := 0;
    while i < |errors|
      invariant 0 <= i <= |errors|
      invariant |messages| == i
      invariant forall j :: 0 <= j < i ==> messages[j] == Error(errors[j])
    {
      messages := messages + [Error(errors[i])];
      i := i + 1;
    }
    var confirmation := PostProcess(shop, m, form, submitted, pspPrefix, labels);
    messages := messages + [Confirmation(confirmation)];
  }

  // ------------------------------------------------ payment-method fields

  /** A field of the settings form: a text input or a checkbox whose one
      option posts under name + "_" + optionId. */
  datatype Field = TextField(name: string, required: bool) | CheckboxField(name: string, optionId: string)

  /** array_filter over a list with null entries: the present entries, in order. */
  function Compact(xs: seq<Option<Field>>): (r: seq<Field>)
    ensures |r| <= |xs|
    ensures forall f :: f in r <==> Some(f) in xs
    ensures |xs| > 0 && xs[|xs| - 1].Some? ==> |r| > 0 && r[|r| - 1] == xs[|xs| - 1].value
  {
    if |xs| == 0 then []
    else (if xs[0].Some? then [xs[0].value] else []) + Compact(xs[1..])
  }

  /** array_filter keeps the order of the entries: compacting two lists one
      after the other is compacting each and concatenating. */
  lemma {:induction false} CompactConcat(xs: seq<Option<Field>>, ys: seq<Option<Field>>)
    ensures Compact(xs + ys) == Compact(xs) + Compact(ys)
    decreases |xs|
  {
    if |xs| > 0 {
      assert (xs + ys)[1..] == xs[1..] + ys;
      CompactConcat(xs[1..], ys);
    } else {
      assert xs + ys == ys;
    }
  }

  /** The IP allow-list and country allow-list fields, both required. */
  function IpField(methodId: string): Field {
    TextField(MethodKey(methodId, IpSuffix), true)
  }

  function CountryField(methodId: string): Field {
    TextField(MethodKey(methodId, CountrySuffix), true)
  }

  /** The label field every payment method shows. */
  function LabelField(methodId: string): Field {
    TextField(MethodKey(methodId, LabelSuffix), false)
  }

  /** The manual-capture checkbox the credit-card method shows. */
  const CaptureCheckbox := CheckboxField("GINGER", "CREDITCARD_CAPTURE_MANUAL")

  /** One of the four fields a payment method's page can show. */
  predicate MethodField(methodId: string, f: Field) {
    f == IpField(methodId) || f == CountryField(methodId) || f == CaptureCheckbox || f == LabelField(methodId)
  }

  /** The field list of getPaymentMethodsFields before filtering: a slot for
      the IP list, the country list and the capture checkbox, each null when
      it does not apply, then the label field. */
  function FieldSlots(m: Module): (slots: seq<Option<Field>>)
    ensures |slots| == 4 && slots[3] == Some(LabelField(m.methodId))
  {
    [ if m.caps.ipValidation then Some(IpField(m.methodId)) else None,
      if m.caps.countryValidation then Some(CountryField(m.methodId)) else None,
      if m.methodId == "credit-card" then Some(CaptureCheckbox) else None,
      Some(LabelField(m.methodId)) ]
  }

  /** getPaymentMethodsFields (which fields, not how they are labelled): the
      filtered slots, which always end with the label field. */
  function PaymentMethodFields(m: Module): (fields: seq<Field>)
    ensures |fields| >= 1 && fields[|fields| - 1] == LabelField(m.methodId)
    ensures forall f :: f in fields <==> Some(f) in FieldSlots(m)
  {
    Compact(FieldSlots(m))
  }

  /** The page shows the IP list field iff the module supports IP
      validation, the country list field iff it supports country validation,
      the capture checkbox iff it is credit-card, and nothing but these and
      the label field. */
  lemma PaymentMethodFieldsSelection(m: Module)
    ensures IpField(m.methodId) in PaymentMethodFields(m) <==> m.caps.ipValidation
    ensures CountryField(m.methodId) in PaymentMethodFields(m) <==> m.caps.countryValidation
    ensures CaptureCheckbox in PaymentMethodFields(m) <==> m.methodId == "credit-card"
    ensures forall f :: f in PaymentMethodFields(m) ==> MethodField(m.methodId, f)
  {
  }
}
