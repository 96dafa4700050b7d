/** The checks GingerPlugin makes before it offers a payment method at
    checkout: the client's IP address and the invoice country against the
    allow-lists in the configuration store, and the order's currency against
    the provider's supported currencies, kept in a cache file that expires
    after six minutes and replaced by EUR alone when the lookup fails. */
module Checkout {
  import opened Base
  import opened Domain

  /** array_map('trim', explode(',', raw)): the entries of a comma-separated
      configuration value. */
  function CsvEntries(raw: string): (entries: seq<string>)
    ensures |entries| >= 1
  {
    TrimAll(Explode(raw, ','))
  }

  /** The entries of a configuration value that was written as the given
      comma-free pieces joined by commas are the trimmed pieces. */
  lemma CsvEntriesOfJoin(pieces: seq<string>)
    requires |pieces| >= 1
    requires forall i :: 0 <= i < |pieces| ==> ',' !in pieces[i]
    ensures CsvEntries(Join(pieces, ',')) == TrimAll(pieces)
  {
    ExplodeJoin(pieces, ',');
  }

  /** x is an entry of the trimmed list iff some piece trims to x. */
  lemma InTrimAll(pieces: seq<string>, x: string)
    ensures x in TrimAll(pieces) <==> exists i :: 0 <= i < |pieces| && Trim(pieces[i]) == x
  {
  }

  // ---------------------------------------------------------------- IP

  /** validateIP. client is filter_var(REMOTE_ADDR, FILTER_VALIDATE_IP),
      None when the address is not a valid IP (PHP's false). An empty list
      lets everyone through; otherwise a valid address must be one of the
      trimmed entries, and an invalid one only passes an entry PHP's loose
      comparison equates with false ("" or "0"). */
  function ValidateIP(config: Config, methodId: string, client: Option<string>): (ok: bool)
    ensures |ConfigValue(config, MethodKey(methodId, IpSuffix))| == 0 ==> ok
    ensures |ConfigValue(config, MethodKey(methodId, IpSuffix))| > 0 && client.Some? ==>
      (ok <==> client.value in CsvEntries(ConfigValue(config, MethodKey(methodId, IpSuffix))))
    ensures |ConfigValue(config, MethodKey(methodId, IpSuffix))| > 0 && client.None? ==>
      (ok <==> var entries := CsvEntries(ConfigValue(config, MethodKey(methodId, IpSuffix)));
               "" in entries || "0" in entries)
  {
    var raw := ConfigValue(config, MethodKey(methodId, IpSuffix));
    if |raw| == 0 then true
    else
      var entries := CsvEntries(raw);
      match client
      case Some(address) => address in entries
      case None => "" in entries || "0" in entries
  }

  /** With the allow-list stored as addresses joined by commas (any spacing
      around them), a valid client address is allowed iff it is one of those
      addresses once trimmed. */
  lemma ValidateIPAgainstList(config: Config, methodId: string, addresses: seq<string>, client: string)
    requires |addresses| >= 1
    requires forall i :: 0 <= i < |addresses| ==> ',' !in addresses[i]
    requires MethodKey(methodId, IpSuffix) in config
    requires config[MethodKey(methodId, IpSuffix)] == Join(addresses, ',')
    requires |Join(addresses, ',')| > 0
    ensures ValidateIP(config, methodId, Some(client)) <==> exists i :: 0 <= i < |addresses| && Trim(addresses[i]) == client
  {
    CsvEntriesOfJoin(addresses);
    InTrimAll(addresses, client);
  }

  // ----------------------------------------------------------- country

  /** validateCountry. isoCode is the invoice address's country code (the
      model takes it resolved). A falsy list ("" or "0") lets every country
      through; otherwise the upper-cased code must be one of the trimmed
      entries AND one of the method's allowedLocales. */
  function ValidateCountry(config: Config, methodId: string, isoCode: string, allowedLocales: seq<string>): (ok: bool)
    ensures !Truthy(ConfigValue(config, MethodKey(methodId, CountrySuffix))) ==> ok
    ensures Truthy(ConfigValue(config, MethodKey(methodId, CountrySuffix))) ==>
      (ok <==> Upper(isoCode) in CsvEntries(ConfigValue(config, MethodKey(methodId, CountrySuffix)))
               && Upper(isoCode) in allowedLocales)
  {
    var country := Upper(isoCode);
    var raw := ConfigValue(config, MethodKey(methodId, CountrySuffix));
    if !Truthy(raw) then true
    else if country !in CsvEntries(raw) then false
    else country in allowedLocales
  }

  /** With the country list stored as codes joined by commas, a country is
      allowed iff its upper-cased code is one of those codes once trimmed,
      and the method allows that locale. */
  lemma ValidateCountryAgainstList(config: Config, methodId: string, codes: seq<string>,
                                   isoCode: string, allowedLocales: seq<string>)
    requires |codes| >= 1
    requires forall i :: 0 <= i < |codes| ==> ',' !in codes[i]
    requires MethodKey(methodId, CountrySuffix) in config
    requires config[MethodKey(methodId, CountrySuffix)] == Join(codes, ',')
    requires Truthy(Join(codes, ','))
    ensures ValidateCountry(config, methodId, isoCode, allowedLocales) <==>
      (exists i :: 0 <= i < |codes| && Trim(codes[i]) == Upper(isoCode)) && Upper(isoCode) in allowedLocales
  {
    var raw := config[MethodKey(methodId, CountrySuffix)];
    assert ConfigValue(config, MethodKey(methodId, CountrySuffix)) == raw;
    CsvEntriesOfJoin(codes);
    InTrimAll(codes, Upper(isoCode));
  }

  // ---------------------------------------------------------- currency

  /** The fallback when the currency lookup throws. */
  const FallbackCurrency := "EUR"

  /** validateCurrency. lookup is the outcome of getAllowedCurrencyList; when
      it threw, the method is taken to accept EUR only. The currency is
      accepted iff the method has a currency list and the currency is on it. */
  function ValidateCurrency(lookup: Result<CurrencyTable>, methodId: string, selected: string): (ok: bool)
    ensures lookup.Threw? ==> (ok <==> selected == FallbackCurrency)
    ensures lookup.Ok? ==> (ok <==> methodId in lookup.value && selected in lookup.value[methodId])
  {
    var table := if lookup.Threw? then map[methodId := [FallbackCurrency]] else lookup.value;
    methodId in table && selected in table[methodId]
  }

  /** How long a cached currency list stays valid: 60 * 6 seconds. */
  const CacheTtl := 60 * 6

  /** The cache file's entry can be used at time now. */
  predicate CacheFresh(entry: Option<CacheEntry>, now: int) {
    entry.Some? && entry.value.expiredTime > now
  }

  /** One currency lookup: its outcome, the cache file's entry afterwards,
      and whether the provider was asked. */
  datatype CacheStep = CacheStep(result: Result<CurrencyTable>, entry: Option<CacheEntry>, fetched: bool)

  /** getAllowedCurrencyList at time now, where remote is what the provider's
      getCurrencyList yields. The cached list is used iff it has not yet
      expired; otherwise the provider is asked, and a successful answer is
      cached until now + 360 while a failure leaves the file as it was. */
  function CurrencyLookup(entry: Option<CacheEntry>, now: int, remote: Result<CurrencyTable>): (s: CacheStep)
    ensures !s.fetched <==> CacheFresh(entry, now)
    ensures !s.fetched ==> s.result == Ok(entry.value.currencies) && s.entry == entry
    ensures s.fetched ==> s.result == remote
    ensures s.fetched && remote.Ok? ==> s.entry == Some(CacheEntry(remote.value, now + CacheTtl))
    ensures s.fetched && remote.Threw? ==> s.entry == entry
  {
    if CacheFresh(entry, now) then CacheStep(Ok(entry.value.currencies), entry, false)
    else if remote.Ok? then CacheStep(remote, Some(CacheEntry(remote.value, now + CacheTtl)), true)
    else CacheStep(remote, entry, true)
  }

  /** A list fetched at time t is served from the cache, without asking the
      provider, at every later time before t + 360, and asked for again from
      t + 360 on. */
  lemma CachedListLastsTtl(entry: Option<CacheEntry>, t: int, remote: Result<CurrencyTable>,
                           later: int, remote2: Result<CurrencyTable>)
    requires remote.Ok? && !CacheFresh(entry, t)
    requires t <= later
    ensures var second := CurrencyLookup(CurrencyLookup(entry, t, remote).entry, later, remote2);
            (later < t + CacheTtl ==> !second.fetched && second.result == remote)
            && (later >= t + CacheTtl ==> second.fetched)
  {
  }

  /** getAllowedCurrencyList on the shop: the request to the provider, when
      made, is logged, and the cache file is rewritten after a successful one. */
  method GetAllowedCurrencyList(shop: Shop, now: int, remote: Result<CurrencyTable>) returns (r: Result<CurrencyTable>)
    modifies shop`currencyCache, shop`log
    ensures var s := CurrencyLookup(old(shop.currencyCache), now, remote);
            && r == s.result && shop.currencyCache == s.entry
            && shop.log == old(shop.log) + (if s.fetched then [Request(GetCurrencyList)] else [])
  {
    if shop.currencyCache.Some? && shop.currencyCache.value.expiredTime > now {
      return Ok(shop.currencyCache.value.currencies);
    }
    r := CacheCurrencyList(shop, now, remote);
  }

  /** cacheCurrencyList: ask the provider; if it answers, write the answer to
      the cache file with expiry now + 360. A throwing request leaves the file. */
  method CacheCurrencyList(shop: Shop, now: int, remote: Result<CurrencyTable>) returns (r: Result<CurrencyTable>)
    modifies shop`currencyCache, shop`log
    ensures r == remote
    ensures shop.log == old(shop.log) + [Request(GetCurrencyList)]
    ensures shop.currencyCache == if remote.Ok? then Some(CacheEntry(remote.value, now + CacheTtl)) else old(shop.currencyCache)
  {
    shop.log := shop.log + [Request(GetCurrencyList)];
    if remote.Threw? {
      return Threw;
    }
    shop.currencyCache := Some(CacheEntry(remote.value, now + CacheTtl));
    r := remote;
  }

  /** The loop of checkCurrency: does the module accept the cart's currency id? */
  method ModuleAcceptsCurrency(moduleCurrencies: seq<int>, currencyId: int) returns (found: bool)
    ensures found <==> currencyId in moduleCurrencies
  {
    var i := 0;
    while i < |moduleCurrencies|
      invariant 0 <= i <= |moduleCurrencies|
      invariant forall j :: 0 <= j < i ==> moduleCurrencies[j] != currencyId
    {
      if moduleCurrencies[i] == currencyId {
        return true;
      }
      i := i + 1;
    }
    return false;
  }

  /** checkCurrency: the cart's currency must be one of the module's
      currencies (none when getCurrency gives no list), and then accepted by
      validateCurrency; the provider's list is only looked up in that case. */
  method CheckCurrency(shop: Shop, methodId: string, cartCurrencyId: int, isoCode: string,
                       moduleCurrencies: Option<seq<int>>, now: int, remote: Result<CurrencyTable>)
    returns (ok: bool)
    modifies shop`currencyCache, shop`log
    ensures var matched := moduleCurrencies.Some? && cartCurrencyId in moduleCurrencies.value;
            var s := CurrencyLookup(old(shop.currencyCache), now, remote);
            && (ok <==> matched && ValidateCurrency(s.result, methodId, isoCode))
            && (matched ==> shop.currencyCache == s.entry
                            && shop.log == old(shop.log) + (if s.fetched then [Request(GetCurrencyList)] else []))
            && (!matched ==> shop.currencyCache == old(shop.currencyCache) && shop.log == old(shop.log))
  {
    if moduleCurrencies.None? {
      return false;
    }
    var found := ModuleAcceptsCurrency(moduleCurrencies.value, cartCurrencyId);
    if !found {
      return false;
    }
    var lookup := GetAllowedCurrencyList(shop, now, remote);
    ok := ValidateCurrency(lookup, methodId, isoCode);
  }
}
