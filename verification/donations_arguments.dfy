/** The fragment's configuration: `newInstance` writes its parameters into an
    argument Bundle, `onCreate` reads them back into the per-method
    configuration, dereferencing with `!!` each value an enabled method
    needs. */
module DonationsArguments {
  import opened Common
  import opened Catalog

  const ArgDebug: string := "debug"
  const ArgGoogleEnabled: string := "googleEnabled"
  const ArgGooglePubkey: string := "googlePubkey"
  const ArgGoogleCatalog: string := "googleCatalog"
  const ArgGoogleCatalogValues: string := "googleCatalogValues"
  const ArgPaypalEnabled: string := "paypalEnabled"
  const ArgPaypalUser: string := "paypalUser"
  const ArgPaypalCurrencyCode: string := "paypalCurrencyCode"
  const ArgPaypalItemName: string := "mPaypalItemName"
  const ArgFlattrEnabled: string := "flattrEnabled"
  const ArgFlattrProjectUrl: string := "flattrProjectUrl"
  const ArgFlattrUrl: string := "flattrUrl"
  const ArgBitcoinEnabled: string := "bitcoinEnabled"
  const ArgBitcoinAddress: string := "bitcoinAddress"

  /** The keys newInstance writes, in the order it writes them. */
  const ArgKeys: seq<string> := [
    ArgDebug, ArgGoogleEnabled, ArgGooglePubkey, ArgGoogleCatalog, ArgGoogleCatalogValues,
    ArgPaypalEnabled, ArgPaypalUser, ArgPaypalCurrencyCode, ArgPaypalItemName,
    ArgFlattrEnabled, ArgFlattrProjectUrl, ArgFlattrUrl,
    ArgBitcoinEnabled, ArgBitcoinAddress]

  /** No key is written twice: the keys differ in length, or else in one
      character. */
  lemma ArgKeysDistinct()
    ensures forall i, j :: 0 <= i < j < |ArgKeys| ==> ArgKeys[i] != ArgKeys[j]
  {
    var lengths := [5, 13, 12, 13, 19, 13, 10, 18, 15, 13, 16, 9, 14, 14];
    assert forall i :: 0 <= i < |ArgKeys| ==> |ArgKeys[i]| == lengths[i];
    assert ArgGoogleEnabled[6] != ArgGoogleCatalog[6];
    assert ArgGoogleEnabled[0] != ArgPaypalEnabled[0] && ArgGoogleEnabled[0] != ArgFlattrEnabled[0];
    assert ArgGoogleCatalog[0] != ArgPaypalEnabled[0] && ArgGoogleCatalog[0] != ArgFlattrEnabled[0];
    assert ArgPaypalEnabled[0] != ArgFlattrEnabled[0];
    assert ArgBitcoinEnabled[7] != ArgBitcoinAddress[7];
  }

  /** A Bundle entry; strings and string arrays may be null. */
  datatype BundleValue =
    | BoolValue(b: bool)
    | StringValue(s: Option<string>)
    | StringArrayValue(a: Option<seq<string>>)

  type Bundle = map<string, BundleValue>

  /** Bundle.getBoolean: false for a missing key or a value of another type. */
  function GetBoolean(b: Bundle, key: string): (r: bool)
    ensures r <==> key in b && b[key] == BoolValue(true)
  {
    if key in b && b[key].BoolValue? then b[key].b else false
  }

  /** Bundle.getString: null for a missing key or a value of another type. */
  function GetString(b: Bundle, key: string): (r: Option<string>)
    ensures r.Some? ==> key in b && b[key] == StringValue(r)
    ensures key in b && b[key].StringValue? ==> r == b[key].s
  {
    if key in b && b[key].StringValue? then b[key].s else None
  }

  /** Bundle.getStringArray: null for a missing key or a value of another type. */
  function GetStringArray(b: Bundle, key: string): (r: Option<seq<string>>)
    ensures r.Some? ==> key in b && b[key] == StringArrayValue(r)
    ensures key in b && b[key].StringArrayValue? ==> r == b[key].a
  {
    if key in b && b[key].StringArrayValue? then b[key].a else None
  }

  /** The parameters of `newInstance`, nullable ones as Option. */
  datatype Arguments = Arguments(
    debug: bool,
    googleEnabled: bool, googlePubkey: Option<string>,
    googleCatalog: Option<seq<string>>, googleCatalogValues: Option<seq<string>>,
    paypalEnabled: bool, paypalUser: Option<string>,
    paypalCurrencyCode: Option<string>, paypalItemName: Option<string>,
    flattrEnabled: bool, flattrProjectUrl: Option<string>, flattrUrl: Option<string>,
    bitcoinEnabled: bool, bitcoinAddress: Option<string>)

  /** Bundle.putX for each entry in turn. */
  function PutAll(b: Bundle, entries: seq<(string, BundleValue)>): (r: Bundle)
    decreases |entries|
  {
    if entries == [] then b else PutAll(b[entries[0].0 := entries[0].1], entries[1..])
  }

  /** After putting entries with distinct keys, each key holds its entry. */
  lemma {:induction false} PutAllReadBack(b: Bundle, entries: seq<(string, BundleValue)>, i: nat)
    requires i < |entries|
    requires forall j, k :: 0 <= j < k < |entries| ==> entries[j].0 != entries[k].0
    ensures entries[i].0 in PutAll(b, entries) && PutAll(b, entries)[entries[i].0] == entries[i].1
    decreases |entries|
  {
    if i == 0 {
      PutAllKeeps(b[entries[0].0 := entries[0].1], entries[1..], entries[0].0);
    } else {
      PutAllReadBack(b[entries[0].0 := entries[0].1], entries[1..], i - 1);
    }
  }

  /** A key no entry writes keeps its value. */
  lemma {:induction false} PutAllKeeps(b: Bundle, entries: seq<(string, BundleValue)>, key: string)
    requires key in b && forall j :: 0 <= j < |entries| ==> entries[j].0 != key
    ensures key in PutAll(b, entries) && PutAll(b, entries)[key] == b[key]
    decreases |entries|
  {
    if entries != [] {
      PutAllKeeps(b[entries[0].0 := entries[0].1], entries[1..], key);
    }
  }

  /** The entries newInstance writes, in its order. */
  function Entries(a: Arguments): (r: seq<(string, BundleValue)>)
    ensures |r| == |ArgKeys| && forall i :: 0 <= i < |r| ==> r[i].0 == ArgKeys[i]
  {
    [
      (ArgDebug, BoolValue(a.debug)),
      (ArgGoogleEnabled, BoolValue(a.googleEnabled)),
      (ArgGooglePubkey, StringValue(a.googlePubkey)),
      (ArgGoogleCatalog, StringArrayValue(a.googleCatalog)),
      (ArgGoogleCatalogValues, StringArrayValue(a.googleCatalogValues)),
      (ArgPaypalEnabled, BoolValue(a.paypalEnabled)),
      (ArgPaypalUser, StringValue(a.paypalUser)),
      (ArgPaypalCurrencyCode, StringValue(a.paypalCurrencyCode)),
      (ArgPaypalItemName, StringValue(a.paypalItemName)),
      (ArgFlattrEnabled, BoolValue(a.flattrEnabled)),
      (ArgFlattrProjectUrl, StringValue(a.flattrProjectUrl)),
      (ArgFlattrUrl, StringValue(a.flattrUrl)),
      (ArgBitcoinEnabled, BoolValue(a.bitcoinEnabled)),
      (ArgBitcoinAddress, StringValue(a.bitcoinAddress))
    ]
  }

  /** newInstance: a fresh Bundle with every parameter put under its own
      key; since no key is written twice, each one holds its parameter. */
  function NewInstance(a: Arguments): (b: Bundle)
    ensures forall i :: 0 <= i < |ArgKeys| ==> ArgKeys[i] in b && b[ArgKeys[i]] == Entries(a)[i].1
  {
    var entries := Entries(a);
    ArgKeysDistinct();
    var b := PutAll(map[], entries);
    forall i | 0 <= i < |ArgKeys|
      ensures ArgKeys[i] in b && b[ArgKeys[i]] == entries[i].1
    {
      PutAllReadBack(map[], entries, i);
    }
    b
  }

  /** Every parameter reads back from the Bundle under its own key, with the
      getter of its type. */
  lemma NewInstanceReadBack(a: Arguments)
    ensures var b := NewInstance(a);
      && GetBoolean(b, ArgDebug) == a.debug
      && GetBoolean(b, ArgGoogleEnabled) == a.googleEnabled
      && GetString(b, ArgGooglePubkey) == a.googlePubkey
      && GetStringArray(b, ArgGoogleCatalog) == a.googleCatalog
      && GetStringArray(b, ArgGoogleCatalogValues) == a.googleCatalogValues
      && GetBoolean(b, ArgPaypalEnabled) == a.paypalEnabled
      && GetString(b, ArgPaypalUser) == a.paypalUser
      && GetString(b, ArgPaypalCurrencyCode) == a.paypalCurrencyCode
      && GetString(b, ArgPaypalItemName) == a.paypalItemName
      && GetBoolean(b, ArgFlattrEnabled) == a.flattrEnabled
      && GetString(b, ArgFlattrProjectUrl) == a.flattrProjectUrl
      && GetString(b, ArgFlattrUrl) == a.flattrUrl
      && GetBoolean(b, ArgBitcoinEnabled) == a.bitcoinEnabled
      && GetString(b, ArgBitcoinAddress) == a.bitcoinAddress
  {
    var b := NewInstance(a);
    var e := Entries(a);
    assert b[ArgKeys[0]] == e[0].1 && b[ArgKeys[1]] == e[1].1 && b[ArgKeys[2]] == e[2].1;
    assert b[ArgKeys[3]] == e[3].1 && b[ArgKeys[4]] == e[4].1 && b[ArgKeys[5]] == e[5].1;
    assert b[ArgKeys[6]] == e[6].1 && b[ArgKeys[7]] == e[7].1 && b[ArgKeys[8]] == e[8].1;
    assert b[ArgKeys[9]] == e[9].1 && b[ArgKeys[10]] == e[10].1 && b[ArgKeys[11]] == e[11].1;
    assert b[ArgKeys[12]] == e[12].1 && b[ArgKeys[13]] == e[13].1;
  }

  /** Pair<googlePrivateKey, Map<catalogItems, catalogValues>> */
  datatype GoogleConfig = GoogleConfig(pubkey: string, catalog: Catalog)

  /** Triple<email, currencyCode, itemName> */
  datatype PaypalConfig = PaypalConfig(user: string, currencyCode: string, itemName: string)

  /** Pair<projectUrl, url> */
  datatype FlattrConfig = FlattrConfig(projectUrl: string, url: string)

  /** The fragment's fields after onCreate; None is a null field. */
  datatype Config = Config(
    debug: bool,
    google: Option<GoogleConfig>,
    paypal: Option<PaypalConfig>,
    flattr: Option<FlattrConfig>,
    bitcoinAddress: Option<string>)

  /** What makes onCreate throw: no arguments at all, a `!!` on a null value
      (naming the key it was read from), or a catalog name without a value
      at its index. */
  datatype CreateError =
    | NullArguments
    | NullValue(key: string)
    | IndexOutOfBounds(index: nat)

  /** `getString(key)!!` */
  function RequireString(b: Bundle, key: string): (r: Result<string, CreateError>)
    ensures r.Success? <==> GetString(b, key).Some?
    ensures r.Success? ==> r.value == GetString(b, key).value
    ensures r.Failure? ==> r.error == NullValue(key)
  {
    match GetString(b, key)
    case None => Failure(NullValue(key))
    case Some(s) => Success(s)
  }

  /** `getStringArray(key)!!` */
  function RequireStringArray(b: Bundle, key: string): (r: Result<seq<string>, CreateError>)
    ensures r.Success? <==> GetStringArray(b, key).Some?
    ensures r.Success? ==> r.value == GetStringArray(b, key).value
    ensures r.Failure? ==> r.error == NullValue(key)
  {
    match GetStringArray(b, key)
    case None => Failure(NullValue(key))
    case Some(a) => Success(a)
  }

  /** The Google block of onCreate, in its order of evaluation: the values
      array, then the public key, then the names array, then the association. */
  function ReadGoogle(b: Bundle): (r: Result<Option<GoogleConfig>, CreateError>)
    ensures !GetBoolean(b, ArgGoogleEnabled) ==> r == Success(None)
    ensures GetBoolean(b, ArgGoogleEnabled) && GetStringArray(b, ArgGoogleCatalogValues).None? ==>
      r == Failure(NullValue(ArgGoogleCatalogValues))
    ensures GetBoolean(b, ArgGoogleEnabled) ==>
      (r.Success? <==>
        && GetStringArray(b, ArgGoogleCatalogValues).Some? && GetString(b, ArgGooglePubkey).Some?
        && GetStringArray(b, ArgGoogleCatalog).Some?
        && |GetStringArray(b, ArgGoogleCatalog).value| <= |GetStringArray(b, ArgGoogleCatalogValues).value|)
    ensures r.Success? && r.value.Some? ==>
      && r.value.value.pubkey == GetString(b, ArgGooglePubkey).value
      && Associate(GetStringArray(b, ArgGoogleCatalog).value, GetStringArray(b, ArgGoogleCatalogValues).value)
           == Success(r.value.value.catalog)
  {
    if !GetBoolean(b, ArgGoogleEnabled) then Success(None)
    else
      match RequireStringArray(b, ArgGoogleCatalogValues)
      case Failure(e) => Failure(e)
      case Success(values) =>
        match RequireString(b, ArgGooglePubkey)
        case Failure(e) => Failure(e)
        case Success(pubkey) =>
          match RequireStringArray(b, ArgGoogleCatalog)
          case Failure(e) => Failure(e)
          case Success(names) =>
            match Associate(names, values)
            case Failure(i) => Failure(IndexOutOfBounds(i))
            case Success(catalog) => Success(Some(GoogleConfig(pubkey, catalog)))
  }

  /** The PayPal block: user, currency code, item name, in that order. */
  function ReadPaypal(b: Bundle): (r: Result<Option<PaypalConfig>, CreateError>)
    ensures !GetBoolean(b, ArgPaypalEnabled) ==> r == Success(None)
    ensures GetBoolean(b, ArgPaypalEnabled) ==>
      (r.Success? <==>
        GetString(b, ArgPaypalUser).Some? && GetString(b, ArgPaypalCurrencyCode).Some? && GetString(b, ArgPaypalItemName).Some?)
    ensures r.Success? && r.value.Some? ==>
      r.value.value == PaypalConfig(GetString(b, ArgPaypalUser).value, GetString(b, ArgPaypalCurrencyCode).value, GetString(b, ArgPaypalItemName).value)
  {
    if !GetBoolean(b, ArgPaypalEnabled) then Success(None)
    else
      match RequireString(b, ArgPaypalUser)
      case Failure(e) => Failure(e)
      case Success(user) =>
        match RequireString(b, ArgPaypalCurrencyCode)
        case Failure(e) => Failure(e)
        case Success(currency) =>
          match RequireString(b, ArgPaypalItemName)
          case Failure(e) => Failure(e)
          case Success(item) => Success(Some(PaypalConfig(user, currency, item)))
  }

  /** The Flattr block: project URL, then URL. */
  function ReadFlattr(b: Bundle): (r: Result<Option<FlattrConfig>, CreateError>)
    ensures !GetBoolean(b, ArgFlattrEnabled) ==> r == Success(None)
    ensures GetBoolean(b, ArgFlattrEnabled) ==>
      (r.Success? <==> GetString(b, ArgFlattrProjectUrl).Some? && GetString(b, ArgFlattrUrl).Some?)
    ensures r.Success? && r.value.Some? ==>
      r.value.value == FlattrConfig(GetString(b, ArgFlattrProjectUrl).value, GetString(b, ArgFlattrUrl).value)
  {
    if !GetBoolean(b, ArgFlattrEnabled) then Success(None)
    else
      match RequireString(b, ArgFlattrProjectUrl)
      case Failure(e) => Failure(e)
      case Success(projectUrl) =>
        match RequireString(b, ArgFlattrUrl)
        case Failure(e) => Failure(e)
        case Success(url) => Success(Some(FlattrConfig(projectUrl, url)))
  }

  /** onCreate: the sections are read in the order Google, PayPal, Flattr,
      bitcoin, and the first exception ends it. The bitcoin address is read
      without `!!`, so an enabled but null address leaves the field null. */
  function OnCreate(arguments: Option<Bundle>): (r: Result<Config, CreateError>)
    ensures arguments.None? ==> r == Failure(NullArguments)
    ensures r.Success? ==> arguments.Some?
    ensures r.Success? ==> var b := arguments.value;
      && r.value.debug == GetBoolean(b, ArgDebug)
      && (r.value.google.Some? <==> GetBoolean(b, ArgGoogleEnabled))
      && (r.value.paypal.Some? <==> GetBoolean(b, ArgPaypalEnabled))
      && (r.value.flattr.Some? <==> GetBoolean(b, ArgFlattrEnabled))
      && r.value.bitcoinAddress == (if GetBoolean(b, ArgBitcoinEnabled) then GetString(b, ArgBitcoinAddress) else None)
    ensures r.Failure? && r.error.NullValue? ==> arguments.Some? && var b := arguments.value;
      || (GetBoolean(b, ArgGoogleEnabled) && r.error.key in {ArgGoogleCatalogValues, ArgGooglePubkey, ArgGoogleCatalog})
      || (GetBoolean(b, ArgPaypalEnabled) && r.error.key in {ArgPaypalUser, ArgPaypalCurrencyCode, ArgPaypalItemName})
      || (GetBoolean(b, ArgFlattrEnabled) && r.error.key in {ArgFlattrProjectUrl, ArgFlattrUrl})
  {
    match arguments
    case None => Failure(NullArguments)
    case Some(b) =>
      match ReadGoogle(b)
      case Failure(e) => Failure(e)
      case Success(google) =>
        match ReadPaypal(b)
        case Failure(e) => Failure(e)
        case Success(paypal) =>
          match ReadFlattr(b)
          case Failure(e) => Failure(e)
          case Success(flattr) =>
            var bitcoin := if GetBoolean(b, ArgBitcoinEnabled) then GetString(b, ArgBitcoinAddress) else None;
            Success(Config(GetBoolean(b, ArgDebug), google, paypal, flattr, bitcoin))
  }

  /** The values each enabled method needs are all non-null, and the catalog
      has a value for every name. */
  predicate Complete(a: Arguments) {
    && (a.googleEnabled ==>
          && a.googlePubkey.Some? && a.googleCatalog.Some? && a.googleCatalogValues.Some?
          && |a.googleCatalog.value| <= |a.googleCatalogValues.value|)
    && (a.paypalEnabled ==> a.paypalUser.Some? && a.paypalCurrencyCode.Some? && a.paypalItemName.Some?)
    && (a.flattrEnabled ==> a.flattrProjectUrl.Some? && a.flattrUrl.Some?)
  }

  /** The argument round trip: onCreate accepts what newInstance wrote exactly
      when the arguments are complete, and then reads back every parameter;
      each method is configured exactly when it was enabled. */
  lemma ArgumentsRoundTrip(a: Arguments)
    ensures var r := OnCreate(Some(NewInstance(a)));
      && (r.Success? <==> Complete(a))
      && (r.Success? ==>
            && r.value.debug == a.debug
            && (r.value.google.Some? <==> a.googleEnabled)
            && (a.googleEnabled ==>
                  && r.value.google.value.pubkey == a.googlePubkey.value
                  && Associate(a.googleCatalog.value, a.googleCatalogValues.value) == Success(r.value.google.value.catalog))
            && (r.value.paypal.Some? <==> a.paypalEnabled)
            && (a.paypalEnabled ==>
                  r.value.paypal.value == PaypalConfig(a.paypalUser.value, a.paypalCurrencyCode.value, a.paypalItemName.value))
            && (r.value.flattr.Some? <==> a.flattrEnabled)
            && (a.flattrEnabled ==> r.value.flattr.value == FlattrConfig(a.flattrProjectUrl.value, a.flattrUrl.value))
            && r.value.bitcoinAddress == (if a.bitcoinEnabled then a.bitcoinAddress else None))
  {
    var b := NewInstance(a);
    NewInstanceReadBack(a);
    assert ReadGoogle(b).Success? <==> (a.googleEnabled ==>
          && a.googlePubkey.Some? && a.googleCatalog.Some? && a.googleCatalogValues.Some?
          && |a.googleCatalog.value| <= |a.googleCatalogValues.value|);
  }

  /** The first missing value is the one reported: with Google enabled and
      its values array null, onCreate fails there, whatever else is missing. */
  lemma MissingValuesReportedFirst(a: Arguments)
    requires a.googleEnabled && a.googleCatalogValues.None?
    ensures OnCreate(Some(NewInstance(a))) == Failure(NullValue(ArgGoogleCatalogValues))
  {
    NewInstanceReadBack(a);
  }
}
