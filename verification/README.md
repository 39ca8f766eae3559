# Donations library: Google in-app billing helper and donations fragment

This project models the core of the Android *Donations* library. The core
has two parts.

- `GoogleIABHelper` connects to the Play Billing service, retrying a failed
  setup, and runs a donation: it queries the product, launches the billing
  flow, and consumes the purchase that comes back. It tells a
  `GoogleIABListener` whether the donation failed or succeeded.
- `DonationsFragment` stores its configuration in an argument `Bundle` and
  reads it back in `onCreate`. It associates the Google catalog's item names
  with their values and picks the product id a click pays for. It also
  builds the PayPal donation URI, the `bitcoin:` URI and the HTML page of the
  Flattr button, and maps listener calls and failures to alert dialogs.

The helper is a pure state machine: `IabHelper.Step(state, event)` returns
the next state and the outputs of that event.

- **Deferred work.** Each closure the helper hands to the billing service is
  a `Callback` value. Examples are the body of `makePayment`, the SKU query,
  the launch of the billing flow, and the consume of one purchase.
- **Pending requests.** Each request the service still owes an answer to is
  an entry in a pending map of the state. Its key is a fresh id taken from
  `nextId`.
- **Answers.** The service's answers are `Event`s that carry that id.
- **Outputs.** The helper's requests to the service are outputs, and so are
  the retries it posts on its handler and its listener calls. The uncaught
  exception on a purchase-token mismatch is the output `Fatal`.

Files:

| file | contents |
|---|---|
| `common.dfy` | `Option` and `Result` |
| `billing.dfy` | the Play Billing types the helper uses; `OK` is response code 0 |
| `iab_helper.dfy` | the helper: `ensureConnected`, `connect` and its setup listener, `makePayment`/`makePaymentInternal`, `onPurchasesUpdated`, and `Step` |
| `iab_helper_properties.dfy` | properties of single events and of event sequences |
| `retry_chain.dfy` | a connection chain in which every setup fails: retry counts, delays, attempts |
| `catalog.dfy` | an insertion-ordered map (`LinkedHashMap`) and `associateBy` over the catalog arrays |
| `donations_arguments.dfy` | `newInstance` writes the `Bundle` and `onCreate` reads it back |
| `donations_fragment.dfy` | the spinner items, product-id selection, the Google click, and the listener dialogs |
| `donation_links.dfy` | the PayPal URI, the bitcoin URI and the Flattr page |

Behaviour the model follows because the code does it:

- `ensureConnected` called several times while disconnected starts one
  connection per call. There is no queue of waiting callbacks and no shared
  in-flight connection.
- The retry delay is `10000 / retry` ms, integer division. It grows as the
  retries run out: 500 ms with all 20 retries left, and 10000 ms for the
  last retry.
- On a successful setup the callback runs before `connected` is set. A
  payment callback therefore sees the helper disconnected and starts a
  second connection for its SKU query.
- The bitcoin address is read with `getString` and no `!!`. An enabled but
  missing address leaves the field null instead of failing.

## Model

Paths are relative to the repository root. `H` rows cite
`Donations/src/main/java/org/sufficientlysecure/donations/util/GoogleIABHelper.kt`
and `F` rows cite
`Donations/src/main/java/org/sufficientlysecure/donations/DonationsFragment.kt`,
both written out in full.

| member | source | states |
|---|---|---|
| IabHelper.RetryDelay | Donations/src/main/java/org/sufficientlysecure/donations/util/GoogleIABHelper.kt:97 | The delay before a retry never exceeds 10000 ms. Within the default budget of 20 it is never below 500 ms. |
| IabHelper.Connect | Donations/src/main/java/org/sufficientlysecure/donations/util/GoogleIABHelper.kt:67-69 | `connect` registers one setup listener under a fresh id. The listener holds the callback and the retries left. The flag and the other pending requests are unchanged. |
| IabHelper.EnsureConnected | Donations/src/main/java/org/sufficientlysecure/donations/util/GoogleIABHelper.kt:15-20 | Connected: the callback runs at once. Disconnected: exactly one new connection carries the callback with 20 retries, and nothing else changes. |
| IabHelper.Invoke | Donations/src/main/java/org/sufficientlysecure/donations/util/GoogleIABHelper.kt:106-136 | Every deferred callback sends exactly one billing request and never calls the listener. It starts a connection only for a payment made while disconnected. |
| IabHelper.PostRetry | Donations/src/main/java/org/sufficientlysecure/donations/util/GoogleIABHelper.kt:94-97 | A failed setup with retries left clears the flag. It posts a retry with one retry fewer after `10000/retry` ms, and its callback does not run. |
| IabHelper.GiveUp | Donations/src/main/java/org/sufficientlysecure/donations/util/GoogleIABHelper.kt:98-100 | A failed setup with no retries left still runs its callback, which sends one request, and leaves the flag cleared. |
| IabHelper.OnSetupFinished | Donations/src/main/java/org/sufficientlysecure/donations/util/GoogleIABHelper.kt:89-102 | The flag ends up set exactly when the setup code is OK. On OK the callback runs in the state before the flag is set. Failures retry or give up. No listener is called. |
| IabHelper.OnSkuDetails | Donations/src/main/java/org/sufficientlysecure/donations/util/GoogleIABHelper.kt:117-134 | The output is one `donationFailed` exactly when the code is not OK or the list is not a single item. Otherwise the single item is launched after `ensureConnected`. |
| IabHelper.OnConsumed | Donations/src/main/java/org/sufficientlysecure/donations/util/GoogleIABHelper.kt:50-61 | A different echoed token is fatal. Otherwise the code decides between failure and success, and success names the purchase's SKU. |
| IabHelper.PurchasedRecordsCount | Donations/src/main/java/org/sufficientlysecure/donations/util/GoogleIABHelper.kt:42-45 | The loop acts on every PURCHASED record as often as it occurs, duplicates included, and on no other record. |
| IabHelper.PurchasedRecordsAppend | Donations/src/main/java/org/sufficientlysecure/donations/util/GoogleIABHelper.kt:42-45 | The loop visits the records in list order: the records acted on for `a + b` are those of `a` followed by those of `b`. |
| IabHelper.ConsumeOne | Donations/src/main/java/org/sufficientlysecure/donations/util/GoogleIABHelper.kt:44-50 | A skipped record changes nothing. A purchased record gets one consume keyed by its own token (connected), or one connection whose callback consumes it (disconnected). |
| IabHelper.ConsumeAll | Donations/src/main/java/org/sufficientlysecure/donations/util/GoogleIABHelper.kt:42-63 | One billing request per purchased record, each under a fresh id. The flag and the timers are unchanged. |
| IabHelper.ConsumeAllExtends | Donations/src/main/java/org/sufficientlysecure/donations/util/GoogleIABHelper.kt:42-63 | The loop only adds requests. Every request already pending stays pending and unchanged. |
| IabHelper.OnPurchasesUpdated | Donations/src/main/java/org/sufficientlysecure/donations/util/GoogleIABHelper.kt:38-65 | A failed update or a null list gives one `donationFailed` and no state change. Otherwise there is one request per purchased record and no listener call. |
| IabHelper.Step | Donations/src/main/java/org/sufficientlysecure/donations/util/GoogleIABHelper.kt:50-60 | Every event keeps the state's invariant. A `donationSuccess` comes only from the OK answer to a pending consume whose echoed token is the purchase's own, and names that purchase's SKU. `Fatal` comes only from a token mismatch. |
| IabHelperProperties.InitialIsValid | Donations/src/main/java/org/sufficientlysecure/donations/util/GoogleIABHelper.kt:11-13 | A new helper is disconnected, has nothing pending, and satisfies the invariant. |
| IabHelperProperties.ClickWhileDisconnected | Donations/src/main/java/org/sufficientlysecure/donations/util/GoogleIABHelper.kt:106-108 | `makePayment` on a disconnected helper starts exactly one connection carrying the payment, and changes nothing else. |
| IabHelperProperties.EveryDisconnectedPaymentConnects | Donations/src/main/java/org/sufficientlysecure/donations/util/GoogleIABHelper.kt:15-17 | n payments while disconnected start n connections under consecutive ids. The i-th connection carries the i-th payment's product id. |
| IabHelperProperties.ClicksWhileDisconnected | Donations/src/main/java/org/sufficientlysecure/donations/util/GoogleIABHelper.kt:15-17 | Payments while disconnected only add connection listeners, one each, and keep the invariant. |
| IabHelperProperties.SetupCallbackSeesDisconnected | Donations/src/main/java/org/sufficientlysecure/donations/util/GoogleIABHelper.kt:89-93 | A successful setup of a payment's connection starts a second connection for the SKU query, and only then sets the flag. |
| IabHelperProperties.DisconnectDoesNotReconnect | Donations/src/main/java/org/sufficientlysecure/donations/util/GoogleIABHelper.kt:78-82 | A disconnect only clears the flag: no reconnect and no listener call. The next payment connects again. |
| IabHelperProperties.ConsumeAllPerPurchase | Donations/src/main/java/org/sufficientlysecure/donations/util/GoogleIABHelper.kt:42-62 | The k-th output is the request for the k-th purchased record, under id `nextId + k`. It is a consume by that record's token when connected, or a connection whose callback consumes that record when disconnected. |
| IabHelperProperties.SkippedRecordDoesNothing | Donations/src/main/java/org/sufficientlysecure/donations/util/GoogleIABHelper.kt:44-45 | A record that is not PURCHASED changes neither the state nor the outputs. |
| IabHelperProperties.PurchasesUpdateWithoutRecords | Donations/src/main/java/org/sufficientlysecure/donations/util/GoogleIABHelper.kt:39-40 | A null list, or any non-OK code, gives exactly one failure and no state change. An OK empty list gives nothing. |
| IabHelperProperties.SuccessOnlyAfterMatchingConsume | Donations/src/main/java/org/sufficientlysecure/donations/util/GoogleIABHelper.kt:50-60 | A success output comes only from an OK consume answer whose echoed token matches the pending purchase, and it names that purchase's SKU. |
| IabHelperProperties.TokenMismatchIsFatal | Donations/src/main/java/org/sufficientlysecure/donations/util/GoogleIABHelper.kt:52-53 | A consume answer with a foreign token is fatal, whatever its code. |
| IabHelperProperties.DonationSucceeds | Donations/src/main/java/org/sufficientlysecure/donations/util/GoogleIABHelper.kt:106-131 | The whole happy path on a connected helper: query exactly the product id as an in-app SKU, launch the single item, consume the purchase by its token, and report success naming the product. |
| IabHelperProperties.ConnectedClickQueries | Donations/src/main/java/org/sufficientlysecure/donations/util/GoogleIABHelper.kt:110-117 | A payment on a connected helper queries exactly its product id, as an in-app SKU, under a fresh id. |
| IabHelperProperties.OneItemLaunches | Donations/src/main/java/org/sufficientlysecure/donations/util/GoogleIABHelper.kt:122-131 | An OK answer with one item launches the billing flow for that item. |
| IabHelperProperties.ConnectedUpdateConsumes | Donations/src/main/java/org/sufficientlysecure/donations/util/GoogleIABHelper.kt:42-60 | One purchased record is consumed by its token, and the matching answer reports success. |
| IabHelperProperties.AmbiguousQueryFails | Donations/src/main/java/org/sufficientlysecure/donations/util/GoogleIABHelper.kt:119-124 | An OK answer with zero or several items, or with no list, reports one failure and launches nothing. |
| RetryChain.FailedRound | Donations/src/main/java/org/sufficientlysecure/donations/util/GoogleIABHelper.kt:96-97 | A failed setup with retries left posts a retry. When the retry falls due, it registers a new listener with one retry fewer and the same callback. |
| RetryChain.FailEveryAttempt | Donations/src/main/java/org/sufficientlysecure/donations/util/GoogleIABHelper.kt:94-100 | If every setup fails, a chain starting with `r` retries makes `r + 1` attempts and posts `r` retries. The retries carry counts `r-1 … 0` and delays `10000/r … 10000/1`. The chain emits `2r + 1` outputs and ends disconnected. |
| RetryChain.FailingChainShape | Donations/src/main/java/org/sufficientlysecure/donations/util/GoogleIABHelper.kt:94-100 | Until the callback finally runs, a failing chain only posts retries and starts connections. The callback's own request is the last output. |
| RetryChain.ChainFollowsSteps | Donations/src/main/java/org/sufficientlysecure/donations/util/GoogleIABHelper.kt:89-101 | Each round of the chain is the helper's own `Step` on the failed setup, followed by its `Step` on the retry timer. |
| RetryChain.ScheduleIsMonotone | Donations/src/main/java/org/sufficientlysecure/donations/util/GoogleIABHelper.kt:97 | Along a chain the retry counts strictly decrease and the delays never shrink. |
| RetryChain.DefaultChainBound | Donations/src/main/java/org/sufficientlysecure/donations/util/GoogleIABHelper.kt:67-101 | A chain with the default budget makes 21 setup attempts and posts 20 retries, from 500 ms up to 10000 ms, before its callback runs anyway. |
| Catalog.PutSpec | Donations/src/main/java/org/sufficientlysecure/donations/DonationsFragment.kt:89-90 | A map put keeps keys distinct and stores the new value under its key. Other keys keep their values. A new key is appended at the end and an existing key keeps its position. |
| Catalog.Associate | Donations/src/main/java/org/sufficientlysecure/donations/DonationsFragment.kt:87-90 | The association fails exactly when there are more names than values. The failure reports the first index past the values. |
| Catalog.AssociateLookup | Donations/src/main/java/org/sufficientlysecure/donations/DonationsFragment.kt:89-90 | The keys are exactly the names, each once. A name maps to the value at the index of its last occurrence. |
| Catalog.AssociatePositional | Donations/src/main/java/org/sufficientlysecure/donations/DonationsFragment.kt:89-90 | With distinct names, the keys are the names in order and the values are the first `|names|` values in order. |
| DonationsArguments.ArgKeysDistinct | Donations/src/main/java/org/sufficientlysecure/donations/DonationsFragment.kt:397-414 | The 14 argument keys are pairwise distinct, so no put overwrites another. |
| DonationsArguments.NewInstance | Donations/src/main/java/org/sufficientlysecure/donations/DonationsFragment.kt:441-469 | After the 14 puts in order, every key holds its own parameter. |
| DonationsArguments.NewInstanceReadBack | Donations/src/main/java/org/sufficientlysecure/donations/DonationsFragment.kt:448-465 | Each parameter reads back under its own key with the getter of its type. |
| DonationsArguments.RequireString | Donations/src/main/java/org/sufficientlysecure/donations/DonationsFragment.kt:94-96 | `getString(key)!!` fails, naming the key, exactly when the Bundle has no string there. |
| DonationsArguments.ReadGoogle | Donations/src/main/java/org/sufficientlysecure/donations/DonationsFragment.kt:86-91 | A disabled section gives no configuration. An enabled one succeeds exactly when the values array, the public key and the names array are all present and every name has a value. A missing values array is reported first. On success the section holds the public key and the map `associateBy` builds from the names and values. |
| DonationsArguments.ReadPaypal | Donations/src/main/java/org/sufficientlysecure/donations/DonationsFragment.kt:93-96 | A disabled section gives no configuration. An enabled one succeeds exactly when user, currency code and item name are all present, and then holds those three. |
| DonationsArguments.ReadFlattr | Donations/src/main/java/org/sufficientlysecure/donations/DonationsFragment.kt:98-100 | A disabled section gives no configuration. An enabled one succeeds exactly when both URLs are present, and then holds them. |
| DonationsArguments.OnCreate | Donations/src/main/java/org/sufficientlysecure/donations/DonationsFragment.kt:80-104 | Null arguments fail. On success each method is configured exactly when its flag is set, and the bitcoin address is the stored one. A null-value failure names a key of an enabled section. |
| DonationsArguments.ArgumentsRoundTrip | Donations/src/main/java/org/sufficientlysecure/donations/DonationsFragment.kt:80-104 | `onCreate(newInstance(a))` succeeds exactly when every enabled method has its values and the catalog has a value for every name. It then reads back every parameter. |
| DonationsArguments.MissingValuesReportedFirst | Donations/src/main/java/org/sufficientlysecure/donations/DonationsFragment.kt:86-87 | With Google enabled and no values array, `onCreate` fails on that key first, whatever else is missing. |
| DonationsFragment.SpinnerItems | Donations/src/main/java/org/sufficientlysecure/donations/DonationsFragment.kt:129-135 | In debug mode the spinner shows the five `android.test.` ids. Otherwise it shows the catalog's values in map order. |
| DonationsFragment.SelectProductIdAsWritten | Donations/src/main/java/org/sufficientlysecure/donations/DonationsFragment.kt:203-216 | As written, the click pays for the spinner's item at the selected index. Out of range it fails. |
| DonationsFragment.AsWrittenBuysTheLabel | Donations/src/main/java/org/sufficientlysecure/donations/DonationsFragment.kt:143 | As written, the catalog `donation.1 → 1 EUR` makes the click buy `"1 EUR"`, which is not an item name. |
| DonationsFragment.SelectProductId | Donations/src/main/java/org/sufficientlysecure/donations/DonationsFragment.kt:211-216 | The corrected selection of the finding below, not the one line 143 makes: it takes the catalog's keys instead of its values. It fails exactly for an index outside the spinner, reporting that index; otherwise it gives the debug test id or the item name at that index. |
| DonationsFragment.SelectionMatchesSpinner | Donations/src/main/java/org/sufficientlysecure/donations/DonationsFragment.kt:129-143 | The product paid for is the one the spinner shows. In debug mode it is the test id. Otherwise it is the item name whose catalog value is the selected label. |
| DonationsFragment.DebugIgnoresCatalog | Donations/src/main/java/org/sufficientlysecure/donations/DonationsFragment.kt:211-213 | In debug mode the catalog plays no part, and the id is an `android.test.` id. |
| DonationsFragment.ListenerDialog | Donations/src/main/java/org/sufficientlysecure/donations/DonationsFragment.kt:57-77 | A dialog opens exactly when the fragment is attached. It is the info dialog exactly for a success. |
| DonationsFragment.GoogleClick | Donations/src/main/java/org/sufficientlysecure/donations/DonationsFragment.kt:141-151 | The handler as written. A bad index escapes it. A billing `IllegalStateException` shows the not-supported alert. Otherwise the click pays for the spinner's label at the selected index, which is a catalog value. |
| DonationsFragment.GoogleClickIntended | Donations/src/main/java/org/sufficientlysecure/donations/DonationsFragment.kt:141-151 | The same handler with the corrected selection. It crashes and shows the alert in exactly the same cases as the handler as written, and otherwise pays for the corrected selection. |
| DonationsFragment.IntendedClickBuysShownItem | Donations/src/main/java/org/sufficientlysecure/donations/DonationsFragment.kt:129-151 | The handler as written pays for the label shown. The corrected one pays for the item whose catalog value is that label, or for the debug test id shown. |
| DonationsFragment.FailuresShowSameAlert | Donations/src/main/java/org/sufficientlysecure/donations/DonationsFragment.kt:141-151 | A billing setup that throws and a `donationFailed` call show the same alert, which is not the thanks dialog. |
| DonationsFragment.ClickStartsPayment | Donations/src/main/java/org/sufficientlysecure/donations/DonationsFragment.kt:211-216 | The id the handler as written hands to the helper is the spinner's label. Connected, the helper queries exactly that id. Disconnected, it starts a connection whose listener carries the payment. |
| DonationLinks.PaypalUri | Donations/src/main/java/org/sufficientlysecure/donations/DonationsFragment.kt:223-236 | The URI is `https://www.paypal.com/cgi-bin/webscr`, with the seven query names in the order they are appended. |
| DonationLinks.PaypalQueryValues | Donations/src/main/java/org/sufficientlysecure/donations/DonationsFragment.kt:226-235 | Each of the seven query parameters reads back as the value appended under its name. |
| DonationLinks.PaypalUriRoundTrip | Donations/src/main/java/org/sufficientlysecure/donations/DonationsFragment.kt:223-236 | Reading a PayPal donation back from the URI gives exactly the account, item name and currency it was built from. |
| DonationLinks.BitcoinUri | Donations/src/main/java/org/sufficientlysecure/donations/DonationsFragment.kt:260 | The URI is `bitcoin:` followed by the address. |
| DonationLinks.BitcoinUriRoundTrip | Donations/src/main/java/org/sufficientlysecure/donations/DonationsFragment.kt:258-260 | Split at its first colon, the URI gives the scheme `bitcoin` and the address. This holds for every address, including one that contains colons. |
| DonationLinks.FlattrPageFrame | Donations/src/main/java/org/sufficientlysecure/donations/DonationsFragment.kt:356-377 | The page starts with the styled head followed by the script loader, and ends with the closing body. |
| DonationLinks.FlattrButtonHref | Donations/src/main/java/org/sufficientlysecure/donations/DonationsFragment.kt:370-371 | The hidden button's href is the project URL, at a fixed offset. |
| DonationLinks.FlattrNoscriptLink | Donations/src/main/java/org/sufficientlysecure/donations/DonationsFragment.kt:360-373 | After the project URL and the anchor's closing markup comes the no-script link. It is the label's text, `https://` followed by the URL. |
| DonationLinks.FlattrPageLayout | Donations/src/main/java/org/sufficientlysecure/donations/DonationsFragment.kt:356-377 | Flattr's own page holds Flattr's loader in its head, the project URL as the button's href, and `https://` followed by the URL as the no-script link. |
| DonationLinks.PaypalClick | Donations/src/main/java/org/sufficientlysecure/donations/DonationsFragment.kt:241-252 | The chooser opens exactly when some activity resolves the intent, and on a URI that reads back as the configuration. Otherwise the no-browser alert shows. |
| DonationLinks.BitcoinClick | Donations/src/main/java/org/sufficientlysecure/donations/DonationsFragment.kt:258-269 | The URI opens exactly when an activity handles it, and the URI parses back to the address. Otherwise the no-browser alert shows. |

## Left out

- Views are not modelled: the layout inflation, the spinner adapter itself, `openDialog`'s builder, and the long-click copy of the bitcoin address to the clipboard.
- The WebView client of the Flattr view is not modelled: link redirection, `onLoadResource`, `onPageFinished` and the touch listener.
- Logging is not modelled, because it has no effect on behaviour.
- The clock is not modelled. `Handler.postDelayed` is the `ScheduleRetry` output and its `RetryDue` event. The delay is recorded, but the order in which timers fire is chosen by the caller of `Step`.
- Threads are not modelled. All callbacks are assumed to arrive one at a time on the main looper.
- The internals of the Play Billing Library are left out. Setup results, SKU lists and consume answers are event parameters. The library's OK response code is 0.
- The helper builds a new `BillingClient` on every `connect` and overwrites its field. The model does not tell clients apart; each request is simply sent to the billing service.
- The developer payload passed to `consumeAsync` is not modelled: it is forwarded unchanged and checked nowhere.
- After `Fatal` (the uncaught `RuntimeException`) the app has crashed. `Step` keeps running, but its later outputs mean nothing.
- `Uri.Builder` is modelled as a structured URI with an ordered list of query pairs. Percent-encoding and the rendered URI string are left out.
- `Uri.parse` of the bitcoin URI is modelled as splitting the string at its first colon.
- Whether an activity resolves the PayPal intent or handles the bitcoin intent is a parameter of the click (`resolvable` and `handled`).
- The `IllegalStateException` a billing setup can throw on a click is the `billingThrows` parameter.
- `assert(arguments != null)` does nothing, because assertions are disabled on Android. The `arguments!!` that follows is what fails, and is modelled as `NullArguments`.
- `onActivityCreated` shows each payment section exactly when its configuration is present. The model keeps only the optional configuration fields that `onCreate` produces.
- DonationLinks.FlattrPageFrame: the layout lemmas are stated for any script loader text, so that the long literal stays out of their proofs. `FlattrPageLayout` applies them to `FlattrPage`, the page with Flattr's loader.

## Findings

| source | as written | input that shows it | evidently intended | confidence | as-written member | corrected member |
|---|---|---|---|---|---|---|
| Donations/src/main/java/org/sufficientlysecure/donations/DonationsFragment.kt:143 | The click handler passes `it.second.values.toList()`, the catalog's display values, as the list of product ids to buy. | `googleCatalog = ["donation.1"]`, `googleCatalogValues = ["1 EUR"]`, debug off, spinner position 0: `makePayment("1 EUR")` | Pass the catalog's keys, which are the item names, so the product bought is the item whose value the spinner shows. | medium, not executed | DonationsFragment.AsWrittenBuysTheLabel | DonationsFragment.SelectionMatchesSpinner |
