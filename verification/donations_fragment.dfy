/** The Google donate button of the fragment and the dialogs its listener
    opens: which product id a click pays for, and which alert follows a
    click or a listener call. */
module DonationsFragment {
  import opened Common
  import opened Billing
  import opened Catalog
  import IabHelper

  /** The static test ids of the Play Billing sandbox, offered in debug mode. */
  const CatalogDebug: seq<string> := [
    "android.test.purchased",
    "android.test.canceled",
    "android.test.refunded",
    "android.test.item_unavailable",
    "android.test.this_does_not_exist"
  ]

  /** The spinner's items: the test ids in debug mode, otherwise the values
      of the catalog map, in the map's order. */
  function SpinnerItems(debug: bool, catalog: Catalog): (items: seq<string>)
    ensures debug ==> |items| == 5 && forall i :: 0 <= i < 5 ==> "android.test." <= items[i]
    ensures !debug ==> |items| == |catalog| && forall i :: 0 <= i < |catalog| ==> items[i] == catalog[i].value
  {
    if debug then CatalogDebug else Values(catalog)
  }

  /** An index the selection cannot use: an ArrayIndexOutOfBoundsException
      on the test ids or an IndexOutOfBoundsException on the list. Neither is
      caught by the click handler. */
  datatype ClickError = IndexOutOfBounds(index: int)

  /** `CATALOG_DEBUG[index]` or `catalogItems[index]`, as donateGoogleOnClick
      picks the product id; the click handler passes the map's values as
      `catalogItems`. */
  function SelectProductIdAsWritten(debug: bool, catalog: Catalog, index: int): (r: Result<string, ClickError>)
    ensures r.Failure? <==> !(0 <= index < |SpinnerItems(debug, catalog)|)
    ensures r.Success? ==> r.value == SpinnerItems(debug, catalog)[index]
  {
    var catalogItems := Values(catalog);
    if debug then
      if 0 <= index < |CatalogDebug| then Success(CatalogDebug[index]) else Failure(IndexOutOfBounds(index))
    else
      if 0 <= index < |catalogItems| then Success(catalogItems[index]) else Failure(IndexOutOfBounds(index))
  }

  /** With the selection as written, a click pays for the spinner's label,
      which is the catalog VALUE, not the item name the catalog maps to it:
      a catalog that sends "donation.1" to "1 EUR" buys "1 EUR". */
  lemma AsWrittenBuysTheLabel()
    ensures var catalog := [Entry("donation.1", "1 EUR")];
      && SelectProductIdAsWritten(false, catalog, 0) == Success("1 EUR")
      && "1 EUR" !in Keys(catalog)
  {
    var catalog := [Entry("donation.1", "1 EUR")];
    assert Keys(catalog) == ["donation.1"];
  }

  /** The corrected selection, the one the catalog is for: the item name
      whose value the spinner shows at `index` (in debug mode the test id
      itself). The click handler as written does not use it; see
      `GoogleClickIntended`. */
  function SelectProductId(debug: bool, catalog: Catalog, index: int): (r: Result<string, ClickError>)
    ensures r.Failure? <==> !(0 <= index < |SpinnerItems(debug, catalog)|)
    ensures r.Failure? ==> r.error == IndexOutOfBounds(index)
    ensures r.Success? ==> r.value == (if debug then CatalogDebug[index] else Keys(catalog)[index])
  {
    var catalogItems := Keys(catalog);
    if debug then
      if 0 <= index < |CatalogDebug| then Success(CatalogDebug[index]) else Failure(IndexOutOfBounds(index))
    else
      if 0 <= index < |catalogItems| then Success(catalogItems[index]) else Failure(IndexOutOfBounds(index))
  }

  /** The product paid for is the one the spinner shows: in debug mode the
      test id at the selected position, whatever the catalog; otherwise the
      catalog item whose value is the selected label. */
  lemma SelectionMatchesSpinner(debug: bool, catalog: Catalog, index: int)
    requires DistinctKeys(catalog) && 0 <= index < |SpinnerItems(debug, catalog)|
    ensures SelectProductId(debug, catalog, index).Success?
    ensures debug ==> SelectProductId(debug, catalog, index).value == SpinnerItems(debug, catalog)[index]
    ensures !debug ==> Lookup(catalog, SelectProductId(debug, catalog, index).value) == Some(SpinnerItems(debug, catalog)[index])
  {
    if !debug {
      LookupAt(catalog, index);
    }
  }

  /** In debug mode the catalog plays no part in the selection. */
  lemma DebugIgnoresCatalog(c1: Catalog, c2: Catalog, index: int)
    ensures SelectProductId(true, c1, index) == SelectProductId(true, c2, index)
    ensures SelectProductId(true, c1, index).Success? ==> "android.test." <= SelectProductId(true, c1, index).value
  {
  }

  datatype Icon = AlertIcon | InfoIcon

  /** The string resources the dialogs show. */
  datatype Text =
    | NotSupportedTitle | NotSupportedMessage
    | ThanksTitle | ThanksMessage
    | AlertTitle | NoBrowserMessage

  datatype Dialog = Dialog(icon: Icon, title: Text, message: Text)

  const NotSupportedDialog: Dialog := Dialog(AlertIcon, NotSupportedTitle, NotSupportedMessage)
  const ThanksDialog: Dialog := Dialog(InfoIcon, ThanksTitle, ThanksMessage)
  const NoBrowserDialog: Dialog := Dialog(AlertIcon, AlertTitle, NoBrowserMessage)

  /** The fragment's GoogleIABListener: a failure opens the "not supported"
      alert, a success the thanks dialog, each only while the fragment is
      attached to its activity (otherwise only a log line). */
  function ListenerDialog(call: IabHelper.Output, attached: bool): (d: Option<Dialog>)
    requires call.IsListenerCall()
    ensures d.Some? <==> attached
    ensures d.Some? ==> (d.value.icon == InfoIcon <==> call.DonationSuccess?)
  {
    if !attached then None
    else if call.DonationFailed? then Some(NotSupportedDialog)
    else Some(ThanksDialog)
  }

  /** What a click on the Google donate button leads to. */
  datatype ClickOutcome =
    | Crash(error: ClickError)
    | ShowDialog(dialog: Dialog)
    | Pay(productId: string)

  /** The click handler as written: the product id is selected from the
      map's values (an index error escapes the handler), then makePayment
      runs; an IllegalStateException from setting up billing
      (`billingThrows`) is caught and shown as the "not supported" alert. */
  function GoogleClick(debug: bool, catalog: Catalog, index: int, billingThrows: bool): (o: ClickOutcome)
    ensures o.Crash? <==> !(0 <= index < |SpinnerItems(debug, catalog)|)
    ensures o.Crash? ==> o.error == IndexOutOfBounds(index)
    ensures o.ShowDialog? <==> 0 <= index < |SpinnerItems(debug, catalog)| && billingThrows
    ensures o.ShowDialog? ==> o.dialog == NotSupportedDialog
    ensures o.Pay? ==> o.productId == SpinnerItems(debug, catalog)[index]
  {
    match SelectProductIdAsWritten(debug, catalog, index)
    case Failure(e) => Crash(e)
    case Success(productId) =>
      if billingThrows then ShowDialog(NotSupportedDialog) else Pay(productId)
  }

  /** The click handler with the corrected selection: the same outcomes,
      but a payment is for the catalog item the spinner shows. */
  function GoogleClickIntended(debug: bool, catalog: Catalog, index: int, billingThrows: bool): (o: ClickOutcome)
    ensures o.Crash? <==> GoogleClick(debug, catalog, index, billingThrows).Crash?
    ensures o.ShowDialog? <==> GoogleClick(debug, catalog, index, billingThrows).ShowDialog?
    ensures o.Pay? ==> o.productId == SelectProductId(debug, catalog, index).value
  {
    match SelectProductId(debug, catalog, index)
    case Failure(e) => Crash(e)
    case Success(productId) =>
      if billingThrows then ShowDialog(NotSupportedDialog) else Pay(productId)
  }

  /** The corrected click pays for the item whose value is the label the
      spinner shows; the click as written pays for the label itself. */
  lemma IntendedClickBuysShownItem(debug: bool, catalog: Catalog, index: int)
    requires DistinctKeys(catalog) && 0 <= index < |SpinnerItems(debug, catalog)|
    ensures GoogleClickIntended(debug, catalog, index, false).Pay?
    ensures var shown := SpinnerItems(debug, catalog)[index];
      var id := GoogleClickIntended(debug, catalog, index, false).productId;
      && GoogleClick(debug, catalog, index, false) == Pay(shown)
      && (debug ==> id == shown)
      && (!debug ==> Lookup(catalog, id) == Some(shown))
  {
    SelectionMatchesSpinner(debug, catalog, index);
  }

  /** Both ways the Google method can fail to the user — billing setup
      throwing on click and a donationFailed call — end in the same alert,
      and it is never the thanks dialog. */
  lemma FailuresShowSameAlert(debug: bool, catalog: Catalog, index: int)
    requires 0 <= index < |SpinnerItems(debug, catalog)|
    ensures GoogleClick(debug, catalog, index, true) == ShowDialog(ListenerDialog(IabHelper.DonationFailed, true).value)
    ensures ListenerDialog(IabHelper.DonationFailed, true) != ListenerDialog(IabHelper.DonationSuccess("x"), true)
  {
  }

  /** A click that pays hands its product id, as written the spinner's
      label, to the helper: connected, the helper queries exactly that id,
      as an in-app item; disconnected, it starts a connection whose setup
      will run the payment. */
  lemma ClickStartsPayment(s: IabHelper.State, debug: bool, catalog: Catalog, index: int)
    requires GoogleClick(debug, catalog, index, false).Pay?
    ensures var pid := GoogleClick(debug, catalog, index, false).productId;
      var t := IabHelper.Step(s, IabHelper.MakePayment(pid));
      && pid == SpinnerItems(debug, catalog)[index]
      && (s.connected ==> t.outputs == [IabHelper.QuerySkuDetails(s.nextId, [pid], InApp)])
      && (!s.connected ==>
            && t.outputs == [IabHelper.StartConnection(s.nextId)]
            && t.state.conns[s.nextId] == IabHelper.Attempt(IabHelper.MakePaymentInternal(pid), IabHelper.MaxRetry))
  {
  }
}
