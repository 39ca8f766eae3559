/** The links the fragment hands to other apps: the PayPal donation URI, the
    `bitcoin:` URI, and the HTML page that hosts the Flattr button. */
module DonationLinks {
  import opened Common
  import opened DonationsArguments

  /** One `name=value` pair of a URI query, before percent-encoding. */
  datatype QueryParam = QueryParam(name: string, value: string)

  /** A hierarchical URI as android.net.Uri.Builder assembles it. */
  datatype HierarchicalUri = HierarchicalUri(scheme: string, authority: string, path: string, query: seq<QueryParam>)

  /** Uri.Builder.appendQueryParameter: the pair goes after those already
      there, and a repeated name is kept rather than replaced. */
  function AppendQueryParameter(u: HierarchicalUri, name: string, value: string): (r: HierarchicalUri)
    ensures r.scheme == u.scheme && r.authority == u.authority && r.path == u.path
    ensures |r.query| == |u.query| + 1 && r.query[..|u.query|] == u.query
    ensures r.query[|u.query|] == QueryParam(name, value)
  {
    u.(query := u.query + [QueryParam(name, value)])
  }

  /** Uri.getQueryParameter: the value of the first pair named `name`. */
  function QueryParameter(query: seq<QueryParam>, name: string): (r: Option<string>)
    ensures r.None? <==> forall i :: 0 <= i < |query| ==> query[i].name != name
    ensures r.Some? ==> exists i :: 0 <= i < |query| && query[i] == QueryParam(name, r.value)
  {
    if query == [] then None
    else if query[0].name == name then Some(query[0].value)
    else
      var r := QueryParameter(query[1..], name);
      assert forall i :: 1 <= i < |query| ==> query[i] == query[1..][i - 1];
      r
  }

  /** appendQueryParameter for each pair, in order. */
  function AppendQueryParameters(u: HierarchicalUri, ps: seq<QueryParam>): (r: HierarchicalUri)
    ensures r == u.(query := u.query + ps)
    decreases |ps|
  {
    if ps == [] then u
    else
      assert u.query + ps == (u.query + [ps[0]]) + ps[1..];
      AppendQueryParameters(AppendQueryParameter(u, ps[0].name, ps[0].value), ps[1..])
  }

  /** The query names of a PayPal donation, in the order they are appended. */
  const PaypalQueryNames: seq<string> := ["cmd", "business", "lc", "item_name", "no_note", "no_shipping", "currency_code"]

  /** donatePayPalOnClick: https://www.paypal.com/cgi-bin/webscr with the
      donation command, the receiving account, the US locale, the item name,
      no note, no shipping address and the currency. */
  function PaypalUri(data: PaypalConfig): (u: HierarchicalUri)
    ensures u.scheme == "https" && u.authority == "www.paypal.com" && u.path == "cgi-bin/webscr"
    ensures |u.query| == |PaypalQueryNames|
    ensures forall i :: 0 <= i < |u.query| ==> u.query[i].name == PaypalQueryNames[i]
  {
    AppendQueryParameters(HierarchicalUri("https", "www.paypal.com", "cgi-bin/webscr", []), [
      QueryParam("cmd", "_donations"),
      QueryParam("business", data.user),
      QueryParam("lc", "US"),
      QueryParam("item_name", data.itemName),
      QueryParam("no_note", "1"),
      QueryParam("no_shipping", "1"),
      QueryParam("currency_code", data.currencyCode)
    ])
  }

  /** Reads a PayPal donation back from a URI: None unless the URI is a
      donation command on PayPal's endpoint naming the account, the item and
      the currency. */
  function PaypalDonationOf(u: HierarchicalUri): (r: Option<PaypalConfig>)
    ensures r.Some? ==> QueryParameter(u.query, "cmd") == Some("_donations")
  {
    if u.scheme != "https" || u.authority != "www.paypal.com" || u.path != "cgi-bin/webscr"
       || QueryParameter(u.query, "cmd") != Some("_donations")
    then None
    else
      match (QueryParameter(u.query, "business"), QueryParameter(u.query, "item_name"), QueryParameter(u.query, "currency_code"))
      case (Some(user), Some(item), Some(currency)) => Some(PaypalConfig(user, currency, item))
      case _ => None
  }

  /** No name is appended twice: the names differ in length. */
  lemma PaypalNamesDistinct()
    ensures forall i, j :: 0 <= i < j < |PaypalQueryNames| ==> PaypalQueryNames[i] != PaypalQueryNames[j]
  {
    var lengths := [3, 8, 2, 9, 7, 11, 13];
    assert forall i :: 0 <= i < 7 ==> |PaypalQueryNames[i]| == lengths[i];
  }

  /** A pair is found when no pair before it has its name. */
  lemma {:induction false} FirstNamed(query: seq<QueryParam>, i: nat, name: string)
    requires i < |query| && query[i].name == name
    requires forall j :: 0 <= j < i ==> query[j].name != name
    ensures QueryParameter(query, name) == Some(query[i].value)
  {
    if i > 0 {
      FirstNamed(query[1..], i - 1, name);
    }
  }

  /** In a query whose names are distinct, each pair reads back. */
  lemma DistinctNamesReadBack(query: seq<QueryParam>, names: seq<string>)
    requires |query| == |names| && forall i :: 0 <= i < |query| ==> query[i].name == names[i]
    requires forall i, j :: 0 <= i < j < |names| ==> names[i] != names[j]
    ensures forall i :: 0 <= i < |query| ==> QueryParameter(query, names[i]) == Some(query[i].value)
  {
    forall i | 0 <= i < |query|
      ensures QueryParameter(query, names[i]) == Some(query[i].value)
    {
      FirstNamed(query, i, names[i]);
    }
  }

  /** Every parameter of the PayPal URI reads back as what was appended. */
  lemma PaypalQueryValues(data: PaypalConfig)
    ensures var q := PaypalUri(data).query;
      && QueryParameter(q, "cmd") == Some("_donations")
      && QueryParameter(q, "business") == Some(data.user)
      && QueryParameter(q, "lc") == Some("US")
      && QueryParameter(q, "item_name") == Some(data.itemName)
      && QueryParameter(q, "no_note") == Some("1")
      && QueryParameter(q, "no_shipping") == Some("1")
      && QueryParameter(q, "currency_code") == Some(data.currencyCode)
  {
    var q := PaypalUri(data).query;
    PaypalNamesDistinct();
    DistinctNamesReadBack(q, PaypalQueryNames);
    var names := PaypalQueryNames;
    assert names[0] == "cmd" && names[1] == "business" && names[2] == "lc" && names[3] == "item_name";
    assert names[4] == "no_note" && names[5] == "no_shipping" && names[6] == "currency_code";
  }

  /** The PayPal URI carries the configuration: reading the donation back
      from it gives the account, item and currency it was built from,
      whatever those strings are. */
  lemma PaypalUriRoundTrip(data: PaypalConfig)
    ensures PaypalDonationOf(PaypalUri(data)) == Some(data)
  {
    PaypalQueryValues(data);
  }

  const BitcoinScheme: string := "bitcoin:"

  /** `Uri.parse("bitcoin:$address")` */
  function BitcoinUri(address: string): (u: string)
    ensures |u| == |BitcoinScheme| + |address|
    ensures u[..|BitcoinScheme|] == BitcoinScheme && u[|BitcoinScheme|..] == address
  {
    BitcoinScheme + address
  }

  /** The position of the first ':' in `s`, or None. */
  function FirstColon(s: string): (r: Option<nat>)
    ensures r.Some? ==> r.value < |s| && s[r.value] == ':' && forall i :: 0 <= i < r.value ==> s[i] != ':'
    ensures r.None? ==> forall i :: 0 <= i < |s| ==> s[i] != ':'
  {
    if s == [] then None
    else if s[0] == ':' then Some(0)
    else match FirstColon(s[1..])
      case None => None
      case Some(k) => Some(k + 1)
  }

  /** An opaque URI split at its first ':' into scheme and scheme-specific
      part; None when there is no ':'. */
  function SplitScheme(u: string): (r: Option<(string, string)>)
    ensures r.Some? ==> u == r.value.0 + ":" + r.value.1 && ':' !in r.value.0
    ensures r.None? <==> ':' !in u
  {
    match FirstColon(u)
    case None => None
    case Some(k) =>
      assert u == u[..k] + ":" + u[k + 1..];
      Some((u[..k], u[k + 1..]))
  }

  /** The bitcoin URI parses as scheme "bitcoin" with the address as its
      scheme-specific part, for every address, colons in it included. */
  lemma BitcoinUriRoundTrip(address: string)
    ensures SplitScheme(BitcoinUri(address)) == Some(("bitcoin", address))
  {
    var u := BitcoinUri(address);
    assert u[7] == ':';
    assert forall i :: 0 <= i < 7 ==> u[i] != ':';
    assert FirstColon(u) == Some(7);
    assert u[..7] == "bitcoin";
    assert u[8..] == address;
  }

  /** Styling that makes the text white on a transparent background. */
  const HtmlStart: string := "<html> <head><style type='text/css'>*{color: #FFFFFF; background-color: transparent;}</style>"

  /** The loader of Flattr's button script. */
  const FlattrScript: string :=
    "<script type='text/javascript'>/* <![CDATA[ */(function() {var s = document.createElement('script'), t = document.getElementsByTagName('script')[0];s.type = 'text/javascript';s.async = true;s.src = 'https://api.flattr.com/js/0.6/load.js?mode=auto';t.parentNode.insertBefore(s, t);})();/* ]]> */</script>"

  const HtmlMiddle: string := "</head> <body> <div align='center'>"

  const ButtonStart: string := "<a class='FlattrButton' style='display:none;' href='"

  const NoscriptStart: string := "' target='_blank'></a> <noscript><a href='"

  const ButtonEnd: string :=
    "' target='_blank'> <img src='https://api.flattr.com/button/flattr-badge-large.png' alt='Flattr this' title='Flattr this' border='0' /></a></noscript>"

  const HtmlEnd: string := "</div> </body> </html>"

  /** The text of the Flattr URL label, also the target of the no-script link. */
  function FlattrLabel(url: string): (r: string)
    ensures |r| == 8 + |url| && r[..8] == "https://" && r[8..] == url
  {
    "https://" + url
  }

  /** The button markup: a hidden FlattrButton anchor to the project URL and
      a badge linking to the thing's page for browsers without scripts. */
  function FlattrButton(projectUrl: string, url: string): (r: string)
  {
    ButtonStart + projectUrl + NoscriptStart + FlattrLabel(url) + ButtonEnd
  }

  /** The page buildFlattrView assembles around a script loader:
      htmlStart + script + htmlMiddle + button + htmlEnd. */
  function FlattrPageWith(script: string, projectUrl: string, url: string): (r: string)
    ensures |r| == |HtmlStart| + |script| + |HtmlMiddle| + |FlattrButton(projectUrl, url)| + |HtmlEnd|
  {
    HtmlStart + script + HtmlMiddle + FlattrButton(projectUrl, url) + HtmlEnd
  }

  /** buildFlattrView's page, with Flattr's own loader. */
  function FlattrPage(projectUrl: string, url: string): string {
    FlattrPageWith(FlattrScript, projectUrl, url)
  }

  /** Where the project URL starts in the page. */
  function ProjectUrlOffset(script: string): nat {
    |HtmlStart| + |script| + |HtmlMiddle| + |ButtonStart|
  }

  /** Where the parts of a page of this shape lie: head parts `a`, `b`,
      `c`, then the button `d + x + e + y + f`, then `g`. */
  lemma {:induction false} PageParts(a: string, b: string, c: string, d: string, x: string, e: string, y: string, f: string, g: string)
    ensures var page := a + b + c + (d + x + e + y + f) + g;
      var p := |a| + |b| + |c| + |d|;
      var l := p + |x| + |e|;
      && page[..|a|] == a
      && page[|a|..|a| + |b|] == b
      && page[p..p + |x|] == x
      && page[l..l + |y|] == y
      && page[|page| - |g|..] == g
  {
    var page := a + b + c + (d + x + e + y + f) + g;
    var p := |a| + |b| + |c| + |d|;
    var l := p + |x| + |e|;
    assert forall k :: 0 <= k < |a| ==> page[k] == a[k];
    assert forall k :: 0 <= k < |b| ==> page[|a| + k] == b[k];
    assert forall k :: 0 <= k < |x| ==> page[p + k] == x[k];
    assert forall k :: 0 <= k < |y| ==> page[l + k] == y[k];
    assert forall k :: 0 <= k < |g| ==> page[|page| - |g| + k] == g[k];
  }

  /** The page opens with the styled head and the script loader, and closes
      the body at its very end; the layout does not depend on the loader's
      text, so it is stated for any script, Flattr's included. */
  lemma FlattrPageFrame(script: string, projectUrl: string, url: string)
    ensures var page := FlattrPageWith(script, projectUrl, url);
      && page[..|HtmlStart|] == HtmlStart
      && page[|HtmlStart|..|HtmlStart| + |script|] == script
      && page[|page| - |HtmlEnd|..] == HtmlEnd
  {
    PageParts(HtmlStart, script, HtmlMiddle, ButtonStart, projectUrl, NoscriptStart, FlattrLabel(url), ButtonEnd, HtmlEnd);
  }

  /** The hidden button's href is the project URL, at a fixed offset. */
  lemma FlattrButtonHref(script: string, projectUrl: string, url: string)
    ensures var page := FlattrPageWith(script, projectUrl, url);
      var p := ProjectUrlOffset(script);
      page[p..p + |projectUrl|] == projectUrl
  {
    PageParts(HtmlStart, script, HtmlMiddle, ButtonStart, projectUrl, NoscriptStart, FlattrLabel(url), ButtonEnd, HtmlEnd);
  }

  /** The no-script link follows the project URL and its closing markup,
      and is the label's text. */
  lemma FlattrNoscriptLink(script: string, projectUrl: string, url: string)
    ensures var page := FlattrPageWith(script, projectUrl, url);
      var l := ProjectUrlOffset(script) + |projectUrl| + |NoscriptStart|;
      page[l..l + |FlattrLabel(url)|] == FlattrLabel(url)
  {
    PageParts(HtmlStart, script, HtmlMiddle, ButtonStart, projectUrl, NoscriptStart, FlattrLabel(url), ButtonEnd, HtmlEnd);
  }

  /** buildFlattrView's own page: Flattr's loader in the head, the project
      URL as the button's href, and `https://` + url as the no-script link. */
  lemma FlattrPageLayout(projectUrl: string, url: string)
    ensures var page := FlattrPage(projectUrl, url);
      var p := ProjectUrlOffset(FlattrScript);
      var l := p + |projectUrl| + |NoscriptStart|;
      && page[|HtmlStart|..|HtmlStart| + |FlattrScript|] == FlattrScript
      && page[p..p + |projectUrl|] == projectUrl
      && page[l..l + |FlattrLabel(url)|] == FlattrLabel(url)
  {
    FlattrPageFrame(FlattrScript, projectUrl, url);
    FlattrButtonHref(FlattrScript, projectUrl, url);
    FlattrNoscriptLink(FlattrScript, projectUrl, url);
  }

  /** What a PayPal or bitcoin click leads to: the chooser or the handling
      app opens the URI, or, with nothing to handle it, the "no browser"
      alert. */
  datatype OpenOutcome<U> = OpenUri(uri: U) | NoBrowserAlert

  /** donatePayPalOnClick: the chooser opens when some activity resolves the
      view intent. */
  function PaypalClick(data: PaypalConfig, resolvable: bool): (o: OpenOutcome<HierarchicalUri>)
    ensures o.OpenUri? <==> resolvable
    ensures o.OpenUri? ==> PaypalDonationOf(o.uri) == Some(data)
  {
    PaypalUriRoundTrip(data);
    if resolvable then OpenUri(PaypalUri(data)) else NoBrowserAlert
  }

  /** donateBitcoinOnClick: startActivity throwing ActivityNotFoundException
      (`handled` false) ends in the alert. */
  function BitcoinClick(address: string, handled: bool): (o: OpenOutcome<string>)
    ensures o.OpenUri? <==> handled
    ensures o.OpenUri? ==> SplitScheme(o.uri) == Some(("bitcoin", address))
  {
    BitcoinUriRoundTrip(address);
    if handled then OpenUri(BitcoinUri(address)) else NoBrowserAlert
  }
}
