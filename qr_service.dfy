/** The QR-code image links of `src/services/qrService.js`: a Google Chart URL
    whose `chl` parameter carries the percent-encoded order link. The page's
    origin (`window.location.origin`) is a parameter. */
module QrService {
  import opened Common
  import opened Strings
  import opened UriComponent

  const ChartBase := "https://chart.googleapis.com/chart"
  const ChartPrefix := ChartBase + "?chs=200x200&cht=qr&chl="

  /** The storefront link a product's QR code opens. */
  function OrderUrl(origin: string, productId: string): string {
    origin + "/order?id=" + productId
  }

  /** The Messenger deep link a product's Messenger QR code opens. */
  function MessengerUrl(productId: string): string {
    "messenger://order?product=" + productId
  }

  /** The chart image URL whose QR code encodes `payload`. */
  function ChartUrl(payload: string): (r: string)
    ensures |r| >= |ChartPrefix| && r[..|ChartPrefix|] == ChartPrefix
    ensures WellEncoded(r[|ChartPrefix|..])
  {
    var r := ChartPrefix + Encode(payload);
    assert r[|ChartPrefix|..] == Encode(payload);
    r
  }

  /** `generateQRCodeURL(productId)`. */
  function GenerateQrCodeUrl(origin: string, productId: string): string {
    ChartUrl(OrderUrl(origin, productId))
  }

  /** `generateMessengerQR(productId)`. */
  function GenerateMessengerQr(productId: string): string {
    ChartUrl(MessengerUrl(productId))
  }

  // ---------------------------------------------------------------------------
  // Reading a chart URL back, as the chart service does
  // ---------------------------------------------------------------------------

  /** The query of a URL: what follows its first `?`. */
  function QueryOf(url: string): Option<string> {
    var parts := Split(url, '?');
    if |parts| < 2 then None else Some(Join(parts[1..], '?'))
  }

  /** The raw value of the first `name=value` pair in an `&`-separated query. */
  function ParamValue(pairs: seq<string>, name: string): (r: Option<string>)
    ensures r.Some? ==> exists k :: 0 <= k < |pairs| && pairs[k] == name + "=" + r.value
    decreases |pairs|
  {
    if pairs == [] then None
    else if StartsWith(pairs[0], name + "=") then
      var v := pairs[0][|name| + 1..];
      assert pairs[0] == name + "=" + v;
      Some(v)
    else
      var r := ParamValue(pairs[1..], name);
      assert r.Some? ==> exists k :: 0 <= k < |pairs[1..]| && pairs[1..][k] == name + "=" + r.value;
      r
  }

  function QueryParam(url: string, name: string): Option<string> {
    match QueryOf(url)
    case None => None
    case Some(q) => ParamValue(Split(q, '&'), name)
  }

  /** Facts about the fixed parts of the chart URL. */
  lemma ChartLiterals()
    ensures '?' !in ChartBase
    ensures '?' !in "chs=200x200" && '?' !in "cht=qr" && '?' !in "chl="
    ensures '&' !in "chs=200x200" && '&' !in "cht=qr" && '&' !in "chl="
    ensures "chs=200x200&cht=qr&chl=" == "chs=200x200" + "&" + "cht=qr" + "&" + "chl="
  {
  }

  lemma JoinThree(a: string, b: string, c: string, sep: char)
    ensures Join([a, b, c], sep) == a + [sep] + b + [sep] + c
  {
    assert [a, b, c][1..] == [b, c];
    assert [b, c][1..] == [c];
    assert Join([c], sep) == c;
    assert Join([b, c], sep) == b + [sep] + c;
    assert a + [sep] + (b + [sep] + c) == a + [sep] + b + [sep] + c;
  }

  /** The query of the chart URL is the three pairs joined with `&`. */
  lemma ChartQueryJoin(e: string)
    ensures "chs=200x200&cht=qr&chl=" + e == Join(["chs=200x200", "cht=qr", "chl=" + e], '&')
  {
    ChartLiterals();
    JoinThree("chs=200x200", "cht=qr", "chl=" + e, '&');
    assert "chs=200x200&cht=qr&chl=" + e
        == "chs=200x200" + "&" + "cht=qr" + "&" + ("chl=" + e);
  }

  /** The query of a URL made of a `?`-free base, `?` and a `?`-free query. */
  lemma QueryOfParts(base: string, q: string)
    requires '?' !in base && '?' !in q
    ensures QueryOf(base + ['?'] + q) == Some(q)
  {
    SplitAfterPiece(base, '?', q);
    SplitNoSeparator(q, '?');
    assert Split(base + ['?'] + q, '?') == [base, q];
    assert Split(base + ['?'] + q, '?')[1..] == [q];
  }

  /** The chart URL is the base, `?`, and the query. */
  lemma ChartUrlShape(e: string)
    ensures ChartPrefix + e == ChartBase + ['?'] + ("chs=200x200&cht=qr&chl=" + e)
  {
    assert ChartPrefix == ChartBase + ['?'] + "chs=200x200&cht=qr&chl=";
  }

  /** The query splits into its three pairs when the payload has no `&`. */
  lemma ChartQuerySplit(e: string)
    requires '&' !in e
    ensures Split("chs=200x200&cht=qr&chl=" + e, '&') == ["chs=200x200", "cht=qr", "chl=" + e]
  {
    var pairs := ["chs=200x200", "cht=qr", "chl=" + e];
    ChartLiterals();
    ChartQueryJoin(e);
    assert forall k :: 0 <= k < 3 ==> '&' !in pairs[k];
    SplitJoin(pairs, '&');
  }

  /** The chart URL has exactly the three parameters `chs`, `cht` and `chl`:
      nothing in the encoded payload can start another parameter. */
  lemma ChartUrlQuery(payload: string)
    ensures QueryOf(ChartUrl(payload)) == Some("chs=200x200&cht=qr&chl=" + Encode(payload))
    ensures Split(QueryOf(ChartUrl(payload)).value, '&')
            == ["chs=200x200", "cht=qr", "chl=" + Encode(payload)]
  {
    var e := Encode(payload);
    WellEncodedAlphabet(e);
    ChartLiterals();
    var q := "chs=200x200&cht=qr&chl=" + e;
    assert '?' !in q;
    ChartUrlShape(e);
    QueryOfParts(ChartBase, q);
    ChartQuerySplit(e);
  }

  lemma ParamLookups(e: string)
    ensures ParamValue(["chs=200x200", "cht=qr", "chl=" + e], "chs") == Some("200x200")
    ensures ParamValue(["chs=200x200", "cht=qr", "chl=" + e], "cht") == Some("qr")
    ensures ParamValue(["chs=200x200", "cht=qr", "chl=" + e], "chl") == Some(e)
  {
    var pairs := ["chs=200x200", "cht=qr", "chl=" + e];
    assert StartsWith(pairs[0], "chs" + "=");
    assert pairs[0][..4][2] == 's' && ("cht" + "=")[2] == 't' && ("chl" + "=")[2] == 'l';
    assert !StartsWith(pairs[0], "cht" + "=") && !StartsWith(pairs[0], "chl" + "=");
    assert pairs[1..] == ["cht=qr", "chl=" + e];
    assert pairs[1][..4][2] == 't';
    assert StartsWith(pairs[1], "cht" + "=") && !StartsWith(pairs[1], "chl" + "=");
    assert pairs[1..][1..] == ["chl=" + e];
    assert pairs[2][..4] == "chl" + "=";
    assert pairs[2][4..] == e;
    assert ParamValue(pairs[1..][1..], "chl") == Some(e);
    assert ParamValue(pairs[1..], "chl") == Some(e);
  }

  /** The `chl` parameter of the chart URL decodes to the payload exactly. */
  lemma ChartPayloadRoundTrip(payload: string)
    ensures QueryParam(ChartUrl(payload), "chs") == Some("200x200")
    ensures QueryParam(ChartUrl(payload), "cht") == Some("qr")
    ensures QueryParam(ChartUrl(payload), "chl") == Some(Encode(payload))
    ensures Decode(Encode(payload)) == Some(payload)
  {
    ChartUrlQuery(payload);
    ParamLookups(Encode(payload));
    DecodeEncode(payload);
  }

  /** A product's QR code carries its order link, recoverable exactly. */
  lemma OrderQrCarriesOrderUrl(origin: string, productId: string)
    ensures var chl := QueryParam(GenerateQrCodeUrl(origin, productId), "chl");
            chl.Some? && Decode(chl.value) == Some(origin + "/order?id=" + productId)
  {
    ChartPayloadRoundTrip(OrderUrl(origin, productId));
  }

  /** A product's Messenger QR code carries its Messenger link, recoverable exactly. */
  lemma MessengerQrCarriesMessengerUrl(productId: string)
    ensures var chl := QueryParam(GenerateMessengerQr(productId), "chl");
            chl.Some? && Decode(chl.value) == Some("messenger://order?product=" + productId)
  {
    ChartPayloadRoundTrip(MessengerUrl(productId));
  }
}
