/** One order's visit to the J&T portal in `automation/jt_booking.js`
    (`loginToJT`, `openBookingForm`, `fillBookingForm`, `fillField`,
    `submitBooking`). The browser page is an oracle: a `PageScript` says, for
    each step the script takes, what the page returns or the message of the
    error it throws. What is modelled is what the script makes of those
    answers. */
module BookingPortal {
  import opened Common
  import opened Strings
  import opened Records

  // ---------------------------------------------------------------------------
  // The page oracle
  // ---------------------------------------------------------------------------

  /** What `page.$$(selector)` gives: the number of matching elements, or an error. */
  datatype Probe = ProbeRaised(message: string) | Elements(count: nat)

  /** How the search by nearby name text ends (`page.$$('text=...')` and the
      closest-form lookup, taken as one step). */
  datatype LabelSearch = LabelFilled | LabelNotFound | LabelRaised(message: string)

  /** The page's answers while one field is filled: the probe of each selector,
      the error (if any) of `page.fill` on each selector, and the label search. */
  datatype FieldScript = FieldScript(probes: nat -> Probe, fillErrors: nat -> Option<string>, byLabel: LabelSearch)

  /** What the page shows after the booking is submitted: the text of the
      tracking element, if there is one, and the page URL. */
  datatype SubmitView = SubmitView(trackingText: Option<string>, url: string)

  /** The page's answers for one order. `login` is the URL after the login
      steps, `submit` the view after the submit click; each may be an error. */
  datatype PageScript = PageScript(
    newPageError: Option<string>,
    login: Result<string>,
    openFormError: Option<string>,
    fields: string -> FieldScript,
    submit: Result<SubmitView>,
    screenshotError: Option<string>,
    closeError: Option<string>)

  // ---------------------------------------------------------------------------
  // Login
  // ---------------------------------------------------------------------------

  const LoginFailed := "Login failed - check credentials"

  /** The error `loginToJT` throws, if any: the page's own error, or the login
      failure when the URL after logging in still contains `login`. */
  function LoginError(page: PageScript): (r: Option<string>)
    ensures page.login.Err? ==> r == Some(page.login.message)
    ensures page.login.Ok? ==> (r.Some? <==> Includes(page.login.value, "login"))
    ensures page.login.Ok? && r.Some? ==> r.value == LoginFailed
  {
    match page.login
    case Err(message) => Some(message)
    case Ok(url) => if Includes(url, "login") then Some(LoginFailed) else None
  }

  /** Any URL with `login` in it counts as a failed login, wherever it occurs. */
  lemma LoginAnywhereFails(before: string, after: string)
    ensures Includes(before + "login" + after, "login")
  {
    var url := before + "login" + after;
    assert url[|before|..|before| + 5] == "login";
    assert OccursAt(url, "login", |before|);
  }

  // ---------------------------------------------------------------------------
  // Filling fields
  // ---------------------------------------------------------------------------

  /** The selectors `fillField` tries for a name, in order. */
  function Selectors(name: string): (s: seq<string>)
    ensures |s| == 5
  {
    ["input[name=\"" + name + "\"]",
     "input[placeholder*=\"" + name + "\"]",
     "select[name=\"" + name + "\"]",
     "input[label=\"" + name + "\"]",
     "textarea[name=\"" + name + "\"]"]
  }

  /** How `fillField` ends. It never throws: an error is caught and the field
      skipped. */
  datatype FieldOutcome = FilledBySelector(selector: string) | FilledByLabel | NotFound | Skipped(error: string)

  function LabelOutcome(search: LabelSearch): FieldOutcome {
    match search
    case LabelFilled => FilledByLabel
    case LabelNotFound => NotFound
    case LabelRaised(message) => Skipped(message)
  }

  /** The outcome of `fillField` from the `k`-th selector on: the first
      selector that finds elements is filled, and the label search runs only
      when none does. */
  function SelectorSearch(script: FieldScript, name: string, k: nat): (r: FieldOutcome)
    ensures r.FilledBySelector? ==> exists j :: k <= j < 5 && r.selector == Selectors(name)[j]
    decreases 5 - k
  {
    if k >= 5 then LabelOutcome(script.byLabel)
    else match script.probes(k)
      case ProbeRaised(message) => Skipped(message)
      case Elements(count) =>
        if count > 0 then
          match script.fillErrors(k)
          case Some(message) => Skipped(message)
          case None => FilledBySelector(Selectors(name)[k])
        else SelectorSearch(script, name, k + 1)
  }

  /** When the selectors before the `k`-th find nothing, the search from the
      start is the search from the `k`-th. */
  lemma {:induction false} SearchSkipsEmptySelectors(script: FieldScript, name: string, j: nat, k: nat)
    requires j <= k <= 5
    requires forall i :: j <= i < k ==> script.probes(i) == Elements(0)
    ensures SelectorSearch(script, name, j) == SelectorSearch(script, name, k)
    decreases k - j
  {
    if j < k {
      SearchSkipsEmptySelectors(script, name, j + 1, k);
    }
  }

  /** The first selector that finds elements is the one filled. */
  lemma FirstFoundSelectorFilled(script: FieldScript, name: string, k: nat)
    requires k < 5
    requires forall i :: 0 <= i < k ==> script.probes(i) == Elements(0)
    requires script.probes(k).Elements? && script.probes(k).count > 0
    requires script.fillErrors(k).None?
    ensures SelectorSearch(script, name, 0) == FilledBySelector(Selectors(name)[k])
  {
    SearchSkipsEmptySelectors(script, name, 0, k);
  }

  /** When no selector finds anything, the label search decides. */
  lemma NoSelectorFallsBackToLabel(script: FieldScript, name: string)
    requires forall i :: 0 <= i < 5 ==> script.probes(i) == Elements(0)
    ensures SelectorSearch(script, name, 0) == LabelOutcome(script.byLabel)
  {
    SearchSkipsEmptySelectors(script, name, 0, 5);
  }

  /** `fillField(page, name, value)`. */
  method FillField(script: FieldScript, name: string) returns (outcome: FieldOutcome)
    ensures outcome == SelectorSearch(script, name, 0)
  {
    var selectors := Selectors(name);
    var k := 0;
    while k < |selectors|
      invariant 0 <= k <= 5
      invariant SelectorSearch(script, name, k) == SelectorSearch(script, name, 0)
    {
      match script.probes(k)
      case ProbeRaised(message) =>
        return Skipped(message);
      case Elements(count) =>
        if count > 0 {
          match script.fillErrors(k)
          case Some(message) =>
            return Skipped(message);
          case None =>
            return FilledBySelector(selectors[k]);
        }
      k := k + 1;
    }
    outcome := LabelOutcome(script.byLabel);
  }

  /** The sender block of the form: `CONFIG.shopInfo`. */
  datatype ShopInfo = ShopInfo(name: string, contact: string, address: string, province: string, city: string, barangay: string)

  /** A value handed to `fillField`: text, a number, or `undefined`. */
  datatype FieldValue = Text(text: string) | Number(n: int) | Undefined

  function TextValue(v: Option<string>): FieldValue {
    match v
    case Some(s) => Text(s)
    case None => Undefined
  }

  /** The fields `fillBookingForm` fills, in order, with their values. */
  function FormPlan(shop: ShopInfo, o: Order): (plan: seq<(string, FieldValue)>)
    ensures |plan| == 18
    ensures plan[13] == ("Package Size", Text(TextOr(o.packageSize, "Small")))
    ensures plan[14] == ("Item Category", Text(TextOr(o.itemCategory, "Electronics")))
    ensures forall i, j :: 0 <= i < j < |plan| ==> plan[i].0 != plan[j].0
  {
    var plan := [
      ("Sender Name", Text(shop.name)),
      ("Sender Contact", Text(shop.contact)),
      ("Sender Address", Text(shop.address)),
      ("Sender Province", Text(shop.province)),
      ("Sender City", Text(shop.city)),
      ("Sender Barangay", Text(shop.barangay)),
      ("Receiver Name", TextValue(o.customerName)),
      ("Receiver Contact", TextValue(o.contact)),
      ("Receiver Address", TextValue(o.addressDetails)),
      ("Receiver Province", TextValue(o.province)),
      ("Receiver City", TextValue(o.city)),
      ("Receiver District", TextValue(o.district)),
      ("Receiver Barangay", TextValue(o.barangay)),
      ("Package Size", Text(TextOr(o.packageSize, "Small"))),
      ("Item Category", Text(TextOr(o.itemCategory, "Electronics"))),
      ("Weight", Text("1")),
      ("Quantity", match o.quantity case Some(q) => Number(q) case None => Undefined),
      ("Payment Type", Text("Prepaid"))];
    plan
  }

  /** The sender entries carry the shop's details and the receiver entries
      the order's customer and address; the quantity is the order's. */
  lemma FormPlanValues(shop: ShopInfo, o: Order)
    ensures var plan := FormPlan(shop, o);
      plan[0].1 == Text(shop.name) && plan[1].1 == Text(shop.contact) && plan[2].1 == Text(shop.address)
      && plan[6] == ("Receiver Name", TextValue(o.customerName))
      && plan[7] == ("Receiver Contact", TextValue(o.contact))
      && plan[8] == ("Receiver Address", TextValue(o.addressDetails))
      && plan[9].1 == TextValue(o.province) && plan[10].1 == TextValue(o.city)
      && plan[11].1 == TextValue(o.district) && plan[12].1 == TextValue(o.barangay)
      && plan[16].1 == (if o.quantity.Some? then Number(o.quantity.value) else Undefined)
  {
  }

  /** One field of the booking form as it was filled. */
  datatype FieldFill = FieldFill(name: string, value: FieldValue, outcome: FieldOutcome)

  /** `fillBookingForm`: every field of the plan is tried, in order, whatever
      happened to the ones before; nothing it meets makes it fail. */
  method FillBookingForm(fields: string -> FieldScript, shop: ShopInfo, o: Order) returns (filled: seq<FieldFill>)
    ensures |filled| == |FormPlan(shop, o)|
    ensures forall i :: 0 <= i < |filled| ==>
              var step := FormPlan(shop, o)[i];
              filled[i] == FieldFill(step.0, step.1, SelectorSearch(fields(step.0), step.0, 0))
  {
    var plan := FormPlan(shop, o);
    filled := [];
    var i := 0;
    while i < |plan|
      invariant 0 <= i <= |plan|
      invariant |filled| == i
      invariant forall j :: 0 <= j < i ==>
                  filled[j] == FieldFill(plan[j].0, plan[j].1, SelectorSearch(fields(plan[j].0), plan[j].0, 0))
    {
      var outcome := FillField(fields(plan[i].0), plan[i].0);
      filled := filled + [FieldFill(plan[i].0, plan[i].1, outcome)];
      i := i + 1;
    }
  }

  // ---------------------------------------------------------------------------
  // Tracking number
  // ---------------------------------------------------------------------------

  const Placeholder := "TRACKING-PENDING"

  /** `\w`: an ASCII letter, digit or underscore. */
  predicate IsWordChar(c: char) {
    'a' <= c <= 'z' || 'A' <= c <= 'Z' || '0' <= c <= '9' || c == '_'
  }

  /** `/tracking[=\/](\w+)/i` matches at position `i` of `url`. The `i` flag
      without `u` folds only ASCII letters, as `ToLower` does. */
  predicate TrackingAt(url: string, i: nat) {
    i + 10 <= |url| && ToLower(url[i..i + 8]) == "tracking"
    && (url[i + 8] == '=' || url[i + 8] == '/') && IsWordChar(url[i + 9])
  }

  /** The longest run of word characters at the start of `s` (`\w+` is greedy). */
  function WordRun(s: string): (r: string)
    ensures |r| <= |s| && r == s[..|r|]
    ensures forall k :: 0 <= k < |r| ==> IsWordChar(r[k])
    ensures |r| == |s| || !IsWordChar(s[|r|])
    decreases |s|
  {
    if s != [] && IsWordChar(s[0]) then [s[0]] + WordRun(s[1..]) else []
  }

  /** A run of word characters followed by a non-word character (or nothing)
      is exactly what `WordRun` takes. */
  lemma {:induction false} WordRunOf(t: string, rest: string)
    requires forall k :: 0 <= k < |t| ==> IsWordChar(t[k])
    requires rest == [] || !IsWordChar(rest[0])
    ensures WordRun(t + rest) == t
    decreases |t|
  {
    if t != [] {
      assert (t + rest)[1..] == t[1..] + rest;
      WordRunOf(t[1..], rest);
      assert [t[0]] + t[1..] == t;
    } else {
      assert t + rest == rest;
    }
  }

  /** The leftmost position from `from` on where the pattern matches. */
  function FirstTrackingMatch(url: string, from: nat): (r: Option<nat>)
    ensures r.Some? ==> from <= r.value && TrackingAt(url, r.value)
    ensures forall j :: from <= j && (r.None? || j < r.value) ==> !TrackingAt(url, j)
    decreases |url| - from
  {
    if from + 10 > |url| then None
    else if TrackingAt(url, from) then Some(from)
    else FirstTrackingMatch(url, from + 1)
  }

  /** `url.match(/tracking[=\/](\w+)/i)?.[1]`: the word run after the leftmost
      `tracking=` or `tracking/`, in any letter case. */
  function UrlTracking(url: string): (r: Option<string>)
    ensures r.Some? ==> |r.value| >= 1 && forall k :: 0 <= k < |r.value| ==> IsWordChar(r.value[k])
    ensures r.None? <==> forall j :: 0 <= j ==> !TrackingAt(url, j)
    ensures forall i: nat :: TrackingAt(url, i) && (forall j :: 0 <= j < i ==> !TrackingAt(url, j)) ==>
              r == Some(WordRun(url[i + 9..]))
  {
    match FirstTrackingMatch(url, 0)
    case None => None
    case Some(i) => Some(WordRun(url[i + 9..]))
  }

  /** A URL carrying `tracking=<id>` (or `tracking/<id>`), the keyword in any
      letter case, with no earlier match yields exactly `<id>`. */
  lemma UrlTrackingFinds(prefix: string, kw: string, sep: char, id: string, rest: string)
    requires |kw| == 8 && ToLower(kw) == "tracking"
    requires sep == '=' || sep == '/'
    requires |id| >= 1 && forall k :: 0 <= k < |id| ==> IsWordChar(id[k])
    requires rest == [] || !IsWordChar(rest[0])
    requires forall j :: 0 <= j < |prefix| ==> !TrackingAt(prefix + kw + [sep] + id + rest, j)
    ensures UrlTracking(prefix + kw + [sep] + id + rest) == Some(id)
  {
    var url := prefix + kw + [sep] + id + rest;
    var i := |prefix|;
    assert url[i..i + 8] == kw;
    assert url[i + 8] == sep && url[i + 9] == id[0];
    assert TrackingAt(url, i);
    assert url[i + 9..] == id + rest;
    WordRunOf(id, rest);
  }

  /** The keyword matches in any letter case: `Tracking=` and `TRACKING/` as
      well as `tracking=`. */
  lemma TrackingKeywordCases()
    ensures ToLower("Tracking") == "tracking" && ToLower("TRACKING") == "tracking"
  {
    assert LowerChar('T') == 't';
  }

  /** `submitBooking`: the trimmed text of the tracking element; failing that,
      the tracking id in the URL; failing that, the placeholder, once the
      debugging screenshot is taken. */
  function SubmitBooking(page: PageScript): (r: Result<string>)
    ensures r.Err? ==> page.submit.Err? || page.screenshotError.Some?
    ensures page.submit.Err? ==> r == Err(page.submit.message)
    ensures page.submit.Ok? && page.submit.value.trackingText.None? && UrlTracking(page.submit.value.url).None? ==>
              r == (if page.screenshotError.Some? then Err(page.screenshotError.value) else Ok(Placeholder))
    ensures page.submit.Ok? && page.submit.value.trackingText.Some? ==>
              r == Ok(Trim(page.submit.value.trackingText.value))
    ensures page.submit.Ok? && page.submit.value.trackingText.None? && UrlTracking(page.submit.value.url).Some? ==>
              r == Ok(UrlTracking(page.submit.value.url).value)
    ensures r.Ok? && r.value == Placeholder ==>
              page.submit.Ok? && (page.submit.value.trackingText.Some? || UrlTracking(page.submit.value.url).None?)
  {
    match page.submit
    case Err(message) => Err(message)
    case Ok(view) =>
      match view.trackingText
      case Some(text) => Ok(Trim(text))
      case None =>
        match UrlTracking(view.url)
        case Some(id) =>
          assert !IsWordChar(Placeholder[8]);
          Ok(id)
        case None =>
          match page.screenshotError
          case Some(message) => Err(message)
          case None => Ok(Placeholder)
  }

  // ---------------------------------------------------------------------------
  // One order's attempt
  // ---------------------------------------------------------------------------

  /** How the booking of one order ends inside `processOrder`'s `try`. */
  datatype Attempt = Booked(trackingNumber: string) | Failed(error: string)

  /** The attempt: login, open the form, fill it (which cannot fail), submit. */
  function AttemptOutcome(page: PageScript): (a: Attempt)
    ensures a.Booked? <==> LoginError(page).None? && page.openFormError.None? && SubmitBooking(page).Ok?
    ensures a.Booked? ==> a.trackingNumber == SubmitBooking(page).value
    ensures a.Failed? ==>
              a.error == (if LoginError(page).Some? then LoginError(page).value
                          else if page.openFormError.Some? then page.openFormError.value
                          else SubmitBooking(page).message)
  {
    match LoginError(page)
    case Some(message) => Failed(message)
    case None =>
      match page.openFormError
      case Some(message) => Failed(message)
      case None =>
        match SubmitBooking(page)
        case Err(message) => Failed(message)
        case Ok(trackingNumber) => Booked(trackingNumber)
  }

  /** Nothing that happens while filling fields changes how the attempt ends. */
  lemma FieldsNeverDecide(page: PageScript, fields: string -> FieldScript)
    ensures AttemptOutcome(page.(fields := fields)) == AttemptOutcome(page)
  {
  }

  /** A booking whose tracking number cannot be found is still booked, with the
      placeholder, unless the screenshot itself fails. */
  lemma MissingTrackingStillBooked(page: PageScript)
    requires LoginError(page).None? && page.openFormError.None?
    requires page.submit.Ok? && page.submit.value.trackingText.None?
    requires UrlTracking(page.submit.value.url).None?
    requires page.screenshotError.None?
    ensures AttemptOutcome(page) == Booked(Placeholder)
  {
  }

  /** The tracking element wins over a tracking id in the URL. */
  lemma ElementBeatsUrl(page: PageScript)
    requires LoginError(page).None? && page.openFormError.None?
    requires page.submit.Ok? && page.submit.value.trackingText.Some?
    ensures AttemptOutcome(page) == Booked(Trim(page.submit.value.trackingText.value))
  {
  }
}
