/** The run of `automation/jt_booking.js`: the command line, the fetch of the
    orders to book, the loop that books them one at a time into the `results`
    accumulator (`success`, `failed`, `total`), the backend updates, the
    printed summary and the callback. The backend replies, the browser and its
    pages are oracles collected in an `Env`. */
module BookingRun {
  import opened Common
  import opened Strings
  import opened Records
  import opened BookingPortal

  // ---------------------------------------------------------------------------
  // Command line
  // ---------------------------------------------------------------------------

  /** What `getArgValue` returns: `null`, `undefined` or a string. */
  datatype ArgValue = Null | Undefined | Str(value: string)

  /** `args.find(a => a.startsWith(key))`, as the index of the first match. */
  function FindArg(args: seq<string>, key: string): (r: Option<nat>)
    ensures r.Some? ==> r.value < |args| && StartsWith(args[r.value], key)
    ensures forall j :: 0 <= j < |args| && (r.None? || j < r.value) ==> !StartsWith(args[j], key)
    decreases |args|
  {
    if args == [] then None
    else if StartsWith(args[0], key) then Some(0)
    else
      var rest := FindArg(args[1..], key);
      assert forall j :: 1 <= j < |args| ==> args[1..][j - 1] == args[j];
      match rest
      case None => None
      case Some(i) => Some(i + 1)
  }

  /** `getArgValue(args, key)`: the piece after the first `=` of the first
      argument that starts with `key`; `undefined` when that argument has no
      `=`, and `null` when no argument (or only an empty one) matches. */
  function GetArgValue(args: seq<string>, key: string): (r: ArgValue)
    ensures FindArg(args, key).None? ==> r == Null
    ensures r.Str? ==> '=' !in r.value
    ensures FindArg(args, key).Some? ==>
              var a := args[FindArg(args, key).value];
              (a == "" ==> r == Null)
              && (a != "" ==> ('=' !in a <==> r.Undefined?) && ('=' in a <==> r.Str?))
              && (r.Str? ==>
                    var k := IndexOf(a, '=');
                    k + 1 + |r.value| <= |a| && a[k + 1..k + 1 + |r.value|] == r.value
                    && (k + 1 + |r.value| == |a| || a[k + 1 + |r.value|] == '='))
  {
    match FindArg(args, key)
    case None => Null
    case Some(i) =>
      var a := args[i];
      if a == "" then Null
      else
        var parts := Split(a, '=');
        if |parts| >= 2 then
          assert '=' in a by {
            if '=' !in a { SplitNoSeparator(a, '='); }
          }
          SplitAtFirst(a, '=');
          SplitHead(a[IndexOf(a, '=') + 1..], '=');
          Str(parts[1])
        else
          assert '=' !in a by {
            if '=' in a { SplitAtFirst(a, '='); }
          }
          ArgValue.Undefined
  }

  /** The first argument of the form `key=v` (or `key=v=...`) gives `v`. */
  lemma GetArgValueReads(args: seq<string>, key: string, i: nat, v: string, rest: string)
    requires '=' !in key && '=' !in v
    requires i < |args| && args[i] == key + "=" + v + rest
    requires rest == "" || rest[0] == '='
    requires forall j :: 0 <= j < i ==> !StartsWith(args[j], key)
    ensures GetArgValue(args, key) == Str(v)
  {
    assert args[i][..|key|] == key;
    assert StartsWith(args[i], key);
    assert FindArg(args, key) == Some(i);
    assert args[i] == key + ['='] + (v + rest);
    SplitAfterPiece(key, '=', v + rest);
    if rest == "" {
      assert v + rest == v;
      SplitNoSeparator(v, '=');
    } else {
      assert v + rest == v + ['='] + rest[1..];
      SplitAfterPiece(v, '=', rest[1..]);
    }
  }

  /** `a=b=c` read with key `a` gives `b`. */
  lemma GetArgValueStopsAtSecondEquals()
    ensures GetArgValue(["a=b=c"], "a") == Str("b")
  {
    GetArgValueReads(["a=b=c"], "a", 0, "b", "=c");
  }

  /** The way the script is run. */
  datatype Mode = Single(orderId: string) | Bulk | Usage

  /** `main`'s choice: a truthy `--orderId` value wins over `--bulk`; with
      neither the script prints its usage and exits with code 1. */
  function SelectMode(args: seq<string>): (m: Mode)
    ensures var v := GetArgValue(args, "--orderId");
            (m.Single? <==> v.Str? && v.value != "") && (m.Single? ==> m.orderId == v.value)
    ensures m.Bulk? <==> !m.Single? && "--bulk" in args
  {
    var orderId := GetArgValue(args, "--orderId");
    if orderId.Str? && orderId.value != "" then Single(orderId.value)
    else if "--bulk" in args then Bulk
    else Usage
  }

  /** `--orderId=<id>` books that one order, even when `--bulk` is given too. */
  lemma OrderIdBeatsBulk(id: string)
    requires id != "" && '=' !in id
    ensures SelectMode(["--orderId=" + id, "--bulk"]) == Single(id)
    ensures SelectMode(["--bulk", "--orderId=" + id]) == Single(id)
  {
    assert "--orderId=" + id == "--orderId" + "=" + id + "";
    GetArgValueReads(["--orderId=" + id, "--bulk"], "--orderId", 0, id, "");
    assert !StartsWith("--bulk", "--orderId");
    GetArgValueReads(["--bulk", "--orderId=" + id], "--orderId", 1, id, "");
  }

  /** An empty `--orderId=` is falsy, so `--bulk` decides. */
  lemma EmptyOrderIdFallsThrough()
    ensures SelectMode(["--orderId=", "--bulk"]) == Bulk
    ensures SelectMode(["--orderId="]) == Usage
  {
    assert "--orderId=" == "--orderId" + "=" + "" + "";
    GetArgValueReads(["--orderId=", "--bulk"], "--orderId", 0, "", "");
    GetArgValueReads(["--orderId="], "--orderId", 0, "", "");
  }

  // ---------------------------------------------------------------------------
  // Fetching the orders
  // ---------------------------------------------------------------------------

  /** `ordersToProcess` after the fetch, or the message of the error that ends
      the run. A single-order fetch keeps `response.data.data` even when it is
      missing; a bulk fetch reads a missing list as empty. */
  function FetchedOrders(mode: Mode, orderReply: Result<Option<Order>>, bulkReply: Result<Option<seq<Order>>>)
    : (r: Result<seq<Option<Order>>>)
    requires !mode.Usage?
    ensures mode.Single? ==> (r.Ok? <==> orderReply.Ok?) && (r.Ok? ==> r.value == [orderReply.value])
    ensures mode.Bulk? ==> (r.Ok? <==> bulkReply.Ok?)
    ensures mode.Bulk? && r.Ok? ==> |r.value| == |bulkReply.value.GetOr([])|
                                    && forall i :: 0 <= i < |r.value| ==> r.value[i] == Some(bulkReply.value.GetOr([])[i])
  {
    match mode
    case Single(_) =>
      (match orderReply
       case Err(message) => Err(message)
       case Ok(data) => Ok([data]))
    case Bulk =>
      match bulkReply
      case Err(message) => Err(message)
      case Ok(data) => Ok(Map(data.GetOr([]), (o: Order) => Some(o)))
  }

  // ---------------------------------------------------------------------------
  // The results accumulator, as a function of the orders processed
  // ---------------------------------------------------------------------------

  /** An entry of `results.success`. */
  datatype SuccessEntry = SuccessEntry(orderId: Option<string>, trackingNumber: string)

  /** An entry of `results.failed`. */
  datatype FailureEntry = FailureEntry(orderId: Option<string>, error: string)

  /** The body `updateOrderInBackend` posts. As written, its token is the
      Apps Script URL. */
  datatype UpdatePayload = UpdatePayload(orderId: Option<string>, shippingStatus: string, jntTracking: string, token: string)

  /** An order that went through `processOrder`'s `try`, and how it ended. */
  datatype Processed = Processed(orderId: Option<string>, attempt: Attempt)

  predicate IsBooked(p: Processed) { p.attempt.Booked? }

  predicate IsFailed(p: Processed) { p.attempt.Failed? }

  function TrackingOf(p: Processed): string {
    match p.attempt
    case Booked(trackingNumber) => trackingNumber
    case Failed(_) => ""
  }

  function ErrorOf(p: Processed): string {
    match p.attempt
    case Booked(_) => ""
    case Failed(error) => error
  }

  /** `results.success` after the orders `rows`: one entry per booked order, in order. */
  function Successes(rows: seq<Processed>): seq<SuccessEntry> {
    Map(Filter(rows, IsBooked), (p: Processed) => SuccessEntry(p.orderId, TrackingOf(p)))
  }

  /** `results.failed` after the orders `rows`: one entry per failed order, in order. */
  function Failures(rows: seq<Processed>): seq<FailureEntry> {
    Map(Filter(rows, IsFailed), (p: Processed) => FailureEntry(p.orderId, ErrorOf(p)))
  }

  /** The backend updates posted for the orders `rows`: one per booked order. */
  function Updates(rows: seq<Processed>, token: string): seq<UpdatePayload> {
    Map(Filter(rows, IsBooked), (p: Processed) => UpdatePayload(p.orderId, "Shipped", TrackingOf(p), token))
  }

  predicate Present(orders: seq<Option<Order>>) {
    forall i :: 0 <= i < |orders| ==> orders[i].Some?
  }

  /** The orders with how each attempt ends; order `i` is booked on page `i`. */
  function Rows(orders: seq<Option<Order>>, pages: nat -> PageScript): (rows: seq<Processed>)
    requires Present(orders)
    ensures |rows| == |orders|
    ensures forall i :: 0 <= i < |orders| ==> rows[i] == Processed(orders[i].value.orderId, AttemptOutcome(pages(i)))
  {
    seq(|orders|, i requires 0 <= i < |orders| => Processed(orders[i].value.orderId, AttemptOutcome(pages(i))))
  }

  /** Every processed order lands in exactly one of the two lists. */
  lemma ResultsPartition(rows: seq<Processed>)
    ensures |Successes(rows)| + |Failures(rows)| == |rows|
    ensures forall p :: p in rows ==> (p in Filter(rows, IsBooked) <==> p !in Filter(rows, IsFailed))
  {
    FilterPartition(rows, IsBooked, IsFailed);
  }

  /** A failed order is recorded with its id and the message of its error. */
  lemma FailureRecorded(rows: seq<Processed>, i: nat)
    requires i < |rows| && rows[i].attempt.Failed?
    ensures FailureEntry(rows[i].orderId, rows[i].attempt.error) in Failures(rows)
  {
    var f := Filter(rows, IsFailed);
    assert rows[i] in f;
    var k :| 0 <= k < |f| && f[k] == rows[i];
    assert Failures(rows)[k] == FailureEntry(rows[i].orderId, rows[i].attempt.error);
  }

  /** A booked order is recorded with its id and tracking number. */
  lemma SuccessRecorded(rows: seq<Processed>, i: nat)
    requires i < |rows| && rows[i].attempt.Booked?
    ensures SuccessEntry(rows[i].orderId, rows[i].attempt.trackingNumber) in Successes(rows)
  {
    var b := Filter(rows, IsBooked);
    assert rows[i] in b;
    var k :| 0 <= k < |b| && b[k] == rows[i];
    assert Successes(rows)[k] == SuccessEntry(rows[i].orderId, rows[i].attempt.trackingNumber);
  }

  /** A booking whose tracking number was not found is still marked
      `Shipped` in the backend, with the placeholder as its tracking number. */
  lemma PlaceholderShipped(rows: seq<Processed>, token: string, i: nat)
    requires i < |rows| && rows[i].attempt == Booked(Placeholder)
    ensures UpdatePayload(rows[i].orderId, "Shipped", Placeholder, token) in Updates(rows, token)
  {
    var b := Filter(rows, IsBooked);
    assert rows[i] in b;
    var k :| 0 <= k < |b| && b[k] == rows[i];
    assert Updates(rows, token)[k] == UpdatePayload(rows[i].orderId, "Shipped", Placeholder, token);
  }

  /** The backend updates pair one to one with the successes: same order, same
      tracking number, shipping status `Shipped`, whatever the update's own fate. */
  lemma UpdatesMatchSuccesses(rows: seq<Processed>, token: string)
    ensures |Updates(rows, token)| == |Successes(rows)|
    ensures forall k :: 0 <= k < |Successes(rows)| ==>
              Updates(rows, token)[k].orderId == Successes(rows)[k].orderId
              && Updates(rows, token)[k].jntTracking == Successes(rows)[k].trackingNumber
              && Updates(rows, token)[k].shippingStatus == "Shipped"
  {
  }

  /** Processing one more order extends each list by that order's entry, if any. */
  lemma ResultsAppend(rows: seq<Processed>, row: Processed, token: string)
    ensures Successes(rows + [row]) == Successes(rows) + Successes([row])
    ensures Failures(rows + [row]) == Failures(rows) + Failures([row])
    ensures Updates(rows + [row], token) == Updates(rows, token) + Updates([row], token)
  {
    FilterAppend(rows, row, IsBooked);
    FilterAppend(rows, row, IsFailed);
    FilterAppend([], row, IsBooked);
    FilterAppend([], row, IsFailed);
    assert [] + [row] == [row];
    MapAppend(Filter(rows, IsBooked), Filter([row], IsBooked), (p: Processed) => SuccessEntry(p.orderId, TrackingOf(p)));
    MapAppend(Filter(rows, IsFailed), Filter([row], IsFailed), (p: Processed) => FailureEntry(p.orderId, ErrorOf(p)));
    MapAppend(Filter(rows, IsBooked), Filter([row], IsBooked),
              (p: Processed) => UpdatePayload(p.orderId, "Shipped", TrackingOf(p), token));
  }

  /** The entries one processed order contributes to each list. */
  lemma OneRow(row: Processed, token: string)
    ensures row.attempt.Booked? ==>
              Successes([row]) == [SuccessEntry(row.orderId, row.attempt.trackingNumber)]
              && Failures([row]) == []
              && Updates([row], token) == [UpdatePayload(row.orderId, "Shipped", row.attempt.trackingNumber, token)]
    ensures row.attempt.Failed? ==>
              Successes([row]) == [] && Updates([row], token) == []
              && Failures([row]) == [FailureEntry(row.orderId, row.attempt.error)]
  {
    assert [row][1..] == [];
    if row.attempt.Booked? {
      assert Filter([row], IsBooked) == [row] && Filter([row], IsFailed) == [];
    } else {
      assert Filter([row], IsBooked) == [] && Filter([row], IsFailed) == [row];
    }
  }

  lemma RowsAppend(orders: seq<Option<Order>>, pages: nat -> PageScript, i: nat)
    requires i < |orders| && Present(orders[..i + 1])
    ensures Present(orders[..i])
    ensures Rows(orders[..i + 1], pages)
            == Rows(orders[..i], pages) + [Processed(orders[i].value.orderId, AttemptOutcome(pages(i)))]
  {
    assert orders[..i + 1][..i] == orders[..i];
    assert forall j :: 0 <= j < i ==> orders[..i][j] == orders[..i + 1][j];
    assert orders[..i + 1][i] == orders[i];
  }

  /** `success`, `failed` and the posted updates are those of the first `n`
      orders, processed in order. */
  ghost predicate Recorded(orders: seq<Option<Order>>, pages: nat -> PageScript, n: nat,
                           success: seq<SuccessEntry>, failed: seq<FailureEntry>,
                           updates: seq<UpdatePayload>, token: string)
  {
    n <= |orders| && Present(orders[..n])
    && var rows := Rows(orders[..n], pages);
    success == Successes(rows) && failed == Failures(rows) && updates == Updates(rows, token)
  }

  /** Processing order `n` on page `n` records the first `n + 1` orders. */
  lemma RecordedStep(orders: seq<Option<Order>>, pages: nat -> PageScript, n: nat,
                     success: seq<SuccessEntry>, failed: seq<FailureEntry>,
                     updates: seq<UpdatePayload>, token: string)
    requires Recorded(orders, pages, n, success, failed, updates, token)
    requires n < |orders| && orders[n].Some?
    ensures var row := Processed(orders[n].value.orderId, AttemptOutcome(pages(n)));
            Recorded(orders, pages, n + 1, success + Successes([row]), failed + Failures([row]),
                     updates + Updates([row], token), token)
  {
    var row := Processed(orders[n].value.orderId, AttemptOutcome(pages(n)));
    var longer := orders[..n + 1];
    assert Present(longer) by {
      forall j | 0 <= j < n + 1 ensures longer[j].Some? {
        if j < n { assert longer[j] == orders[..n][j]; }
      }
    }
    RowsAppend(orders, pages, n);
    var rows := Rows(orders[..n], pages);
    assert Rows(orders[..n + 1], pages) == rows + [row];
    ResultsAppend(rows, row, token);
  }

  /** Whatever way order `n` ends, the lists record the first `n` orders or
      the first `n + 1`; the latter whenever the order passes. */
  lemma ProcessedStep(orders: seq<Option<Order>>, pages: nat -> PageScript, n: nat,
                      success: seq<SuccessEntry>, failed: seq<FailureEntry>, updates: seq<UpdatePayload>,
                      success': seq<SuccessEntry>, failed': seq<FailureEntry>, updates': seq<UpdatePayload>,
                      token: string)
    returns (recorded: nat)
    requires Recorded(orders, pages, n, success, failed, updates, token) && n < |orders|
    requires orders[n].None? || pages(n).newPageError.Some? ==>
               success' == success && failed' == failed && updates' == updates
    requires orders[n].Some? && pages(n).newPageError.None? ==>
               var row := Processed(orders[n].value.orderId, AttemptOutcome(pages(n)));
               success' == success + Successes([row]) && failed' == failed + Failures([row])
               && updates' == updates + Updates([row], token)
    ensures recorded <= |orders| && Recorded(orders, pages, recorded, success', failed', updates', token)
    ensures recorded == if orders[n].Some? && pages(n).newPageError.None? then n + 1 else n
  {
    if orders[n].Some? && pages(n).newPageError.None? {
      RecordedStep(orders, pages, n, success, failed, updates, token);
      recorded := n + 1;
    } else {
      recorded := n;
    }
  }

  // ---------------------------------------------------------------------------
  // The printed summary
  // ---------------------------------------------------------------------------

  /** What `printSummary` prints: the total and the two counts. */
  datatype Summary = Summary(total: int, succeeded: nat, failed: nat)

  function SummaryOf(total: int, success: seq<SuccessEntry>, failed: seq<FailureEntry>): Summary {
    Summary(total, |success|, |failed|)
  }

  /** The summary as the script prints it: `printSummary` runs before
      `sendResultsToBackend` sets `results.total`, so the total is still 0. */
  function SummaryAsPrinted(rows: seq<Processed>): (s: Summary)
    ensures s.total == 0 && s.succeeded == |Successes(rows)| && s.failed == |Failures(rows)|
  {
    SummaryOf(0, Successes(rows), Failures(rows))
  }

  /** The printed total contradicts the two counts as soon as one order was
      processed. */
  lemma PrintedTotalDisagrees(rows: seq<Processed>)
    requires |rows| > 0
    ensures SummaryAsPrinted(rows).total != SummaryAsPrinted(rows).succeeded + SummaryAsPrinted(rows).failed
  {
    ResultsPartition(rows);
  }

  /** The summary with the total the callback carries: the number of orders. */
  function CorrectedSummary(rows: seq<Processed>): (s: Summary)
    ensures s.total == |rows|
    ensures s.total == s.succeeded + s.failed
  {
    ResultsPartition(rows);
    SummaryOf(|rows|, Successes(rows), Failures(rows))
  }

  // ---------------------------------------------------------------------------
  // The run
  // ---------------------------------------------------------------------------

  /** The script's configuration that reaches the model. */
  datatype Config = Config(appsScriptUrl: string, shop: ShopInfo)

  /** The body `sendResultsToBackend` posts. */
  datatype Callback = Callback(success: seq<SuccessEntry>, failed: seq<FailureEntry>, total: int, timestamp: string)

  /** Everything outside the script: the fetch replies (`response.data.data` or
      the error), the browser launch, the page of each order, the browser's
      close, and `new Date().toISOString()` at the callback. */
  datatype Env = Env(
    orderReply: Result<Option<Order>>,
    bulkReply: Result<Option<seq<Order>>>,
    launchError: Option<string>,
    pages: nat -> PageScript,
    browserCloseError: Option<string>,
    timestamp: string)

  /** The TypeError `processOrder` throws, outside its `try`, for a missing order. */
  const MissingOrderError := "Cannot read properties of undefined (reading 'OrderID')"

  /** Order `o` on page `page` does not end the run: it is there, its page
      opens and its page closes. Whether it is booked does not matter. */
  predicate Passes(o: Option<Order>, page: PageScript) {
    o.Some? && page.newPageError.None? && page.closeError.None?
  }

  predicate AllPass(orders: seq<Option<Order>>, pages: nat -> PageScript) {
    forall i :: 0 <= i < |orders| ==> Passes(orders[i], pages(i))
  }

  /** How many orders the results hold when the loop of `main` stops,
      counting from order `from`: all of them when every order passes;
      otherwise the orders before the first one that does not, plus that
      one when it was there and its page opened (its row is recorded before
      its page fails to close). */
  function RecordedAtStop(orders: seq<Option<Order>>, pages: nat -> PageScript, from: nat): (n: nat)
    requires from <= |orders|
    ensures from <= n <= |orders|
    ensures (forall j :: from <= j < |orders| ==> Passes(orders[j], pages(j))) ==> n == |orders|
    ensures forall j :: from <= j < n - 1 ==> Passes(orders[j], pages(j))
    decreases |orders| - from
  {
    if from == |orders| then from
    else if Passes(orders[from], pages(from)) then RecordedAtStop(orders, pages, from + 1)
    else if orders[from].Some? && pages(from).newPageError.None? then from + 1
    else from
  }

  lemma AllPassStep(orders: seq<Option<Order>>, pages: nat -> PageScript, i: nat)
    requires i < |orders| && AllPass(orders[..i], pages) && Passes(orders[i], pages(i))
    ensures AllPass(orders[..i + 1], pages)
  {
    assert forall j :: 0 <= j < i ==> orders[..i + 1][j] == orders[..i][j];
  }

  /** The runs that end with exit code 0. */
  predicate Finishes(args: seq<string>, env: Env) {
    var mode := SelectMode(args);
    !mode.Usage?
    && var fetched := FetchedOrders(mode, env.orderReply, env.bulkReply);
    fetched.Ok?
    && (|fetched.value| == 0
        || (env.launchError.None? && AllPass(fetched.value, env.pages) && env.browserCloseError.None?))
  }

  /** The module-level state of the script and the effects it has. */
  class BookingScript {
    const config: Config
    var ordersToProcess: seq<Option<Order>>
    var success: seq<SuccessEntry>
    var failed: seq<FailureEntry>
    var total: int
    /** The updates posted by `updateOrderInBackend`. */
    var updates: seq<UpdatePayload>
    /** What `printSummary` printed, if it ran. */
    var printed: Option<Summary>
    /** What `sendResultsToBackend` posted, if it ran. */
    var callback: Option<Callback>
    var browserLaunched: bool

    ghost predicate Initial()
      reads this
    {
      ordersToProcess == [] && success == [] && failed == [] && total == 0
      && updates == [] && printed == None && callback == None && !browserLaunched
    }

    /** The results hold exactly the first `n` orders, processed in order. */
    ghost predicate RecordedUpTo(pages: nat -> PageScript, n: nat)
      reads this
    {
      Recorded(ordersToProcess, pages, n, success, failed, updates, config.appsScriptUrl)
    }

    constructor(config: Config)
      ensures this.config == config && Initial()
    {
      this.config := config;
      ordersToProcess := [];
      success := [];
      failed := [];
      total := 0;
      updates := [];
      printed := None;
      callback := None;
      browserLaunched := false;
    }

    /** `fetchOrder` and `fetchBulkOrders`: a failure is rethrown. */
    method FetchOrders(mode: Mode, orderReply: Result<Option<Order>>, bulkReply: Result<Option<seq<Order>>>)
      returns (error: Option<string>)
      requires !mode.Usage?
      modifies this
      ensures var fetched := FetchedOrders(mode, orderReply, bulkReply);
              (error.None? <==> fetched.Ok?)
              && ordersToProcess == (if fetched.Ok? then fetched.value else old(ordersToProcess))
      ensures success == old(success) && failed == old(failed) && total == old(total) && updates == old(updates)
      ensures printed == old(printed) && callback == old(callback) && browserLaunched == old(browserLaunched)
    {
      match FetchedOrders(mode, orderReply, bulkReply)
      case Err(message) =>
        error := Some(message);
      case Ok(orders) =>
        ordersToProcess := orders;
        error := None;
    }

    /** `updateOrderInBackend`: the update is posted, and its failure only logged. */
    method UpdateOrderInBackend(orderId: Option<string>, trackingNumber: string)
      modifies this
      ensures updates == old(updates) + [UpdatePayload(orderId, "Shipped", trackingNumber, config.appsScriptUrl)]
      ensures ordersToProcess == old(ordersToProcess) && success == old(success) && failed == old(failed)
      ensures total == old(total) && printed == old(printed) && callback == old(callback)
      ensures browserLaunched == old(browserLaunched)
    {
      updates := updates + [UpdatePayload(orderId, "Shipped", trackingNumber, config.appsScriptUrl)];
    }

    /** `processOrder(browser, order)`. A missing order and a page that cannot
        be opened throw before the `try`, and a page that cannot be closed
        throws from its `finally`; each ends the run (`abort`). Anything thrown
        inside the `try` is recorded as a failure of this order only. */
    method ProcessOrder(order: Option<Order>, page: PageScript) returns (abort: Option<string>)
      modifies this
      ensures ordersToProcess == old(ordersToProcess) && total == old(total)
      ensures printed == old(printed) && callback == old(callback) && browserLaunched == old(browserLaunched)
      ensures abort.None? <==> Passes(order, page)
      ensures order.None? ==> abort == Some(MissingOrderError)
      ensures order.Some? && page.newPageError.Some? ==> abort == page.newPageError
      ensures order.None? || page.newPageError.Some? ==>
                success == old(success) && failed == old(failed) && updates == old(updates)
      ensures order.Some? && page.newPageError.None? ==>
                abort == page.closeError
                && var row := Processed(order.value.orderId, AttemptOutcome(page));
                success == old(success) + Successes([row])
                && failed == old(failed) + Failures([row])
                && updates == old(updates) + Updates([row], config.appsScriptUrl)
    {
      if order.None? {
        return Some(MissingOrderError);
      }
      var o := order.value;
      if page.newPageError.Some? {
        return page.newPageError;
      }
      var attempt: Attempt;
      var loginError := LoginError(page);
      if loginError.Some? {
        attempt := Failed(loginError.value);
      } else if page.openFormError.Some? {
        attempt := Failed(page.openFormError.value);
      } else {
        var filled := FillBookingForm(page.fields, config.shop, o);
        var submitted := SubmitBooking(page);
        match submitted
        case Err(message) =>
          attempt := Failed(message);
        case Ok(trackingNumber) =>
          UpdateOrderInBackend(o.orderId, trackingNumber);
          attempt := Booked(trackingNumber);
      }
      assert attempt == AttemptOutcome(page);
      var row := Processed(o.orderId, attempt);
      OneRow(row, config.appsScriptUrl);
      if attempt.Booked? {
        success := success + [SuccessEntry(o.orderId, attempt.trackingNumber)];
      } else {
        failed := failed + [FailureEntry(o.orderId, attempt.error)];
      }
      abort := page.closeError;
    }

    /** The `for` loop of `main`: the orders are processed one at a time, in
        order, until one of them ends the run. */
    method ProcessAll(pages: nat -> PageScript) returns (aborted: bool)
      requires RecordedUpTo(pages, 0)
      modifies this
      ensures ordersToProcess == old(ordersToProcess) && total == old(total)
      ensures printed == old(printed) && callback == old(callback) && browserLaunched == old(browserLaunched)
      ensures !aborted <==> AllPass(ordersToProcess, pages)
      ensures !aborted ==> RecordedUpTo(pages, |ordersToProcess|)
      ensures RecordedUpTo(pages, RecordedAtStop(ordersToProcess, pages, 0))
    {
      ghost var orders := ordersToProcess;
      var i := 0;
      while i < |ordersToProcess|
        invariant 0 <= i <= |ordersToProcess|
        invariant ordersToProcess == orders == old(ordersToProcess) && total == old(total)
        invariant printed == old(printed) && callback == old(callback) && browserLaunched == old(browserLaunched)
        invariant RecordedUpTo(pages, i)
        invariant AllPass(orders[..i], pages)
        invariant RecordedAtStop(orders, pages, 0) == RecordedAtStop(orders, pages, i)
      {
        var order := ordersToProcess[i];
        ghost var before := (success, failed, updates);
        var abort := ProcessOrder(order, pages(i));
        ghost var recorded := ProcessedStep(orders, pages, i, before.0, before.1, before.2,
                                            success, failed, updates, config.appsScriptUrl);
        assert RecordedUpTo(pages, recorded);
        if abort.Some? {
          assert !Passes(orders[i], pages(i));
          return true;
        }
        AllPassStep(orders, pages, i);
        i := i + 1;
      }
      assert orders[..i] == orders;
      return false;
    }

    /** `printSummary`: it prints `results.total` as it is at that moment. */
    method PrintSummary()
      modifies this
      ensures printed == Some(SummaryOf(total, success, failed))
      ensures ordersToProcess == old(ordersToProcess) && success == old(success) && failed == old(failed)
      ensures total == old(total) && updates == old(updates) && callback == old(callback)
      ensures browserLaunched == old(browserLaunched)
    {
      printed := Some(SummaryOf(total, success, failed));
    }

    /** `sendResultsToBackend`: `total` becomes the number of orders, and the
        results are posted; a failure to post is only logged. */
    method SendResultsToBackend(timestamp: string)
      modifies this
      ensures total == |ordersToProcess|
      ensures callback == Some(Callback(success, failed, total, timestamp))
      ensures ordersToProcess == old(ordersToProcess) && success == old(success) && failed == old(failed)
      ensures updates == old(updates) && printed == old(printed) && browserLaunched == old(browserLaunched)
    {
      total := |ordersToProcess|;
      callback := Some(Callback(success, failed, total, timestamp));
    }

    /** `main`. Exit code 1 for the usage message and for any error that
        reaches `main`'s `catch`; 0 otherwise, including when there is
        nothing to book. */
    method Run(args: seq<string>, env: Env) returns (exitCode: int)
      requires Initial()
      modifies this
      ensures exitCode == 0 || exitCode == 1
      ensures exitCode == 0 <==> Finishes(args, env)
      ensures SelectMode(args).Usage? ==> Initial()
      ensures !SelectMode(args).Usage? ==>
                var fetched := FetchedOrders(SelectMode(args), env.orderReply, env.bulkReply);
                ordersToProcess == (if fetched.Ok? then fetched.value else [])
      ensures browserLaunched <==> !SelectMode(args).Usage? && |ordersToProcess| > 0 && env.launchError.None?
      ensures !browserLaunched ==> RecordedUpTo(env.pages, 0)
      ensures browserLaunched ==> RecordedUpTo(env.pages, RecordedAtStop(ordersToProcess, env.pages, 0))
      ensures exitCode == 1 ==> printed == None && callback == None
      ensures exitCode == 0 && |ordersToProcess| == 0 ==> Initial()
      ensures exitCode == 0 && |ordersToProcess| > 0 ==>
                RecordedUpTo(env.pages, |ordersToProcess|)
                && total == |ordersToProcess|
                && callback == Some(Callback(success, failed, total, env.timestamp))
                && var rows := Rows(ordersToProcess[..|ordersToProcess|], env.pages);
                printed == Some(SummaryAsPrinted(rows))
                && SummaryOf(callback.value.total, callback.value.success, callback.value.failed) == CorrectedSummary(rows)
    {
      var mode := SelectMode(args);
      if mode.Usage? {
        assert RecordedUpTo(env.pages, 0);
        return 1;
      }
      var fetchError := FetchOrders(mode, env.orderReply, env.bulkReply);
      assert RecordedUpTo(env.pages, 0);
      if fetchError.Some? {
        return 1;
      }
      if |ordersToProcess| == 0 {
        return 0;
      }
      if env.launchError.Some? {
        return 1;
      }
      browserLaunched := true;
      assert RecordedUpTo(env.pages, 0);
      var aborted := ProcessAll(env.pages);
      if aborted {
        return 1;
      }
      if env.browserCloseError.Some? {
        return 1;
      }
      PrintSummary();
      SendResultsToBackend(env.timestamp);
      assert RecordedUpTo(env.pages, |ordersToProcess|);
      return 0;
    }
  }
}
