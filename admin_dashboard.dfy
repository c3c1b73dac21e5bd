/** The admin page `src/pages/AdminDashboard.jsx`: the access-token check, the
    order filter, the selection of orders, the action log, the amount of an
    order and the CSV exported. */
module AdminDashboard {
  import opened Common
  import opened Strings
  import opened Records
  import opened Api

  /** An order's `OrderID`, which the sheet may leave out. */
  type OrderKey = Option<string>

  // ---------------------------------------------------------------------------
  // Filtering
  // ---------------------------------------------------------------------------

  /** The filter bar. Each status filter is `'all'` or one status. */
  datatype Filters = Filters(paymentStatus: string, shippingStatus: string, search: string)

  const InitialFilters := Filters("all", "all", "")

  /** The filters as the query parameters `loadOrders` passes to `getOrders`. */
  function FilterParams(f: Filters): map<string, string> {
    map["paymentStatus" := f.paymentStatus, "shippingStatus" := f.shippingStatus, "search" := f.search]
  }

  /** The request `loadOrders` sends always asks for `getOrders` and carries
      every filter. */
  lemma LoadOrdersRequest(f: Filters)
    ensures OrdersParams(FilterParams(f)).Keys == {"action", "paymentStatus", "shippingStatus", "search"}
    ensures OrdersParams(FilterParams(f))["action"] == "getOrders"
    ensures OrdersParams(FilterParams(f))["search"] == f.search
  {
  }

  predicate FieldContains(field: Option<string>, term: string) {
    field.Some? && Includes(ToLower(field.value), ToLower(term))
  }

  /** `matchesSearch`: an empty search accepts every order; otherwise the term
      occurs, ignoring case, in the customer name, order id or tracking number. */
  predicate MatchesSearch(o: Order, search: string) {
    search == ""
    || FieldContains(o.customerName, search)
    || FieldContains(o.orderId, search)
    || FieldContains(o.trackingNumber, search)
  }

  /** A status filter: `'all'` accepts everything, otherwise the order's status
      must be present and equal to it. */
  predicate MatchesStatus(status: Option<string>, filter: string) {
    filter == "all" || status == Some(filter)
  }

  predicate MatchesFilters(o: Order, f: Filters) {
    MatchesSearch(o, f.search)
    && MatchesStatus(o.paymentStatus, f.paymentStatus)
    && MatchesStatus(o.shippingStatus, f.shippingStatus)
  }

  /** `filteredOrders`: the matching orders, in the order they were loaded. */
  function FilteredOrders(orders: seq<Order>, f: Filters): (r: seq<Order>)
    ensures Subsequence(r, orders)
    ensures forall o :: o in r <==> o in orders && MatchesFilters(o, f)
  {
    Filter(orders, o => MatchesFilters(o, f))
  }

  /** A matching order is shown as many times as it was loaded. */
  lemma FilteredOrdersCount(orders: seq<Order>, f: Filters, o: Order)
    ensures multiset(FilteredOrders(orders, f))[o] == if MatchesFilters(o, f) then multiset(orders)[o] else 0
  {
    FilterMultiplicity(orders, x => MatchesFilters(x, f), o);
  }

  /** The initial filters show every loaded order. */
  lemma InitialFiltersShowAll(orders: seq<Order>)
    ensures FilteredOrders(orders, InitialFilters) == orders
  {
    FilterAll(orders, o => MatchesFilters(o, InitialFilters));
  }

  /** A status filter other than `'all'` hides every order whose status differs,
      including those without a status. */
  lemma StatusFilterExact(orders: seq<Order>, f: Filters, o: Order)
    requires o in FilteredOrders(orders, f)
    ensures f.paymentStatus != "all" ==> o.paymentStatus == Some(f.paymentStatus)
    ensures f.shippingStatus != "all" ==> o.shippingStatus == Some(f.shippingStatus)
  {
  }

  // ---------------------------------------------------------------------------
  // Selection
  // ---------------------------------------------------------------------------

  /** `handleSelectOrder`: the selection with `id` added if it was absent and
      removed if it was present. */
  function Toggled(selected: set<OrderKey>, id: OrderKey): (r: set<OrderKey>)
    ensures id in r <==> id !in selected
    ensures forall x :: x != id ==> (x in r <==> x in selected)
  {
    if id in selected then selected - {id} else selected + {id}
  }

  /** Toggling the same order twice restores the selection. */
  lemma ToggleTwice(selected: set<OrderKey>, id: OrderKey)
    ensures Toggled(Toggled(selected, id), id) == selected
  {
  }

  /** The ids of the loaded orders. */
  function OrderIds(orders: seq<Order>): (ids: set<OrderKey>)
    ensures forall i :: 0 <= i < |orders| ==> orders[i].orderId in ids
    ensures forall id :: id in ids ==> exists i :: 0 <= i < |orders| && orders[i].orderId == id
  {
    set i | 0 <= i < |orders| :: orders[i].orderId
  }

  /** `handleSelectAll`. It compares only the sizes: a selection as large as
      the order list is cleared, anything else becomes every loaded id. */
  function SelectAll(selected: set<OrderKey>, orders: seq<Order>): (r: set<OrderKey>)
    ensures |selected| == |orders| ==> r == {}
    ensures |selected| != |orders| ==> r == OrderIds(orders)
  {
    if |selected| == |orders| then {} else OrderIds(orders)
  }

  predicate DistinctIds(orders: seq<Order>) {
    forall i, j :: 0 <= i < j < |orders| ==> orders[i].orderId != orders[j].orderId
  }

  /** A list without repeated elements has as many distinct elements as it
      is long. */
  lemma {:induction false} DistinctCount<T>(s: seq<T>)
    requires forall i, j :: 0 <= i < j < |s| ==> s[i] != s[j]
    ensures |set x | x in s| == |s|
    decreases |s|
  {
    if s != [] {
      var init := s[..|s| - 1];
      var last := s[|s| - 1];
      DistinctCount(init);
      assert s == init + [last];
      assert (set x | x in s) == (set x | x in init) + {last};
      assert last !in init by {
        assert forall i :: 0 <= i < |init| ==> init[i] != last;
      }
    }
  }

  /** Distinct order ids are as many as the orders. */
  lemma DistinctIdsCount(orders: seq<Order>)
    requires DistinctIds(orders)
    ensures |OrderIds(orders)| == |orders|
  {
    var keys := seq(|orders|, i requires 0 <= i < |orders| => orders[i].orderId);
    DistinctCount(keys);
    forall x | x in keys ensures x in OrderIds(orders) {
      var i :| 0 <= i < |keys| && keys[i] == x;
    }
    forall x | x in OrderIds(orders) ensures x in keys {
      var i :| 0 <= i < |orders| && orders[i].orderId == x;
      assert keys[i] == x;
    }
    assert OrderIds(orders) == set x | x in keys;
  }

  /** With distinct ids, pressing select-all on a partial selection selects
      every order, and pressing it again clears the selection. */
  lemma SelectAllTwice(selected: set<OrderKey>, orders: seq<Order>)
    requires DistinctIds(orders)
    requires |selected| != |orders|
    ensures SelectAll(selected, orders) == OrderIds(orders)
    ensures SelectAll(SelectAll(selected, orders), orders) == {}
  {
    DistinctIdsCount(orders);
  }

  /** Because only sizes are compared, a stale selection as large as the order
      list is cleared even though none of its ids is loaded. */
  lemma SelectAllComparesSizesOnly(o: Order)
    requires o.orderId == Some("A")
    ensures SelectAll({Some("B")}, [o]) == {}
    ensures Some("A") !in {Some("B")}
  {
  }

  // ---------------------------------------------------------------------------
  // Action log
  // ---------------------------------------------------------------------------

  /** How many entries the action log keeps. */
  const LogLimit := 20

  /** An entry of the action log; the timestamp is `new Date().toISOString()`. */
  datatype LogEntry = LogEntry(timestamp: string, message: string)

  /** The first `LogLimit` entries of a list (`slice(0, 20)`). */
  function Newest<T>(s: seq<T>): (r: seq<T>)
    ensures |r| == if |s| < LogLimit then |s| else LogLimit
    ensures r == s[..|r|]
  {
    if |s| <= LogLimit then s else s[..LogLimit]
  }

  /** `addLog`: the new entry first, then the previous entries in order, cut
      to the newest `LogLimit`. */
  function PushLog(logs: seq<LogEntry>, e: LogEntry): (r: seq<LogEntry>)
    ensures 1 <= |r| <= LogLimit && r[0] == e
    ensures |logs| < LogLimit ==> r[1..] == logs
    ensures |logs| >= LogLimit ==> r[1..] == logs[..LogLimit - 1]
  {
    Newest([e] + logs)
  }

  function Reverse<T>(s: seq<T>): (r: seq<T>)
    ensures |r| == |s|
    ensures forall i :: 0 <= i < |s| ==> r[i] == s[|s| - 1 - i]
  {
    if s == [] then [] else Reverse(s[1..]) + [s[0]]
  }

  /** The log after adding several entries, oldest first. */
  function PushLogs(logs: seq<LogEntry>, es: seq<LogEntry>): seq<LogEntry>
    decreases |es|
  {
    if es == [] then logs else PushLogs(PushLog(logs, es[0]), es[1..])
  }

  /** The newest entries of a list with the newest entries of another after it
      are the newest entries of the two. */
  lemma NewestAppend<T>(a: seq<T>, b: seq<T>)
    ensures Newest(a + Newest(b)) == Newest(a + b)
  {
    var x := a + Newest(b);
    var y := a + b;
    assert |Newest(x)| == |Newest(y)|;
    forall i | 0 <= i < |Newest(x)| ensures Newest(x)[i] == Newest(y)[i] {
      if i >= |a| { assert x[i] == Newest(b)[i - |a|] == b[i - |a|]; }
    }
  }

  lemma AppendAssoc<T>(a: seq<T>, x: T, b: seq<T>)
    ensures a + ([x] + b) == (a + [x]) + b
  {
  }

  /** After any number of `addLog` calls the log holds the newest entries,
      newest first, followed by the older log, cut to `LogLimit`. */
  lemma {:induction false} PushLogsNewestFirst(logs: seq<LogEntry>, es: seq<LogEntry>)
    requires |logs| <= LogLimit
    ensures PushLogs(logs, es) == Newest(Reverse(es) + logs)
    decreases |es|
  {
    if es == [] {
      assert Reverse(es) + logs == logs;
    } else {
      var e0 := es[0];
      var older := Reverse(es[1..]);
      var pushed := PushLog(logs, e0);
      assert pushed == Newest([e0] + logs);
      PushLogsNewestFirst(pushed, es[1..]);
      NewestAppend(older, [e0] + logs);
      assert Reverse(es) == older + [e0];
      AppendAssoc(older, e0, logs);
      calc {
        PushLogs(logs, es);
        PushLogs(pushed, es[1..]);
        Newest(older + Newest([e0] + logs));
        Newest(older + ([e0] + logs));
        Newest(Reverse(es) + logs);
      }
    }
  }

  // ---------------------------------------------------------------------------
  // Amount and CSV exported
  // ---------------------------------------------------------------------------

  /** `(order.Price || 0) * (order.Quantity || 1)`. */
  function Amount(o: Order): (amount: int)
    ensures o.price.None? || o.price == Some(0) ==> amount == 0
    ensures (o.quantity.None? || o.quantity == Some(0)) ==> amount == NumberOr(o.price, 0)
    ensures o.quantity.Some? && o.quantity.value != 0 && o.price.Some?
            ==> amount == o.price.value * o.quantity.value
  {
    NumberOr(o.price, 0) * NumberOr(o.quantity, 1)
  }

  /** The orders `handleDownloadCSV` exports: the loaded orders that are
      selected when there is at least one, otherwise all loaded orders. */
  function ExportedOrders(orders: seq<Order>, selected: set<OrderKey>): (r: seq<Order>)
    ensures (exists i :: 0 <= i < |orders| && orders[i].orderId in selected) ==>
              Subsequence(r, orders) && |r| > 0
              && forall o :: o in r <==> o in orders && o.orderId in selected
    ensures (forall i :: 0 <= i < |orders| ==> orders[i].orderId !in selected) ==> r == orders
  {
    var chosen := Filter(orders, (o: Order) => o.orderId in selected);
    if |chosen| > 0 then
      assert chosen[0] in chosen;
      chosen
    else
      orders
  }

  /** With a selection, every selected order is exported as many times as it
      was loaded. */
  lemma ExportedOrdersCount(orders: seq<Order>, selected: set<OrderKey>, o: Order)
    requires exists i :: 0 <= i < |orders| && orders[i].orderId in selected
    ensures multiset(ExportedOrders(orders, selected))[o] ==
              if o.orderId in selected then multiset(orders)[o] else 0
  {
    FilterMultiplicity(orders, (x: Order) => x.orderId in selected, o);
    var i :| 0 <= i < |orders| && orders[i].orderId in selected;
    assert orders[i] in Filter(orders, (x: Order) => x.orderId in selected);
  }

  const Peso := '\U{20B1}'

  const CsvHeader := ["Order ID", "Tracking Number", "Customer", "Product", "Quantity", "Amount",
                      "Payment Status", "Shipping Status", "Date"]

  /** The nine cells of an order's line; a missing value becomes empty, and so
      does a quantity of 0. */
  function CsvCells(o: Order): (cells: seq<string>)
    ensures |cells| == |CsvHeader| == 9
    ensures cells[0] == TextOr(o.orderId, "") && cells[1] == TextOr(o.trackingNumber, "")
    ensures cells[2] == TextOr(o.customerName, "") && cells[3] == TextOr(o.productName, "")
    ensures cells[4] == if o.quantity.Some? && o.quantity.value != 0 then Decimal(o.quantity.value) else ""
    ensures cells[5] == [Peso] + Decimal(Amount(o))
    ensures cells[6] == TextOr(o.paymentStatus, "") && cells[7] == TextOr(o.shippingStatus, "")
    ensures cells[8] == TextOr(o.date, "")
  {
    [TextOr(o.orderId, ""),
     TextOr(o.trackingNumber, ""),
     TextOr(o.customerName, ""),
     TextOr(o.productName, ""),
     if o.quantity.Some? && o.quantity.value != 0 then Decimal(o.quantity.value) else "",
     [Peso] + Decimal(Amount(o)),
     TextOr(o.paymentStatus, ""),
     TextOr(o.shippingStatus, ""),
     TextOr(o.date, "")]
  }

  function CsvLine(o: Order): string {
    Join(CsvCells(o), ',')
  }

  /** One line per order, in order. */
  function CsvBody(exported: seq<Order>): (lines: seq<string>)
    ensures |lines| == |exported|
    ensures forall i :: 0 <= i < |exported| ==> lines[i] == CsvLine(exported[i])
  {
    seq(|exported|, i requires 0 <= i < |exported| => CsvLine(exported[i]))
  }

  /** The CSV text: the header line, then one line per exported order. */
  function Csv(orders: seq<Order>, selected: set<OrderKey>): string {
    Join([Join(CsvHeader, ',')] + CsvBody(ExportedOrders(orders, selected)), '\n')
  }

  predicate CellsFree(o: Order, c: char) {
    forall k :: 0 <= k < 9 ==> c !in CsvCells(o)[k]
  }

  /** When no cell holds a line break, the CSV has the header line and exactly
      one line per exported order, in exported order. */
  lemma CsvLines(orders: seq<Order>, selected: set<OrderKey>)
    requires forall o :: o in orders ==> CellsFree(o, '\n')
    ensures var exported := ExportedOrders(orders, selected);
            var lines := Split(Csv(orders, selected), '\n');
            |lines| == 1 + |exported| && lines[0] == Join(CsvHeader, ',')
            && forall i :: 0 <= i < |exported| ==> lines[i + 1] == CsvLine(exported[i])
  {
    var exported := ExportedOrders(orders, selected);
    var body := CsvBody(exported);
    var lines := Split(Csv(orders, selected), '\n');
    assert lines == [Join(CsvHeader, ',')] + body by {
      BodyFree(orders, selected);
      HeaderFree();
      SplitLines(Join(CsvHeader, ','), body);
    }
    forall i | 0 <= i < |exported| ensures lines[i + 1] == CsvLine(exported[i]) {
      assert lines[i + 1] == body[i];
    }
  }

  /** The header line holds no line break. */
  lemma HeaderFree()
    ensures '\n' !in Join(CsvHeader, ',')
  {
    JoinSplitFree(CsvHeader, ',', '\n');
  }

  /** No exported line holds a line break when no cell of a loaded order does. */
  lemma BodyFree(orders: seq<Order>, selected: set<OrderKey>)
    requires forall o :: o in orders ==> CellsFree(o, '\n')
    ensures var body := CsvBody(ExportedOrders(orders, selected));
            forall i :: 0 <= i < |body| ==> '\n' !in body[i]
  {
    var exported := ExportedOrders(orders, selected);
    var body := CsvBody(exported);
    ExportedFromOrders(orders, selected);
    forall i | 0 <= i < |exported| ensures '\n' !in body[i] {
      CsvLineFree(exported[i], '\n');
    }
  }

  /** Every exported order is a loaded order. */
  lemma ExportedFromOrders(orders: seq<Order>, selected: set<OrderKey>)
    ensures forall o :: o in ExportedOrders(orders, selected) ==> o in orders
  {
  }

  /** Lines free of line breaks, joined with line breaks, split back into
      themselves. */
  lemma SplitLines(header: string, body: seq<string>)
    requires '\n' !in header
    requires forall i :: 0 <= i < |body| ==> '\n' !in body[i]
    ensures Split(Join([header] + body, '\n'), '\n') == [header] + body
  {
    var parts := [header] + body;
    forall k | 0 <= k < |parts| ensures '\n' !in parts[k] {
      if k > 0 {
        assert parts[k] == body[k - 1];
      }
    }
    SplitJoin(parts, '\n');
  }

  /** A line whose cells are free of a character other than the comma is
      free of it. */
  lemma CsvLineFree(o: Order, c: char)
    requires c != ',' && CellsFree(o, c)
    ensures c !in CsvLine(o)
  {
    JoinSplitFree(CsvCells(o), ',', c);
  }

  /** Joining pieces free of a character other than the separator gives a
      string free of it. */
  lemma {:induction false} JoinSplitFree(parts: seq<string>, sep: char, c: char)
    requires c != sep
    requires forall k :: 0 <= k < |parts| ==> c !in parts[k]
    ensures c !in Join(parts, sep)
    decreases |parts|
  {
    if |parts| > 1 {
      JoinSplitFree(parts[1..], sep, c);
    }
  }

  /** When no cell holds a comma, each order's line splits back into its nine
      cells. */
  lemma CsvLineCells(o: Order)
    requires CellsFree(o, ',')
    ensures Split(CsvLine(o), ',') == CsvCells(o)
  {
    SplitJoin(CsvCells(o), ',');
  }

  /** Cells are not quoted: a customer name with a comma adds a column, so
      the line no longer splits into nine cells. */
  lemma CommaShiftsColumns(o: Order)
    requires o.customerName == Some("Cruz, Ana")
    ensures |Split(CsvLine(o), ',')| > |CsvHeader|
  {
    var cells := CsvCells(o);
    assert cells[2] == "Cruz" + [','] + " Ana";
    SplitAfterPiece("Cruz", ',', " Ana");
    PieceCountAtLeast(cells, ',', 2);
    SplitJoinCount(cells, ',');
  }

  // ---------------------------------------------------------------------------
  // The dashboard's state
  // ---------------------------------------------------------------------------

  /** The dashboard's state. `adminToken` is `config.adminToken`, and
      `storedToken` the `adminToken` entry of `localStorage`. */
  class Dashboard {
    const adminToken: string
    var storedToken: Option<string>
    var authenticated: bool
    var orders: seq<Order>
    var selected: set<OrderKey>
    var filters: Filters
    var logs: seq<LogEntry>

    /** Authenticated only with the right token in storage; the log never
        exceeds its limit. */
    ghost predicate Valid()
      reads this
    {
      (authenticated ==> storedToken == Some(adminToken)) && |logs| <= LogLimit
    }

    /** Mounting the page: authenticated exactly when the stored token is the
        admin token. */
    constructor(adminToken: string, storedToken: Option<string>)
      ensures Valid()
      ensures authenticated <==> storedToken == Some(adminToken)
      ensures this.adminToken == adminToken && this.storedToken == storedToken
      ensures orders == [] && selected == {} && filters == InitialFilters && logs == []
    {
      this.adminToken := adminToken;
      this.storedToken := storedToken;
      authenticated := storedToken == Some(adminToken);
      orders := [];
      selected := {};
      filters := InitialFilters;
      logs := [];
    }

    /** `handleLogin`: the entered token is stored and accepted only when it is
        the admin token; otherwise the page alerts. */
    method HandleLogin(password: string) returns (alert: Option<string>)
      requires Valid()
      modifies this`storedToken, this`authenticated
      ensures Valid()
      ensures alert.None? <==> password == adminToken
      ensures alert.Some? ==> alert.value == "Invalid access token" && unchanged(this)
      ensures alert.None? ==> authenticated && storedToken == Some(password)
      ensures orders == old(orders) && selected == old(selected) && logs == old(logs)
    {
      if password == adminToken {
        storedToken := Some(password);
        authenticated := true;
        alert := None;
      } else {
        alert := Some("Invalid access token");
      }
    }

    /** `loadOrders`: the request carries the filters; the answer replaces the
        order list, and a failure alerts and keeps the list. */
    method LoadOrders(reply: Reply<seq<Order>>) returns (request: map<string, string>, alert: Option<string>)
      requires Valid()
      modifies this`orders
      ensures Valid()
      ensures request == OrdersParams(FilterParams(filters))
      ensures alert.None? <==> reply.Answered?
      ensures alert.Some? ==> alert.value == "Failed to load orders" && orders == old(orders)
      ensures reply.Answered? ==> orders == FetchList(reply).value
      ensures selected == old(selected) && logs == old(logs) && filters == old(filters)
    {
      request := OrdersParams(FilterParams(filters));
      var r := FetchList(reply);
      if r.Ok? {
        orders := r.value;
        alert := None;
      } else {
        alert := Some("Failed to load orders");
      }
    }

    method SelectOrder(id: OrderKey)
      requires Valid()
      modifies this`selected
      ensures Valid()
      ensures selected == Toggled(old(selected), id)
      ensures orders == old(orders) && logs == old(logs)
    {
      if id in selected {
        selected := selected - {id};
      } else {
        selected := selected + {id};
      }
    }

    method SelectAllOrders()
      requires Valid()
      modifies this`selected
      ensures Valid()
      ensures selected == SelectAll(old(selected), orders)
      ensures orders == old(orders) && logs == old(logs)
    {
      if |selected| == |orders| {
        selected := {};
      } else {
        selected := OrderIds(orders);
      }
    }

    /** The "Clear Selection" button. */
    method ClearSelection()
      requires Valid()
      modifies this`selected
      ensures Valid()
      ensures selected == {} && orders == old(orders) && logs == old(logs)
    {
      selected := {};
    }

    method AddLog(timestamp: string, message: string)
      requires Valid()
      modifies this`logs
      ensures Valid()
      ensures logs == PushLog(old(logs), LogEntry(timestamp, message))
      ensures orders == old(orders) && selected == old(selected)
    {
      logs := PushLog(logs, LogEntry(timestamp, message));
    }

    /** The CSV text `handleDownloadCSV` downloads. */
    function CsvExport(): string
      reads this
    {
      Csv(orders, selected)
    }
  }
}
