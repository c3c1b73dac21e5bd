/** The order form `src/pages/OrderForm.jsx`: the quantity buttons, the
    province, city and barangay cascade (whose lists come through the address
    cache), the order sent to the backend, and the payment branch taken after
    it is created. */
module OrderForm {
  import opened Common
  import opened Records
  import opened Api

  // ---------------------------------------------------------------------------
  // Quantity
  // ---------------------------------------------------------------------------

  /** The `-` button: `Math.max(1, quantity - 1)`. */
  function Decrement(q: int): (r: int)
    ensures r >= 1 && r >= q - 1
    ensures r == 1 || r == q - 1
  {
    if q - 1 > 1 then q - 1 else 1
  }

  /** The `+` button: `Math.min(product.Stock, quantity + 1)`. */
  function Increment(q: int, stock: int): (r: int)
    ensures r <= stock && r <= q + 1
    ensures r == stock || r == q + 1
  {
    if q + 1 < stock then q + 1 else stock
  }

  /** From a quantity between 1 and the stock, both buttons stay in that range. */
  lemma ButtonsStayInRange(q: int, stock: int)
    requires 1 <= q <= stock
    ensures 1 <= Decrement(q) <= stock
    ensures 1 <= Increment(q, stock) <= stock
  {
  }

  /** Below the stock, `-` undoes `+`; above 1, `+` undoes `-`. */
  lemma ButtonsUndoEachOther(q: int, stock: int)
    ensures 1 <= q < stock ==> Decrement(Increment(q, stock)) == q
    ensures 1 < q <= stock ==> Increment(Decrement(q), stock) == q
  {
  }

  /** The buttons do not repair a typed quantity: `+` on a quantity above the
      stock lowers it to the stock, and with no stock it yields a quantity
      below 1. */
  lemma IncrementPullsToStock(q: int, stock: int)
    ensures q >= stock ==> Increment(q, stock) == stock
    ensures stock <= 0 ==> Increment(q, stock) < 1
  {
  }

  /** The total shown next to the quantity and on the submit button. */
  function DisplayedTotal(quantity: int, price: int): int {
    quantity * price
  }

  /** The amount handed to the Maya checkout. */
  function CheckoutAmount(product: Product, quantity: int): (amount: int)
    ensures amount == DisplayedTotal(quantity, product.price)
  {
    product.price * quantity
  }

  // ---------------------------------------------------------------------------
  // The order sent to the backend, and what happens after
  // ---------------------------------------------------------------------------

  /** `orderData`. */
  datatype OrderData = OrderData(
    productId: Option<string>,
    quantity: int,
    customerName: string,
    email: string,
    contact: string,
    province: string,
    city: string,
    barangay: string,
    addressDetails: string,
    packageSize: Option<string>,
    itemCategory: Option<string>,
    paymentMethod: string)

  /** What submitting the form leads to. */
  datatype SubmitOutcome =
    | StartCheckout(amount: int, orderId: Option<string>, order: OrderData)
    | Navigate(path: string)
    | Alert(message: string)

  /** `${orderId}`: an order id the backend did not return prints as `undefined`. */
  function OrderIdText(orderId: Option<string>): (t: string)
    ensures orderId.Some? ==> t == orderId.value
    ensures orderId.None? ==> t == "undefined"
  {
    match orderId
    case Some(id) => id
    case None => "undefined"
  }

  /** The state of the form. */
  class OrderFormState {
    var quantity: int
    var customerName: string
    var email: string
    var contact: string
    var province: string
    var city: string
    var barangay: string
    var addressDetails: string
    var paymentMethod: string
    var provinces: seq<Address>
    var cities: seq<Address>
    var barangays: seq<Address>

    /** A city is only chosen under a province, and a barangay under a city:
        the city and barangay selects are disabled until the level above is set. */
    ghost predicate Valid()
      reads this
    {
      (province == "" ==> city == "") && (city == "" ==> barangay == "")
    }

    constructor()
      ensures Valid()
      ensures quantity == 1 && paymentMethod == "maya"
      ensures customerName == "" && email == "" && contact == "" && addressDetails == ""
      ensures province == "" && city == "" && barangay == ""
      ensures provinces == [] && cities == [] && barangays == []
    {
      quantity := 1;
      customerName := "";
      email := "";
      contact := "";
      province := "";
      city := "";
      barangay := "";
      addressDetails := "";
      paymentMethod := "maya";
      provinces := [];
      cities := [];
      barangays := [];
    }

    method DecreaseQuantity()
      modifies this`quantity
      ensures quantity == Decrement(old(quantity))
      ensures unchanged(this`province) && unchanged(this`city) && unchanged(this`barangay)
    {
      quantity := Decrement(quantity);
    }

    method IncreaseQuantity(product: Product)
      modifies this`quantity
      ensures quantity == Increment(old(quantity), product.stock)
      ensures unchanged(this`province) && unchanged(this`city) && unchanged(this`barangay)
    {
      quantity := Increment(quantity, product.stock);
    }

    /** A typed quantity is stored as typed, without clamping. */
    method TypeQuantity(typed: int)
      modifies this`quantity
      ensures quantity == typed
      ensures unchanged(this`province) && unchanged(this`city) && unchanged(this`barangay)
    {
      quantity := typed;
    }

    method ChoosePayment(paymentMethod: string)
      modifies this`paymentMethod
      ensures this.paymentMethod == paymentMethod
      ensures unchanged(this`quantity) && unchanged(this`province) && unchanged(this`city)
    {
      this.paymentMethod := paymentMethod;
    }

    /** `loadProvinces`: the province list, through the address cache. A
        failure leaves the list as it was. */
    method LoadProvinces(cache: AddressCache, now: int, reply: Reply<seq<Address>>, fetchedAt: int)
      requires cache.Valid()
      modifies this`provinces, cache
      ensures cache.Valid()
      ensures var loaded := Served(old(cache.store), "province", "", now, reply);
              provinces == (if loaded.Ok? then loaded.value else old(provinces))
      ensures unchanged(this`province) && unchanged(this`city) && unchanged(this`barangay)
      ensures unchanged(this`cities) && unchanged(this`barangays)
    {
      var r, _ := cache.GetAddresses("province", "", now, reply, fetchedAt);
      if r.Ok? {
        provinces := r.value;
      }
    }

    /** `handleProvinceChange`: sets the province and clears city and barangay;
        a chosen province loads its cities. */
    method ProvinceChange(selected: string, cache: AddressCache, now: int, reply: Reply<seq<Address>>, fetchedAt: int)
      requires Valid() && cache.Valid()
      modifies this`province, this`city, this`barangay, this`cities, cache
      ensures Valid() && cache.Valid()
      ensures province == selected && city == "" && barangay == ""
      ensures selected == "" ==> unchanged(cache) && cities == old(cities)
      ensures var loaded := Served(old(cache.store), "city", selected, now, reply);
              selected != "" ==> cities == (if loaded.Ok? then loaded.value else old(cities))
      ensures quantity == old(quantity) && barangays == old(barangays) && provinces == old(provinces)
    {
      province := selected;
      city := "";
      barangay := "";
      if selected != "" {
        var r, _ := cache.GetAddresses("city", selected, now, reply, fetchedAt);
        if r.Ok? {
          cities := r.value;
        }
      }
    }

    /** `handleCityChange`: sets the city and clears the barangay, leaving the
        province; a chosen city loads its barangays. */
    method CityChange(selected: string, cache: AddressCache, now: int, reply: Reply<seq<Address>>, fetchedAt: int)
      requires Valid() && cache.Valid()
      requires province != ""
      modifies this`city, this`barangay, this`barangays, cache
      ensures Valid() && cache.Valid()
      ensures province == old(province) && city == selected && barangay == ""
      ensures selected == "" ==> unchanged(cache) && barangays == old(barangays)
      ensures var loaded := Served(old(cache.store), "barangay", selected, now, reply);
              selected != "" ==> barangays == (if loaded.Ok? then loaded.value else old(barangays))
      ensures quantity == old(quantity) && cities == old(cities) && provinces == old(provinces)
    {
      city := selected;
      barangay := "";
      if selected != "" {
        var r, _ := cache.GetAddresses("barangay", selected, now, reply, fetchedAt);
        if r.Ok? {
          barangays := r.value;
        }
      }
    }

    /** The barangay select: it is enabled once a city is chosen. */
    method BarangayChange(selected: string)
      requires Valid() && city != ""
      modifies this`barangay
      ensures Valid()
      ensures barangay == selected && province == old(province) && city == old(city)
    {
      barangay := selected;
    }

    /** `orderData` for the product on the form: the form fields as they are,
        with the product's size and category as package size and item category. */
    function OrderDataOf(productId: Option<string>, product: Product): (d: OrderData)
      reads this
      ensures d.packageSize == product.size && d.itemCategory == product.category
      ensures d.quantity == quantity && d.paymentMethod == paymentMethod
      ensures d.province == province && d.city == city && d.barangay == barangay
      ensures d.productId == productId && d.customerName == customerName && d.email == email
      ensures d.contact == contact && d.addressDetails == addressDetails
      ensures Valid() ==> (d.province == "" ==> d.city == "") && (d.city == "" ==> d.barangay == "")
    {
      OrderData(productId, quantity, customerName, email, contact, province, city, barangay,
                addressDetails, product.size, product.category, paymentMethod)
    }

    /** `handleSubmit`. `created` is what `createOrder` returns: the `orderId`
        of the backend's answer, or the message it throws. */
    method Submit(productId: Option<string>, product: Product, created: Result<Option<string>>)
      returns (outcome: SubmitOutcome)
      ensures created.Err? <==> outcome.Alert?
      ensures created.Err? ==> outcome.message == "Failed to create order: " + created.message
      ensures outcome.StartCheckout? <==> created.Ok? && paymentMethod == "maya"
      ensures outcome.StartCheckout? ==>
                outcome.amount == DisplayedTotal(quantity, product.price)
                && outcome.orderId == created.value
                && outcome.order == OrderDataOf(productId, product)
      ensures outcome.Navigate? ==> outcome.path == "/success?order=" + OrderIdText(created.value)
    {
      var orderData := OrderDataOf(productId, product);
      match created
      case Err(message) =>
        outcome := Alert("Failed to create order: " + message);
      case Ok(orderId) =>
        if paymentMethod == "maya" {
          outcome := StartCheckout(CheckoutAmount(product, quantity), orderId, orderData);
        } else {
          outcome := Navigate("/success?order=" + OrderIdText(orderId));
        }
    }
  }
}
