/** The product card's quantity stepper and add-to-cart button. The stock is
    the product's `quantity`; every handler keeps the chosen quantity within
    `[0, stock]`. The cart dispatch is the abstract argument `dispatchOk`. */
module Product {
  import opened Js

  /** The notification a handler raises; its wording is not modelled. */
  datatype Notice =
    | SelectPositiveQuantity
    | OnlyInStock(available: int)
    | MaximumQuantity(available: int)
    | AddedToCart(count: int)
    | AddFailed

  /** `increaseQuantity`: one more, capped at the stock. */
  function Increased(q: int, stock: int): (r: int)
    ensures r <= stock && r <= q + 1
    ensures q + 1 <= stock ==> r == q + 1
    ensures q + 1 > stock ==> r == stock
  {
    var newQuantity := q + 1;
    if newQuantity > stock then stock else newQuantity
  }

  /** `increaseQuantity` warns exactly when it hits the cap. */
  predicate IncreaseWarns(q: int, stock: int) {
    q + 1 > stock
  }

  /** `decreaseQuantity`: `max(0, q - 1)`. */
  function Decreased(q: int): (r: int)
    ensures r >= 0 && r >= q - 1
    ensures q > 0 ==> r == q - 1
    ensures q <= 0 ==> r == 0
  {
    if q - 1 > 0 then q - 1 else 0
  }

  /** `parseInt(text) || 0`: a typed number, or 0 when the text is not one. */
  function ParsedOrZero(input: Option<int>): int {
    if input.Some? then input.value else 0
  }

  /** `handleQuantityChange`: `max(0, min(value, stock))`. */
  function Entered(input: Option<int>, stock: int): (r: int)
    ensures r >= 0
    ensures stock >= 0 ==> r <= stock
    ensures 0 <= ParsedOrZero(input) <= stock ==> r == ParsedOrZero(input)
    ensures ParsedOrZero(input) > stock ==> r == if stock > 0 then stock else 0
    ensures ParsedOrZero(input) < 0 ==> r == 0
  {
    var value := ParsedOrZero(input);
    var lower := if value < stock then value else stock;
    if lower > 0 then lower else 0
  }

  /** `handleQuantityChange` warns when the typed value exceeds the stock
      (text that is not a number counts as 0). */
  predicate EntryWarns(input: Option<int>, stock: int) {
    ParsedOrZero(input) > stock
  }

  /** One use of the stepper. */
  datatype StepEvent = Increase | Decrease | Entry(input: Option<int>)

  function Step(q: int, e: StepEvent, stock: int): int {
    match e
    case Increase => Increased(q, stock)
    case Decrease => Decreased(q)
    case Entry(input) => Entered(input, stock)
  }

  /** The quantity after a sequence of stepper uses. */
  function Run(q: int, events: seq<StepEvent>, stock: int): int
    decreases |events|
  {
    if events == [] then q else Run(Step(q, events[0], stock), events[1..], stock)
  }

  /** With a stock that is not negative, any sequence of increases,
      decreases and typed entries keeps the quantity within `[0, stock]`. */
  lemma {:induction false} RunStaysInStock(q: int, events: seq<StepEvent>, stock: int)
    requires 0 <= q <= stock
    ensures 0 <= Run(q, events, stock) <= stock
    decreases |events|
  {
    if events != [] {
      RunStaysInStock(Step(q, events[0], stock), events[1..], stock);
    }
  }

  predicate IsOutOfStock(stock: int) {
    stock <= 0
  }

  predicate IsQuantityValid(q: int, stock: int) {
    q > 0 && q <= stock
  }

  /** The add button: disabled unless the quantity is valid, nothing is
      loading and the product is in stock. */
  predicate AddButtonEnabled(q: int, stock: int, isLoading: bool) {
    !(!IsQuantityValid(q, stock) || isLoading || IsOutOfStock(stock))
  }

  /** The increase button: disabled at the stock or when out of stock. */
  predicate IncreaseEnabled(q: int, stock: int) {
    !(q >= stock || IsOutOfStock(stock))
  }

  /** The two guards of `handleAddToCart`, in order; `None` lets the dispatch go. */
  function AddRejection(itemQuantity: int, stock: int): (r: Option<Notice>)
    ensures r.None? <==> IsQuantityValid(itemQuantity, stock)
    ensures itemQuantity <= 0 ==> r == Some(SelectPositiveQuantity)
    ensures itemQuantity > 0 && itemQuantity > stock ==> r == Some(OnlyInStock(stock))
  {
    if itemQuantity <= 0 then Some(SelectPositiveQuantity)
    else if itemQuantity > stock then Some(OnlyInStock(stock))
    else None
  }

  /** An enabled add button always passes both guards, and a valid quantity
      implies the product is in stock. */
  lemma EnabledAddPassesGuards(q: int, stock: int, isLoading: bool)
    ensures AddButtonEnabled(q, stock, isLoading) ==> AddRejection(q, stock).None?
    ensures IsQuantityValid(q, stock) ==> !IsOutOfStock(stock)
    ensures AddButtonEnabled(q, stock, isLoading) <==> IsQuantityValid(q, stock) && !isLoading
  {
  }

  /** An enabled increase button never warns and adds exactly one. */
  lemma EnabledIncreaseAddsOne(q: int, stock: int)
    requires IncreaseEnabled(q, stock)
    ensures !IncreaseWarns(q, stock) && Increased(q, stock) == q + 1
  {
  }

  /** The card's state: the chosen quantity, the add-in-progress flag and
      the last notification. */
  class ProductCard {
    const stock: int
    var quantity: int
    var isLoading: bool
    var notice: Option<Notice>

    /** With a stock that is not negative, the quantity stays within it. */
    ghost predicate Valid()
      reads this
    {
      stock >= 0 ==> 0 <= quantity <= stock
    }

    constructor (stock: int)
      ensures Valid() && this.stock == stock
      ensures quantity == 0 && !isLoading && notice.None?
    {
      this.stock := stock;
      quantity := 0;
      isLoading := false;
      notice := None;
    }

    method IncreaseQuantity()
      requires Valid()
      modifies this
      ensures Valid()
      ensures quantity == Increased(old(quantity), stock)
      ensures notice == if IncreaseWarns(old(quantity), stock) then Some(MaximumQuantity(stock)) else old(notice)
      ensures isLoading == old(isLoading)
    {
      var newQuantity := quantity + 1;
      if newQuantity > stock {
        notice := Some(MaximumQuantity(stock));
        quantity := stock;
      } else {
        quantity := newQuantity;
      }
    }

    method DecreaseQuantity()
      requires Valid()
      modifies this
      ensures Valid()
      ensures quantity == Decreased(old(quantity))
      ensures notice == old(notice) && isLoading == old(isLoading)
    {
      quantity := if quantity - 1 > 0 then quantity - 1 else 0;
    }

    method HandleQuantityChange(input: Option<int>)
      modifies this
      ensures Valid()
      ensures quantity == Entered(input, stock)
      ensures notice == if EntryWarns(input, stock) then Some(MaximumQuantity(stock)) else old(notice)
      ensures isLoading == old(isLoading)
    {
      var value := if input.Some? then input.value else 0;
      var lower := if value < stock then value else stock;
      var clampedValue := if lower > 0 then lower else 0;
      if value > stock {
        notice := Some(MaximumQuantity(stock));
      }
      quantity := clampedValue;
    }

    method HandleAddToCart(itemQuantity: int, dispatchOk: bool) returns (dispatched: bool)
      requires Valid()
      modifies this
      ensures Valid()
      ensures dispatched <==> IsQuantityValid(itemQuantity, stock)
      ensures !dispatched ==> notice == AddRejection(itemQuantity, stock)
      ensures !dispatched ==> quantity == old(quantity) && isLoading == old(isLoading)
      ensures dispatched && dispatchOk ==> quantity == 0 && notice == Some(AddedToCart(itemQuantity))
      ensures dispatched && !dispatchOk ==> quantity == old(quantity) && notice == Some(AddFailed)
      ensures dispatched ==> !isLoading
    {
      if itemQuantity <= 0 {
        notice := Some(SelectPositiveQuantity);
        return false;
      }
      if itemQuantity > stock {
        notice := Some(OnlyInStock(stock));
        return false;
      }
      isLoading := true;
      dispatched := true;
      if dispatchOk {
        notice := Some(AddedToCart(itemQuantity));
        quantity := 0;
      } else {
        notice := Some(AddFailed);
      }
      isLoading := false;
    }
  }
}
