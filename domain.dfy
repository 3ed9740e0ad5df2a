/**
 * Domain entities (internal/domain/models.go): customers, products, the cart
 * and its lines, transactions, receipts, discounts and checkout options.
 *
 * The cart is the one entity whose methods update it in place, so it is a
 * class; the other entities are values. Money is a `real`; instants of time
 * are integers on one clock, and a time that may be Go's zero time is an
 * `Option<int>`.
 */
module Domain {
  import opened AppErrors

  datatype Address = Address(street: string, city: string, state: string, postalCode: string, country: string)

  datatype Customer = Customer(
    id: string, email: string, name: string, phone: string, loyaltyPoints: int, address: Address)

  datatype Product = Product(
    id: string, name: string, description: string, price: real, sku: string, stock: int, category: string)

  /** One cart line; `price` is the product's price when the line was first added. */
  datatype CartItem = CartItem(productId: string, product: Product, quantity: int, price: real)

  /** The untyped values (`interface{}`) stored in payment metadata and details. */
  datatype MetaValue =
    | MStr(s: string)
    | MReal(r: real)
    | MInt(i: int)
    | MStrList(strs: seq<string>)
    | MRecords(records: seq<map<string, MetaValue>>)

  type Metadata = map<string, MetaValue>

  datatype TransactionStatus = Pending | Processing | Completed | Failed | Refunded
  {
    function Text(): (s: string)
      ensures |s| > 0
    {
      match this
      case Pending => "pending"
      case Processing => "processing"
      case Completed => "completed"
      case Failed => "failed"
      case Refunded => "refunded"
    }
  }

  datatype Transaction = Transaction(
    id: string, customerId: string, amount: real, status: TransactionStatus, paymentMethod: string,
    paymentDetails: Metadata, metadata: Metadata, errorMessage: string, processedAt: Option<int>,
    createdAt: int)

  datatype ReceiptItem = ReceiptItem(
    productId: string, productName: string, sku: string, quantity: int, unitPrice: real, total: real)

  datatype Receipt = Receipt(
    id: string, transactionId: string, customerId: string, customerName: string, customerEmail: string,
    items: seq<ReceiptItem>, subtotal: real, discount: real, tax: real, cashback: real,
    loyaltyPoints: int, total: real, paymentMethod: string, paymentDetails: Metadata,
    appliedDecorators: seq<string>, createdAt: int)

  datatype CheckoutOptions = CheckoutOptions(
    paymentMethod: string, paymentStrategy: string, enabledDecorators: seq<string>,
    discountCode: string, useLoyaltyPoints: int, metadata: Metadata)

  /** The stored form of a cart. */
  datatype CartData = CartData(
    id: string, customerId: string, items: seq<CartItem>, createdAt: int, updatedAt: int)

  // ---------------------------------------------------------------- cart lines

  /** A price times a quantity. */
  function Amount(price: real, quantity: int): real
  {
    price * quantity as real
  }

  function LineTotal(item: CartItem): real
  {
    Amount(item.price, item.quantity)
  }

  /** The sum of price times quantity over the lines. */
  function Total(items: seq<CartItem>): real
  {
    if items == [] then 0.0 else Total(items[..|items| - 1]) + LineTotal(items[|items| - 1])
  }

  /** The sum of the quantities over the lines. */
  function ItemCount(items: seq<CartItem>): int
  {
    if items == [] then 0 else ItemCount(items[..|items| - 1]) + items[|items| - 1].quantity
  }

  /** The position of the first line for `productId`, or `|items|` when there is none. */
  function IndexOf(items: seq<CartItem>, productId: string): (k: nat)
    ensures k <= |items|
    ensures k < |items| ==> items[k].productId == productId
    ensures forall j :: 0 <= j < k ==> items[j].productId != productId
  {
    if items == [] then 0
    else if items[0].productId == productId then 0
    else 1 + IndexOf(items[1..], productId)
  }

  predicate Contains(items: seq<CartItem>, productId: string)
  {
    exists j :: 0 <= j < |items| && items[j].productId == productId
  }

  /** No two lines are for the same product. */
  predicate DistinctProducts(items: seq<CartItem>)
  {
    forall i, j :: 0 <= i < j < |items| ==> items[i].productId != items[j].productId
  }

  /** The lines after adding `quantity` of `product`: the first line for it grows, or a new line is appended. */
  function WithAdded(items: seq<CartItem>, product: Product, quantity: int): seq<CartItem>
  {
    var k := IndexOf(items, product.id);
    if k < |items| then Bumped(items, k, quantity)
    else items + [CartItem(product.id, product, quantity, product.price)]
  }

  /** The lines with `quantity` more of line `k`. */
  function Bumped(items: seq<CartItem>, k: nat, quantity: int): seq<CartItem>
    requires k < |items|
  {
    items[k := items[k].(quantity := items[k].quantity + quantity)]
  }

  /** The lines after removing the first line for `productId`, if any. */
  function WithoutItem(items: seq<CartItem>, productId: string): seq<CartItem>
  {
    var k := IndexOf(items, productId);
    if k < |items| then items[..k] + items[k + 1..] else items
  }

  /** The lines after setting the quantity for `productId`; a quantity of zero or less removes the line. */
  function WithQuantity(items: seq<CartItem>, productId: string, quantity: int): seq<CartItem>
  {
    if quantity <= 0 then WithoutItem(items, productId)
    else
      var k := IndexOf(items, productId);
      if k < |items| then items[k := items[k].(quantity := quantity)] else items
  }

  class Cart {
    var id: string
    var customerId: string
    var items: seq<CartItem>
    var createdAt: int
    var updatedAt: int

    constructor (data: CartData)
      ensures Data() == data
    {
      id := data.id;
      customerId := data.customerId;
      items := data.items;
      createdAt := data.createdAt;
      updatedAt := data.updatedAt;
    }

    function Data(): CartData
      reads this
    {
      CartData(id, customerId, items, createdAt, updatedAt)
    }

    method GetTotal() returns (total: real)
      ensures total == Total(items)
    {
      total := 0.0;
      var i := 0;
      while i < |items|
        invariant 0 <= i <= |items|
        invariant total == Total(items[..i])
      {
        assert items[..i + 1][..i] == items[..i];
        total := total + items[i].price * items[i].quantity as real;
        i := i + 1;
      }
      assert items[..|items|] == items;
    }

    method GetItemCount() returns (count: int)
      ensures count == ItemCount(items)
    {
      count := 0;
      var i := 0;
      while i < |items|
        invariant 0 <= i <= |items|
        invariant count == ItemCount(items[..i])
      {
        assert items[..i + 1][..i] == items[..i];
        count := count + items[i].quantity;
        i := i + 1;
      }
      assert items[..|items|] == items;
    }

    method AddItem(product: Product, quantity: int)
      modifies this
      ensures items == WithAdded(old(items), product, quantity)
      ensures id == old(id) && customerId == old(customerId)
      ensures createdAt == old(createdAt) && updatedAt == old(updatedAt)
    {
      var i := 0;
      while i < |items|
        invariant 0 <= i <= |items|
        invariant forall j :: 0 <= j < i ==> items[j].productId != product.id
      {
        if items[i].productId == product.id {
          items := items[i := items[i].(quantity := items[i].quantity + quantity)];
          return;
        }
        i := i + 1;
      }
      items := items + [CartItem(product.id, product, quantity, product.price)];
    }

    method RemoveItem(productId: string)
      modifies this
      ensures items == WithoutItem(old(items), productId)
      ensures id == old(id) && customerId == old(customerId)
      ensures createdAt == old(createdAt) && updatedAt == old(updatedAt)
    {
      var i := 0;
      while i < |items|
        invariant 0 <= i <= |items|
        invariant forall j :: 0 <= j < i ==> items[j].productId != productId
      {
        if items[i].productId == productId {
          items := items[..i] + items[i + 1..];
          return;
        }
        i := i + 1;
      }
    }

    method UpdateQuantity(productId: string, quantity: int)
      modifies this
      ensures items == WithQuantity(old(items), productId, quantity)
      ensures id == old(id) && customerId == old(customerId)
      ensures createdAt == old(createdAt) && updatedAt == old(updatedAt)
    {
      if quantity <= 0 {
        RemoveItem(productId);
        return;
      }
      var i := 0;
      while i < |items|
        invariant 0 <= i <= |items|
        invariant forall j :: 0 <= j < i ==> items[j].productId != productId
      {
        if items[i].productId == productId {
          items := items[i := items[i].(quantity := quantity)];
          return;
        }
        i := i + 1;
      }
    }

    method Clear()
      modifies this
      ensures items == [] && Total(items) == 0.0 && ItemCount(items) == 0
      ensures id == old(id) && customerId == old(customerId)
      ensures createdAt == old(createdAt) && updatedAt == old(updatedAt)
    {
      items := [];
    }
  }

  // ---------------------------------------------------------------- lemmas about the lines

  lemma {:induction false} TotalAppend(a: seq<CartItem>, b: seq<CartItem>)
    ensures Total(a + b) == Total(a) + Total(b)
    ensures ItemCount(a + b) == ItemCount(a) + ItemCount(b)
    decreases |b|
  {
    if b != [] {
      assert (a + b)[..|a + b| - 1] == a + b[..|b| - 1];
      TotalAppend(a, b[..|b| - 1]);
    } else {
      assert a + b == a;
    }
  }

  lemma TotalSingle(x: CartItem)
    ensures Total([x]) == LineTotal(x) && ItemCount([x]) == x.quantity
  {
    assert [x][..0] == [];
  }

  /** Replacing one line changes the total by the difference of that line alone. */
  lemma TotalReplace(items: seq<CartItem>, k: nat, x: CartItem)
    requires k < |items|
    ensures Total(items[k := x]) == Total(items) - LineTotal(items[k]) + LineTotal(x)
  {
    var pre, post := items[..k], items[k + 1..];
    assert items == pre + [items[k]] + post;
    assert items[k := x] == pre + [x] + post;
    TotalAppend(pre + [items[k]], post);
    TotalAppend(pre, [items[k]]);
    TotalAppend(pre + [x], post);
    TotalAppend(pre, [x]);
    TotalSingle(items[k]);
    TotalSingle(x);
  }

  /** Replacing one line changes the item count by the difference of that line alone. */
  lemma CountReplace(items: seq<CartItem>, k: nat, x: CartItem)
    requires k < |items|
    ensures ItemCount(items[k := x]) == ItemCount(items) - items[k].quantity + x.quantity
  {
    var pre, post := items[..k], items[k + 1..];
    assert items == pre + [items[k]] + post;
    assert items[k := x] == pre + [x] + post;
    TotalAppend(pre + [items[k]], post);
    TotalAppend(pre, [items[k]]);
    TotalAppend(pre + [x], post);
    TotalAppend(pre, [x]);
    TotalSingle(items[k]);
    TotalSingle(x);
  }

  /**
   * Adding a product raises the item count by the quantity and the total by
   * the quantity times the unit price of the line it lands on: the existing
   * line's price when the product is already in the cart, the product's
   * current price otherwise.
   */
  lemma AddedTotals(items: seq<CartItem>, product: Product, quantity: int)
    ensures IndexOf(items, product.id) < |items| ==>
      Total(WithAdded(items, product, quantity)) ==
        Total(items) + Amount(items[IndexOf(items, product.id)].price, quantity)
    ensures IndexOf(items, product.id) == |items| ==>
      Total(WithAdded(items, product, quantity)) == Total(items) + Amount(product.price, quantity)
    ensures ItemCount(WithAdded(items, product, quantity)) == ItemCount(items) + quantity
  {
    var k := IndexOf(items, product.id);
    if k < |items| {
      AddedToLine(items, k, quantity);
    } else {
      AppendedLine(items, CartItem(product.id, product, quantity, product.price));
    }
  }

  lemma AppendedLine(items: seq<CartItem>, line: CartItem)
    ensures Total(items + [line]) == Total(items) + LineTotal(line)
    ensures ItemCount(items + [line]) == ItemCount(items) + line.quantity
  {
    TotalAppend(items, [line]);
    TotalSingle(line);
  }

  lemma AddedToLine(items: seq<CartItem>, k: nat, quantity: int)
    requires k < |items|
    ensures Total(Bumped(items, k, quantity)) == Total(items) + Amount(items[k].price, quantity)
    ensures ItemCount(Bumped(items, k, quantity)) == ItemCount(items) + quantity
  {
    AddedToLineCount(items, k, quantity);
    AddedToLineTotal(items, k, quantity);
  }

  lemma AddedToLineTotal(items: seq<CartItem>, k: nat, quantity: int)
    requires k < |items|
    ensures Total(Bumped(items, k, quantity)) == Total(items) + Amount(items[k].price, quantity)
  {
    var x := items[k].(quantity := items[k].quantity + quantity);
    calc {
      Total(Bumped(items, k, quantity));
      Total(items[k := x]);
      { TotalReplace(items, k, x); }
      Total(items) - LineTotal(items[k]) + LineTotal(x);
      { LineGrows(items[k], quantity); }
      Total(items) + Amount(items[k].price, quantity);
    }
  }

  lemma AddedToLineCount(items: seq<CartItem>, k: nat, quantity: int)
    requires k < |items|
    ensures ItemCount(Bumped(items, k, quantity)) == ItemCount(items) + quantity
  {
    var x := items[k].(quantity := items[k].quantity + quantity);
    assert Bumped(items, k, quantity) == items[k := x];
    CountReplace(items, k, x);
  }

  lemma LineGrows(item: CartItem, quantity: int)
    ensures LineTotal(item.(quantity := item.quantity + quantity)) == LineTotal(item) + Amount(item.price, quantity)
  {
    var p := item.price;
    var q := item.quantity as real;
    var d := quantity as real;
    assert p * (q + d) == p * q + p * d;
  }

  /** Removing a product lowers total and count by its first line, and leaves them alone when it is absent. */
  lemma RemovedTotals(items: seq<CartItem>, productId: string)
    ensures var k := IndexOf(items, productId);
      Total(WithoutItem(items, productId)) ==
        Total(items) - (if k < |items| then LineTotal(items[k]) else 0.0) &&
      ItemCount(WithoutItem(items, productId)) ==
        ItemCount(items) - (if k < |items| then items[k].quantity else 0)
  {
    var k := IndexOf(items, productId);
    if k < |items| {
      assert items == items[..k] + [items[k]] + items[k + 1..];
      TotalAppend(items[..k] + [items[k]], items[k + 1..]);
      TotalAppend(items[..k], [items[k]]);
      TotalAppend(items[..k], items[k + 1..]);
      TotalSingle(items[k]);
    }
  }

  /** Adding, removing and setting quantities keep at most one line per product. */
  lemma CartOperationsKeepDistinct(items: seq<CartItem>, product: Product, productId: string, quantity: int)
    requires DistinctProducts(items)
    ensures DistinctProducts(WithAdded(items, product, quantity))
    ensures DistinctProducts(WithoutItem(items, productId))
    ensures DistinctProducts(WithQuantity(items, productId, quantity))
  {
    var k := IndexOf(items, productId);
    if k < |items| {
      var r := items[..k] + items[k + 1..];
      forall i, j | 0 <= i < j < |r| ensures r[i].productId != r[j].productId {
        var i' := if i < k then i else i + 1;
        var j' := if j < k then j else j + 1;
        assert r[i] == items[i'] && r[j] == items[j'];
      }
    }
  }

  /** With one line per product, removing a product leaves no line for it. */
  lemma RemovedIsGone(items: seq<CartItem>, productId: string)
    requires DistinctProducts(items)
    ensures !Contains(WithoutItem(items, productId), productId)
  {
    var k := IndexOf(items, productId);
    if k < |items| {
      var r := items[..k] + items[k + 1..];
      forall j | 0 <= j < |r| ensures r[j].productId != productId {
        if j >= k { assert r[j] == items[j + 1]; }
      }
    }
  }

  /** Setting a positive quantity changes that line's quantity only. */
  lemma QuantitySet(items: seq<CartItem>, productId: string, quantity: int)
    requires quantity > 0 && Contains(items, productId)
    ensures var r := WithQuantity(items, productId, quantity);
      var k := IndexOf(items, productId);
      |r| == |items| && r[k].quantity == quantity && r[k].price == items[k].price &&
      forall j :: 0 <= j < |items| && j != k ==> r[j] == items[j]
  {
  }

  // ---------------------------------------------------------------- discounts

  const PercentageDiscount := "percentage"
  const FixedDiscount := "fixed"

  datatype Discount = Discount(
    id: string, code: string, description: string, kind: string, value: real, minAmount: real,
    maxAmount: real, expiresAt: Option<int>, isActive: bool)
  {
    /** Active, and not past its expiry when it has one; `now` is the reading of the clock. */
    predicate IsValid(now: int): (b: bool)
      ensures b ==> isActive
      ensures expiresAt.Some? && now > expiresAt.value ==> !b
      ensures isActive && (expiresAt.None? || now <= expiresAt.value) ==> b
    {
      isActive && !(expiresAt.Some? && now > expiresAt.value)
    }

    /** The discount for `amount`; a kind other than percentage is treated as a fixed amount. */
    function Calculate(amount: real, now: int): (r: real)
      ensures !IsValid(now) || amount < minAmount ==> r == 0.0
      ensures maxAmount > 0.0 ==> r <= maxAmount
      ensures IsValid(now) && amount >= minAmount && kind == PercentageDiscount &&
              0.0 <= value <= 100.0 && amount >= 0.0
              ==> 0.0 <= r <= amount
      ensures IsValid(now) && amount >= minAmount && kind == PercentageDiscount ==>
        r == if maxAmount > 0.0 && amount * (value / 100.0) > maxAmount then maxAmount
             else amount * (value / 100.0)
      ensures IsValid(now) && amount >= minAmount && kind != PercentageDiscount ==>
        r == if maxAmount > 0.0 && value > maxAmount then maxAmount else value
    {
      if !IsValid(now) then 0.0
      else if amount < minAmount then 0.0
      else
        var d := if kind == PercentageDiscount then PercentageOf(amount, value) else value;
        if maxAmount > 0.0 && d > maxAmount then maxAmount else d
    }
  }

  /** A discount's validity only lapses: one valid now was valid at every earlier reading of the clock. */
  lemma ValidityOnlyLapses(d: Discount, earlier: int, now: int)
    requires earlier <= now
    ensures d.IsValid(now) ==> d.IsValid(earlier)
  {
  }

  /** `value` percent of `amount`. */
  function PercentageOf(amount: real, value: real): (p: real)
    ensures 0.0 <= value <= 100.0 && amount >= 0.0 ==> 0.0 <= p <= amount
  {
    PercentageBounds(amount, value);
    amount * (value / 100.0)
  }

  lemma PercentageBounds(amount: real, value: real)
    ensures 0.0 <= value <= 100.0 && amount >= 0.0 ==> 0.0 <= amount * (value / 100.0) <= amount
  {
    if 0.0 <= value <= 100.0 && amount >= 0.0 {
      var f := value / 100.0;
      assert 0.0 <= f <= 1.0;
      assert amount * f <= amount * 1.0;
    }
  }

  /** A fixed discount is not capped at the amount: ten off a five-unit purchase is ten. */
  lemma FixedDiscountMayExceedAmount()
    ensures Discount("d", "TEN", "", FixedDiscount, 10.0, 0.0, 0.0, None, true).Calculate(5.0, 0) == 10.0
  {
  }
}
