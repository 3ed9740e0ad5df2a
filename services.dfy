/**
 * The services over the repository (internal/service): inventory
 * (availability, reserving and releasing stock), customers (the loyalty
 * balance) and carts (read the stored cart, change it, write it back).
 *
 * Each service reads a record, changes one field and stores it again with
 * the matching `Update*` call. The functions below state what a call leaves
 * in the repository's maps; the service methods are proved against them.
 */
module Services {
  import opened AppErrors
  import opened Text
  import opened Domain
  import opened Repository

  // ---------------------------------------------------------------- inventory

  /** `CheckAvailability`: whether the stock covers the quantity; a missing product's error comes back as is. */
  function Availability(products: map<string, Product>, productId: string, quantity: int): (r: Result<bool>)
    ensures r.Err? <==> productId !in products
    ensures r.Err? ==> r.error == NewNotFoundError("product")
    ensures r.Ok? ==> (r.value <==> products[productId].stock >= quantity)
  {
    match Found(products, productId, "product")
    case Err(e) => Err(e)
    case Ok(p) => Ok(p.stock >= quantity)
  }

  function ShortageError(p: Product, quantity: int): (e: Error)
    ensures IsErrorCode(e, InventoryError)
  {
    NewInventoryError("insufficient stock for product " + p.name + ": have " + IntToString(p.stock) +
                      ", need " + IntToString(quantity))
  }

  /** The product with its stock moved by `delta`. */
  function Restocked(p: Product, delta: int): Product
  {
    p.(stock := p.stock + delta)
  }

  /**
   * `ReserveStock`: a missing product or a stock below the quantity fails and
   * changes nothing; otherwise that product's stock drops by exactly the
   * quantity, which leaves it non-negative, and nothing else changes.
   */
  function Reserved(products: map<string, Product>, productId: string, quantity: int)
    : (r: Result<map<string, Product>>)
    ensures r.Err? <==> productId !in products || products[productId].stock < quantity
    ensures productId !in products ==> r.error == NewNotFoundError("product")
    ensures productId in products && r.Err? ==> r.error == ShortageError(products[productId], quantity)
    ensures r.Ok? ==> r.value.Keys == products.Keys && r.value[productId].stock >= 0
    ensures r.Ok? ==> r.value[productId] == products[productId].(stock := products[productId].stock - quantity)
    ensures r.Ok? ==> forall k :: k in products && k != productId ==> r.value[k] == products[k]
  {
    match Found(products, productId, "product")
    case Err(e) => Err(e)
    case Ok(p) =>
      if p.stock < quantity then Err(ShortageError(p, quantity))
      else Ok(products[productId := Restocked(p, -quantity)])
  }

  /** `ReleaseStock`: the quantity is added back unconditionally; only a missing product fails. */
  function Released(products: map<string, Product>, productId: string, quantity: int)
    : (r: Result<map<string, Product>>)
    ensures r.Err? <==> productId !in products
    ensures r.Err? ==> r.error == NewNotFoundError("product")
    ensures r.Ok? ==> (r.value.Keys == products.Keys &&
      r.value[productId] == products[productId].(stock := products[productId].stock + quantity))
    ensures r.Ok? ==> forall k :: k in products && k != productId ==> r.value[k] == products[k]
  {
    match Found(products, productId, "product")
    case Err(e) => Err(e)
    case Ok(p) => Ok(products[productId := Restocked(p, quantity)])
  }

  /** Releasing what was just reserved restores every product exactly. */
  lemma ReserveThenReleaseRestores(products: map<string, Product>, productId: string, quantity: int)
    requires Reserved(products, productId, quantity).Ok?
    ensures Released(Reserved(products, productId, quantity).value, productId, quantity) == Ok(products)
  {
    var back := Released(Reserved(products, productId, quantity).value, productId, quantity).value;
    assert back.Keys == products.Keys;
    assert back[productId] == products[productId];
    assert back == products;
  }

  /** A reservation succeeds exactly when the availability check says yes. */
  lemma ReserveAgreesWithAvailability(products: map<string, Product>, productId: string, quantity: int)
    ensures Reserved(products, productId, quantity).Ok? <==>
      Availability(products, productId, quantity) == Ok(true)
  {
  }

  class InventoryService {
    const repo: MemoryRepository

    constructor (repo: MemoryRepository)
      ensures this.repo == repo
    {
      this.repo := repo;
    }

    method CheckAvailability(productId: string, quantity: int) returns (r: Result<bool>)
      ensures r == Availability(repo.products, productId, quantity)
    {
      var found := repo.GetProduct(productId);
      if found.Err? {
        return Err(found.error);
      }
      r := Ok(found.value.stock >= quantity);
    }

    method ReserveStock(productId: string, quantity: int) returns (err: Option<Error>)
      requires repo.Valid()
      modifies repo
      ensures repo.Valid()
      ensures err == ErrorOf(Reserved(old(repo.products), productId, quantity))
      ensures repo.products == StoredAfter(old(repo.products), Reserved(old(repo.products), productId, quantity))
      ensures repo.customers == old(repo.customers) && repo.carts == old(repo.carts)
      ensures repo.transactions == old(repo.transactions)
    {
      var found := repo.GetProduct(productId);
      if found.Err? {
        return Some(found.error);
      }
      var product := found.value;
      if product.stock < quantity {
        return Some(ShortageError(product, quantity));
      }
      product := product.(stock := product.stock - quantity);
      err := repo.UpdateProduct(product);
    }

    method ReleaseStock(productId: string, quantity: int) returns (err: Option<Error>)
      requires repo.Valid()
      modifies repo
      ensures repo.Valid()
      ensures err == ErrorOf(Released(old(repo.products), productId, quantity))
      ensures repo.products == StoredAfter(old(repo.products), Released(old(repo.products), productId, quantity))
      ensures repo.customers == old(repo.customers) && repo.carts == old(repo.carts)
      ensures repo.transactions == old(repo.transactions)
    {
      var found := repo.GetProduct(productId);
      if found.Err? {
        return Some(found.error);
      }
      var product := found.value;
      product := product.(stock := product.stock + quantity);
      err := repo.UpdateProduct(product);
    }
  }

  // ---------------------------------------------------------------- customers

  /**
   * `UpdateLoyaltyPoints`: the balance becomes old + earned - redeemed, with
   * no lower bound; only that field of that customer changes, and a missing
   * customer fails with nothing written.
   */
  function WithPoints(customers: map<string, Customer>, customerId: string, earned: int, redeemed: int)
    : (r: Result<map<string, Customer>>)
    ensures r.Err? <==> customerId !in customers
    ensures r.Err? ==> r.error == NewNotFoundError("customer")
    ensures r.Ok? ==> (r.value.Keys == customers.Keys &&
      r.value[customerId] == customers[customerId].(loyaltyPoints :=
                                                      customers[customerId].loyaltyPoints + earned - redeemed))
    ensures r.Ok? ==> forall k :: k in customers && k != customerId ==> r.value[k] == customers[k]
  {
    match Found(customers, customerId, "customer")
    case Err(e) => Err(e)
    case Ok(c) => Ok(customers[customerId := c.(loyaltyPoints := c.loyaltyPoints + earned - redeemed)])
  }

  /** Redeeming more points than the balance holds is not refused: the balance goes negative. */
  lemma RedeemingPastZero(customers: map<string, Customer>, customerId: string)
    requires customerId in customers && customers[customerId].loyaltyPoints == 100
    ensures WithPoints(customers, customerId, 0, 150).value[customerId].loyaltyPoints == -50
  {
  }

  /** Two updates of the same customer add up to one update with the summed amounts. */
  lemma PointUpdatesCompose(customers: map<string, Customer>, customerId: string, e1: int, r1: int, e2: int, r2: int)
    requires customerId in customers
    ensures WithPoints(WithPoints(customers, customerId, e1, r1).value, customerId, e2, r2) ==
            WithPoints(customers, customerId, e1 + e2, r1 + r2)
  {
    var once := WithPoints(customers, customerId, e1 + e2, r1 + r2).value;
    var twice := WithPoints(WithPoints(customers, customerId, e1, r1).value, customerId, e2, r2).value;
    assert twice.Keys == once.Keys;
    assert twice[customerId] == once[customerId];
    assert twice == once;
  }

  class CustomerService {
    const repo: MemoryRepository

    constructor (repo: MemoryRepository)
      ensures this.repo == repo
    {
      this.repo := repo;
    }

    method UpdateLoyaltyPoints(customerId: string, earned: int, redeemed: int) returns (err: Option<Error>)
      requires repo.Valid()
      modifies repo
      ensures repo.Valid()
      ensures err == ErrorOf(WithPoints(old(repo.customers), customerId, earned, redeemed))
      ensures repo.customers ==
        StoredAfter(old(repo.customers), WithPoints(old(repo.customers), customerId, earned, redeemed))
      ensures repo.products == old(repo.products) && repo.carts == old(repo.carts)
      ensures repo.transactions == old(repo.transactions)
    {
      var found := repo.GetCustomer(customerId);
      if found.Err? {
        return Some(found.error);
      }
      var customer := found.value;
      customer := customer.(loyaltyPoints := customer.loyaltyPoints + earned - redeemed);
      err := repo.UpdateCustomer(customer);
    }
  }

  // ---------------------------------------------------------------- carts

  /** The kinds of change a cart service applies to a stored cart. */
  datatype CartEdit =
    | AddLine(product: Product, quantity: int)
    | RemoveLine(productId: string)
    | SetQuantity(productId: string, quantity: int)
    | ClearLines

  /** The lines after the edit, as the matching `Cart` method leaves them. */
  function EditedLines(items: seq<CartItem>, edit: CartEdit): seq<CartItem>
  {
    match edit
    case AddLine(p, q) => WithAdded(items, p, q)
    case RemoveLine(id) => WithoutItem(items, id)
    case SetQuantity(id, q) => WithQuantity(items, id, q)
    case ClearLines => []
  }

  /**
   * A cart mutator: a missing cart fails with `NOT_FOUND` and nothing is
   * stored; otherwise the stored cart gets the edited lines and the new
   * update time, and no other cart changes.
   */
  function EditedCarts(carts: map<string, CartData>, cartId: string, edit: CartEdit, now: int)
    : (r: Result<map<string, CartData>>)
    requires forall k :: k in carts ==> carts[k].id == k
    ensures r.Err? <==> cartId !in carts
    ensures r.Err? ==> r.error == NewNotFoundError("cart")
    ensures r.Ok? ==> (r.value.Keys == carts.Keys &&
      r.value[cartId] == carts[cartId].(items := EditedLines(carts[cartId].items, edit), updatedAt := now))
    ensures r.Ok? ==> forall k :: k in carts && k != cartId ==> r.value[k] == carts[k]
  {
    match Found(carts, cartId, "cart")
    case Err(e) => Err(e)
    case Ok(c) => Replaced(carts, c.id, c.(items := EditedLines(c.items, edit), updatedAt := now), "cart")
  }

  /** After `ClearCart` the stored cart has no lines, so its total and item count are zero. */
  lemma ClearedCartIsEmpty(carts: map<string, CartData>, cartId: string, now: int)
    requires forall k :: k in carts ==> carts[k].id == k
    requires cartId in carts
    ensures EditedCarts(carts, cartId, ClearLines, now).value[cartId].items == []
    ensures Total(EditedCarts(carts, cartId, ClearLines, now).value[cartId].items) == 0.0
    ensures ItemCount(EditedCarts(carts, cartId, ClearLines, now).value[cartId].items) == 0
  {
  }

  /** Adding a product to a stored cart that has no line for it appends one line with the product's price. */
  lemma AddingNewProductAppendsLine(carts: map<string, CartData>, cartId: string, p: Product, quantity: int, now: int)
    requires forall k :: k in carts ==> carts[k].id == k
    requires cartId in carts && !Contains(carts[cartId].items, p.id)
    ensures EditedCarts(carts, cartId, AddLine(p, quantity), now).value[cartId].items ==
            carts[cartId].items + [CartItem(p.id, p, quantity, p.price)]
  {
  }

  class CartService {
    const repo: MemoryRepository

    constructor (repo: MemoryRepository)
      ensures this.repo == repo
    {
      this.repo := repo;
    }

    /** `CreateCart`: an empty cart for the customer under a fresh id, created now. */
    method CreateCart(customerId: string, id: string, now: int) returns (r: Result<CartData>)
      requires repo.Valid()
      modifies repo
      ensures repo.Valid()
      ensures r.Err? <==> id in old(repo.carts)
      ensures r.Err? ==> r.error == NewAlreadyExistsError("cart") && repo.carts == old(repo.carts)
      ensures r.Ok? ==> r.value == CartData(id, customerId, [], now, now) && repo.carts == old(repo.carts)[id := r.value]
      ensures repo.customers == old(repo.customers) && repo.products == old(repo.products)
      ensures repo.transactions == old(repo.transactions)
    {
      var cart := CartData(id, customerId, [], now, now);
      var err := repo.CreateCart(cart);
      if err.Some? {
        return Err(err.value);
      }
      r := Ok(cart);
    }

    /**
     * `GetOrCreateCart`: the customer's stored cart when the lookup succeeds;
     * on any lookup error, a new empty cart is created and stored.
     */
    method GetOrCreateCart(customerId: string, order: seq<string>, id: string, now: int) returns (r: Result<CartData>)
      requires repo.Valid() && Enumerates(order, repo.carts.Keys)
      modifies repo
      ensures repo.Valid()
      ensures (exists k :: k in old(repo.carts) && old(repo.carts)[k].customerId == customerId) ==>
        r.Ok? && r.value.customerId == customerId && r.value in old(repo.carts).Values &&
        repo.carts == old(repo.carts)
      ensures (forall k :: k in old(repo.carts) ==> old(repo.carts)[k].customerId != customerId) && id !in old(repo.carts) ==>
        r == Ok(CartData(id, customerId, [], now, now)) && repo.carts == old(repo.carts)[id := r.value]
      ensures repo.customers == old(repo.customers) && repo.products == old(repo.products)
      ensures repo.transactions == old(repo.transactions)
    {
      var found := repo.GetCartByCustomer(customerId, order);
      if found.Ok? {
        return found;
      }
      r := CreateCart(customerId, id, now);
    }

    /** The read-modify-write every mutator shares: fetch the cart, apply the `Cart` method, stamp it, store it. */
    method Edit(cartId: string, edit: CartEdit, now: int) returns (err: Option<Error>)
      requires repo.Valid()
      modifies repo
      ensures repo.Valid()
      ensures err == ErrorOf(EditedCarts(old(repo.carts), cartId, edit, now))
      ensures repo.carts == StoredAfter(old(repo.carts), EditedCarts(old(repo.carts), cartId, edit, now))
      ensures repo.customers == old(repo.customers) && repo.products == old(repo.products)
      ensures repo.transactions == old(repo.transactions)
    {
      var found := repo.GetCart(cartId);
      if found.Err? {
        return Some(found.error);
      }
      var cart := new Cart(found.value);
      match edit {
        case AddLine(p, q) => cart.AddItem(p, q);
        case RemoveLine(id) => cart.RemoveItem(id);
        case SetQuantity(id, q) => cart.UpdateQuantity(id, q);
        case ClearLines => cart.Clear();
      }
      cart.updatedAt := now;
      err := repo.UpdateCart(cart.Data());
    }

    method AddItem(cartId: string, product: Product, quantity: int, now: int) returns (err: Option<Error>)
      requires repo.Valid()
      modifies repo
      ensures repo.Valid()
      ensures err == ErrorOf(EditedCarts(old(repo.carts), cartId, AddLine(product, quantity), now))
      ensures repo.carts == StoredAfter(old(repo.carts), EditedCarts(old(repo.carts), cartId, AddLine(product, quantity), now))
      ensures repo.customers == old(repo.customers) && repo.products == old(repo.products)
      ensures repo.transactions == old(repo.transactions)
    {
      err := Edit(cartId, AddLine(product, quantity), now);
    }

    method RemoveItem(cartId: string, productId: string, now: int) returns (err: Option<Error>)
      requires repo.Valid()
      modifies repo
      ensures repo.Valid()
      ensures err == ErrorOf(EditedCarts(old(repo.carts), cartId, RemoveLine(productId), now))
      ensures repo.carts == StoredAfter(old(repo.carts), EditedCarts(old(repo.carts), cartId, RemoveLine(productId), now))
      ensures repo.customers == old(repo.customers) && repo.products == old(repo.products)
      ensures repo.transactions == old(repo.transactions)
    {
      err := Edit(cartId, RemoveLine(productId), now);
    }

    method UpdateQuantity(cartId: string, productId: string, quantity: int, now: int) returns (err: Option<Error>)
      requires repo.Valid()
      modifies repo
      ensures repo.Valid()
      ensures err == ErrorOf(EditedCarts(old(repo.carts), cartId, SetQuantity(productId, quantity), now))
      ensures repo.carts ==
        StoredAfter(old(repo.carts), EditedCarts(old(repo.carts), cartId, SetQuantity(productId, quantity), now))
      ensures repo.customers == old(repo.customers) && repo.products == old(repo.products)
      ensures repo.transactions == old(repo.transactions)
    {
      err := Edit(cartId, SetQuantity(productId, quantity), now);
    }

    method ClearCart(cartId: string, now: int) returns (err: Option<Error>)
      requires repo.Valid()
      modifies repo
      ensures repo.Valid()
      ensures err == ErrorOf(EditedCarts(old(repo.carts), cartId, ClearLines, now))
      ensures repo.carts == StoredAfter(old(repo.carts), EditedCarts(old(repo.carts), cartId, ClearLines, now))
      ensures repo.customers == old(repo.customers) && repo.products == old(repo.products)
      ensures repo.transactions == old(repo.transactions)
    {
      err := Edit(cartId, ClearLines, now);
    }
  }
}
