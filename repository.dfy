/**
 * The in-memory repository (internal/repository/memory_repository.go):
 * customers, products, carts and transactions kept in four maps keyed by id.
 *
 * Entries are stored as values: the Go maps hold pointers, so a caller that
 * changes a record it fetched changes the stored record too; here every
 * change goes through an `Update*` call. Go's map iteration order is random,
 * so the listing and search operations take the order in which the keys are
 * visited as a parameter, an enumeration of the map's keys.
 */
module Repository {
  import opened AppErrors
  import opened Domain

  // ---------------------------------------------------------------- map operations shared by every entity

  /** `Create*`: a new id is stored; an id already present is refused and nothing changes. */
  function Inserted<V>(m: map<string, V>, id: string, v: V, resource: string): (r: Result<map<string, V>>)
    ensures r.Err? <==> id in m
    ensures r.Err? ==> r.error == NewAlreadyExistsError(resource) && IsErrorCode(r.error, AlreadyExists)
    ensures r.Ok? ==> r.value.Keys == m.Keys + {id} && r.value[id] == v
    ensures r.Ok? ==> forall k :: k in m ==> r.value[k] == m[k]
  {
    if id in m then Err(NewAlreadyExistsError(resource)) else Ok(m[id := v])
  }

  /** `Get*`: the entry stored under `id`, or `NOT_FOUND`. */
  function Found<V>(m: map<string, V>, id: string, resource: string): (r: Result<V>)
    ensures r.Ok? <==> id in m
    ensures r.Ok? ==> r.value == m[id]
    ensures r.Err? ==> r.error == NewNotFoundError(resource) && IsErrorCode(r.error, NotFound)
  {
    if id in m then Ok(m[id]) else Err(NewNotFoundError(resource))
  }

  /** `Update*`: only an id already present is replaced, and no other entry changes. */
  function Replaced<V>(m: map<string, V>, id: string, v: V, resource: string): (r: Result<map<string, V>>)
    ensures r.Err? <==> id !in m
    ensures r.Err? ==> r.error == NewNotFoundError(resource) && IsErrorCode(r.error, NotFound)
    ensures r.Ok? ==> r.value.Keys == m.Keys && r.value[id] == v
    ensures r.Ok? ==> forall k :: k in m && k != id ==> r.value[k] == m[k]
  {
    if id !in m then Err(NewNotFoundError(resource)) else Ok(m[id := v])
  }

  /** The error an operation on a map returns, if any. */
  function ErrorOf<V>(r: Result<V>): (e: Option<Error>)
    ensures e.Some? <==> r.Err?
  {
    if r.Err? then Some(r.error) else None
  }

  /** The map an operation leaves: the new one, or the old one when it failed. */
  function StoredAfter<V>(m: map<string, V>, r: Result<map<string, V>>): (s: map<string, V>)
    ensures r.Err? ==> s == m
  {
    if r.Ok? then r.value else m
  }

  /** A record created with a fresh id is then found under that id, and the other ids find what they found before. */
  lemma CreateThenGet<V>(m: map<string, V>, id: string, v: V, resource: string, other: string)
    requires id !in m && other != id
    ensures Found(Inserted(m, id, v, resource).value, id, resource) == Ok(v)
    ensures Found(Inserted(m, id, v, resource).value, other, resource) == Found(m, other, resource)
  {
  }

  /** Updating a stored record and fetching it gives the new record; storing the old record again undoes the update. */
  lemma UpdateThenGet<V>(m: map<string, V>, id: string, v: V, resource: string)
    requires id in m
    ensures Found(Replaced(m, id, v, resource).value, id, resource) == Ok(v)
    ensures Replaced(Replaced(m, id, v, resource).value, id, m[id], resource) == Ok(m)
  {
    var back := Replaced(Replaced(m, id, v, resource).value, id, m[id], resource).value;
    assert back.Keys == m.Keys;
    assert forall k :: k in m ==> back[k] == m[k];
    assert back == m;
  }

  // ---------------------------------------------------------------- enumeration and pagination

  /** `order` visits every key of the map exactly once, as a `range` over the map does. */
  predicate Enumerates(order: seq<string>, keys: set<string>)
  {
    (forall i :: 0 <= i < |order| ==> order[i] in keys) && (forall k :: k in keys ==> k in order) &&
    (forall i, j :: 0 <= i < j < |order| ==> order[i] != order[j])
  }

  /** The entries in the order the keys are visited. */
  function Listed<V>(m: map<string, V>, order: seq<string>): (vs: seq<V>)
    requires forall k :: k in order ==> k in m
    ensures |vs| == |order|
    ensures forall i :: 0 <= i < |order| ==> vs[i] == m[order[i]]
  {
    if order == [] then [] else Listed(m, order[..|order| - 1]) + [m[order[|order| - 1]]]
  }

  /** What a listing with `limit` and `offset` panics on: a negative offset, or a negative limit inside the list. */
  predicate PageDefined(count: nat, limit: int, offset: int)
  {
    0 <= offset && (offset < count ==> 0 <= limit)
  }

  /** `List*` pagination: from `offset`, at most `limit` elements, and none once the offset reaches the end. */
  function Page<T>(xs: seq<T>, limit: int, offset: int): (r: seq<T>)
    requires PageDefined(|xs|, limit, offset)
  {
    if offset >= |xs| then []
    else if offset + limit > |xs| then xs[offset..]
    else xs[offset..offset + limit]
  }

  /** A page holds the elements from `offset` on, as many as `limit` allows and the list still has. */
  lemma PageIsWindow<T>(xs: seq<T>, limit: int, offset: int)
    requires PageDefined(|xs|, limit, offset)
    ensures offset >= |xs| ==> Page(xs, limit, offset) == []
    ensures offset < |xs| ==>
      |Page(xs, limit, offset)| == (if offset + limit > |xs| then |xs| - offset else limit)
    ensures forall i :: 0 <= i < |Page(xs, limit, offset)| ==> Page(xs, limit, offset)[i] == xs[offset + i]
  {
  }

  /** Two consecutive pages make up the page of their combined size. */
  lemma PagesConcatenate<T>(xs: seq<T>, a: nat, b: nat, offset: nat)
    ensures Page(xs, a, offset) + Page(xs, b, offset + a) == Page(xs, a + b, offset)
  {
    var p, q, r := Page(xs, a, offset), Page(xs, b, offset + a), Page(xs, a + b, offset);
    if offset < |xs| {
      PageIsWindow(xs, a, offset);
      PageIsWindow(xs, b, offset + a);
      PageIsWindow(xs, a + b, offset);
      assert |p + q| == |r|;
      forall i | 0 <= i < |r|
        ensures (p + q)[i] == r[i]
      {
        if i >= |p| {
          assert (p + q)[i] == q[i - |p|] == xs[offset + a + (i - |p|)];
        }
      }
    }
  }

  /** The entries of one owner, in visiting order (the filter `ListTransactionsByCustomer` applies). */
  function OwnedBy(m: map<string, Transaction>, order: seq<string>, customerId: string): (ts: seq<Transaction>)
    requires forall k :: k in order ==> k in m
  {
    if order == [] then []
    else
      var last := m[order[|order| - 1]];
      OwnedBy(m, order[..|order| - 1], customerId) + (if last.customerId == customerId then [last] else [])
  }

  /** The filter keeps exactly that customer's stored transactions: nothing else, and nothing of theirs is dropped. */
  lemma {:induction false} OwnedByExactly(m: map<string, Transaction>, order: seq<string>, customerId: string)
    requires forall k :: k in order ==> k in m
    ensures forall t :: t in OwnedBy(m, order, customerId) ==> t.customerId == customerId && t in m.Values
    ensures forall k :: k in order && m[k].customerId == customerId ==> m[k] in OwnedBy(m, order, customerId)
  {
    if order != [] {
      var init := order[..|order| - 1];
      assert forall k :: k in init ==> k in order;
      OwnedByExactly(m, init, customerId);
      forall k | k in order && m[k].customerId == customerId
        ensures m[k] in OwnedBy(m, order, customerId)
      {
        if k != order[|order| - 1] {
          assert k in init;
        }
      }
    }
  }

  /** The position of the first visited customer with `email`, or `|order|`. */
  function FirstWithEmail(m: map<string, Customer>, order: seq<string>, email: string): (k: nat)
    requires forall key :: key in order ==> key in m
    ensures k <= |order|
    ensures k < |order| ==> m[order[k]].email == email
    ensures forall j :: 0 <= j < k ==> m[order[j]].email != email
  {
    if order == [] then 0
    else if m[order[0]].email == email then 0
    else 1 + FirstWithEmail(m, order[1..], email)
  }

  /** The position of the first visited cart of `customerId`, or `|order|`. */
  function FirstOfCustomer(m: map<string, CartData>, order: seq<string>, customerId: string): (k: nat)
    requires forall key :: key in order ==> key in m
    ensures k <= |order|
    ensures k < |order| ==> m[order[k]].customerId == customerId
    ensures forall j :: 0 <= j < k ==> m[order[j]].customerId != customerId
  {
    if order == [] then 0
    else if m[order[0]].customerId == customerId then 0
    else 1 + FirstOfCustomer(m, order[1..], customerId)
  }

  // ---------------------------------------------------------------- seed data

  const SeedProducts: map<string, Product> := map[
    "prod-1" := Product("prod-1", "Laptop", "High-performance laptop", 999.99, "LAP-001", 10, "Electronics"),
    "prod-2" := Product("prod-2", "Wireless Mouse", "Ergonomic wireless mouse", 29.99, "MOU-001", 50, "Accessories"),
    "prod-3" := Product("prod-3", "USB-C Cable", "High-speed USB-C cable", 19.99, "CAB-001", 100, "Accessories"),
    "prod-4" := Product("prod-4", "Mechanical Keyboard", "RGB mechanical keyboard", 149.99, "KEY-001", 25, "Accessories"),
    "prod-5" := Product("prod-5", "Monitor", "27-inch 4K monitor", 399.99, "MON-001", 15, "Electronics")]

  const SeedCustomers: map<string, Customer> := map[
    "cust-1" := Customer("cust-1", "john.doe@example.com", "John Doe", "+1234567890", 500,
                         Address("123 Main St", "San Francisco", "CA", "94105", "USA"))]

  /** Every seeded record is stored under its own id. */
  predicate KeyedById(products: map<string, Product>, customers: map<string, Customer>)
  {
    (forall k :: k in products ==> products[k].id == k) && (forall k :: k in customers ==> customers[k].id == k)
  }

  /** The seed: five products with stock 10, 50, 100, 25 and 15, and one customer with 500 points. */
  lemma SeedContents()
    ensures SeedProducts.Keys == {"prod-1", "prod-2", "prod-3", "prod-4", "prod-5"}
    ensures SeedProducts["prod-1"].stock == 10 && SeedProducts["prod-2"].stock == 50 &&
            SeedProducts["prod-3"].stock == 100 && SeedProducts["prod-4"].stock == 25 &&
            SeedProducts["prod-5"].stock == 15
    ensures SeedCustomers.Keys == {"cust-1"} && SeedCustomers["cust-1"].loyaltyPoints == 500
    ensures KeyedById(SeedProducts, SeedCustomers)
  {
  }

  // ---------------------------------------------------------------- the repository

  class MemoryRepository {
    var customers: map<string, Customer>
    var products: map<string, Product>
    var carts: map<string, CartData>
    var transactions: map<string, Transaction>

    /** Every record is stored under its own id, which is what each `Create*` and `Update*` keys it by. */
    predicate Valid()
      reads this
    {
      (forall k :: k in customers ==> customers[k].id == k) && (forall k :: k in products ==> products[k].id == k) &&
      (forall k :: k in carts ==> carts[k].id == k) && (forall k :: k in transactions ==> transactions[k].id == k)
    }

    /** `NewMemoryRepository`: empty maps, then the seed data. */
    constructor ()
      ensures customers == SeedCustomers && products == SeedProducts
      ensures carts == map[] && transactions == map[]
      ensures Valid()
    {
      customers := SeedCustomers;
      products := SeedProducts;
      carts := map[];
      transactions := map[];
    }

    method CreateCustomer(c: Customer) returns (err: Option<Error>)
      modifies this
      requires Valid()
      ensures Valid()
      ensures err == ErrorOf(Inserted(old(customers), c.id, c, "customer"))
      ensures customers == StoredAfter(old(customers), Inserted(old(customers), c.id, c, "customer"))
      ensures products == old(products) && carts == old(carts) && transactions == old(transactions)
    {
      if c.id in customers {
        return Some(NewAlreadyExistsError("customer"));
      }
      customers := customers[c.id := c];
      err := None;
    }

    function GetCustomer(id: string): (r: Result<Customer>)
      reads this
      ensures r.Ok? <==> id in customers
      ensures r.Ok? ==> r.value == customers[id]
      ensures r.Err? ==> r.error == NewNotFoundError("customer") && IsErrorCode(r.error, NotFound)
    {
      Found(customers, id, "customer")
    }

    /** `GetCustomerByEmail`: the first customer with the email in visiting order, or `NOT_FOUND` when none has it. */
    method GetCustomerByEmail(email: string, order: seq<string>) returns (r: Result<Customer>)
      requires Enumerates(order, customers.Keys)
      ensures r.Err? <==> forall k :: k in customers ==> customers[k].email != email
      ensures r.Err? ==> r.error == NewNotFoundError("customer")
      ensures r.Ok? ==> r.value.email == email && r.value in customers.Values
      ensures r.Ok? ==> r.value == customers[order[FirstWithEmail(customers, order, email)]]
    {
      var i := 0;
      while i < |order|
        invariant 0 <= i <= |order|
        invariant forall j :: 0 <= j < i ==> customers[order[j]].email != email
      {
        var c := customers[order[i]];
        if c.email == email {
          assert FirstWithEmail(customers, order, email) == i by {
            FirstWithEmailIs(customers, order, email, i);
          }
          assert customers[order[i]] == c;
          return Ok(c);
        }
        i := i + 1;
      }
      forall k | k in customers
        ensures customers[k].email != email
      {
        var j :| 0 <= j < |order| && order[j] == k;
      }
      r := Err(NewNotFoundError("customer"));
    }

    method UpdateCustomer(c: Customer) returns (err: Option<Error>)
      modifies this
      requires Valid()
      ensures Valid()
      ensures err == ErrorOf(Replaced(old(customers), c.id, c, "customer"))
      ensures customers == StoredAfter(old(customers), Replaced(old(customers), c.id, c, "customer"))
      ensures products == old(products) && carts == old(carts) && transactions == old(transactions)
    {
      if c.id !in customers {
        return Some(NewNotFoundError("customer"));
      }
      customers := customers[c.id := c];
      err := None;
    }

    /** `ListCustomers`: all customers in visiting order, then the page. */
    method ListCustomers(limit: int, offset: int, order: seq<string>) returns (page: seq<Customer>)
      requires Enumerates(order, customers.Keys) && PageDefined(|order|, limit, offset)
      ensures page == Page(Listed(customers, order), limit, offset)
    {
      var all := Collect(customers, order);
      page := Paginate(all, limit, offset);
    }

    method CreateProduct(p: Product) returns (err: Option<Error>)
      modifies this
      requires Valid()
      ensures Valid()
      ensures err == ErrorOf(Inserted(old(products), p.id, p, "product"))
      ensures products == StoredAfter(old(products), Inserted(old(products), p.id, p, "product"))
      ensures customers == old(customers) && carts == old(carts) && transactions == old(transactions)
    {
      if p.id in products {
        return Some(NewAlreadyExistsError("product"));
      }
      products := products[p.id := p];
      err := None;
    }

    function GetProduct(id: string): (r: Result<Product>)
      reads this
      ensures r.Ok? <==> id in products
      ensures r.Ok? ==> r.value == products[id]
      ensures r.Err? ==> r.error == NewNotFoundError("product") && IsErrorCode(r.error, NotFound)
    {
      Found(products, id, "product")
    }

    method UpdateProduct(p: Product) returns (err: Option<Error>)
      modifies this
      requires Valid()
      ensures Valid()
      ensures err == ErrorOf(Replaced(old(products), p.id, p, "product"))
      ensures products == StoredAfter(old(products), Replaced(old(products), p.id, p, "product"))
      ensures customers == old(customers) && carts == old(carts) && transactions == old(transactions)
    {
      if p.id !in products {
        return Some(NewNotFoundError("product"));
      }
      products := products[p.id := p];
      err := None;
    }

    /** `ListProducts`: all products in visiting order, then the page. */
    method ListProducts(limit: int, offset: int, order: seq<string>) returns (page: seq<Product>)
      requires Enumerates(order, products.Keys) && PageDefined(|order|, limit, offset)
      ensures page == Page(Listed(products, order), limit, offset)
    {
      var all := Collect(products, order);
      page := Paginate(all, limit, offset);
    }

    method CreateCart(c: CartData) returns (err: Option<Error>)
      modifies this
      requires Valid()
      ensures Valid()
      ensures err == ErrorOf(Inserted(old(carts), c.id, c, "cart"))
      ensures carts == StoredAfter(old(carts), Inserted(old(carts), c.id, c, "cart"))
      ensures customers == old(customers) && products == old(products) && transactions == old(transactions)
    {
      if c.id in carts {
        return Some(NewAlreadyExistsError("cart"));
      }
      carts := carts[c.id := c];
      err := None;
    }

    function GetCart(id: string): (r: Result<CartData>)
      reads this
      ensures r.Ok? <==> id in carts
      ensures r.Ok? ==> r.value == carts[id]
      ensures r.Err? ==> r.error == NewNotFoundError("cart") && IsErrorCode(r.error, NotFound)
    {
      Found(carts, id, "cart")
    }

    method UpdateCart(c: CartData) returns (err: Option<Error>)
      modifies this
      requires Valid()
      ensures Valid()
      ensures err == ErrorOf(Replaced(old(carts), c.id, c, "cart"))
      ensures carts == StoredAfter(old(carts), Replaced(old(carts), c.id, c, "cart"))
      ensures customers == old(customers) && products == old(products) && transactions == old(transactions)
    {
      if c.id !in carts {
        return Some(NewNotFoundError("cart"));
      }
      carts := carts[c.id := c];
      err := None;
    }

    /** `GetCartByCustomer`: the first visited cart of the customer, or `NOT_FOUND` when they have none. */
    method GetCartByCustomer(customerId: string, order: seq<string>) returns (r: Result<CartData>)
      requires Enumerates(order, carts.Keys)
      ensures r.Err? <==> forall k :: k in carts ==> carts[k].customerId != customerId
      ensures r.Err? ==> r.error == NewNotFoundError("cart")
      ensures r.Ok? ==> r.value.customerId == customerId && r.value in carts.Values
      ensures r.Ok? ==> r.value == carts[order[FirstOfCustomer(carts, order, customerId)]]
    {
      var i := 0;
      while i < |order|
        invariant 0 <= i <= |order|
        invariant forall j :: 0 <= j < i ==> carts[order[j]].customerId != customerId
      {
        var c := carts[order[i]];
        if c.customerId == customerId {
          assert FirstOfCustomer(carts, order, customerId) == i by {
            FirstOfCustomerIs(carts, order, customerId, i);
          }
          assert carts[order[i]] == c;
          return Ok(c);
        }
        i := i + 1;
      }
      forall k | k in carts
        ensures carts[k].customerId != customerId
      {
        var j :| 0 <= j < |order| && order[j] == k;
      }
      r := Err(NewNotFoundError("cart"));
    }

    method CreateTransaction(t: Transaction) returns (err: Option<Error>)
      modifies this
      requires Valid()
      ensures Valid()
      ensures err == ErrorOf(Inserted(old(transactions), t.id, t, "transaction"))
      ensures transactions == StoredAfter(old(transactions), Inserted(old(transactions), t.id, t, "transaction"))
      ensures customers == old(customers) && products == old(products) && carts == old(carts)
    {
      if t.id in transactions {
        return Some(NewAlreadyExistsError("transaction"));
      }
      transactions := transactions[t.id := t];
      err := None;
    }

    function GetTransaction(id: string): (r: Result<Transaction>)
      reads this
      ensures r.Ok? <==> id in transactions
      ensures r.Ok? ==> r.value == transactions[id]
      ensures r.Err? ==> r.error == NewNotFoundError("transaction") && IsErrorCode(r.error, NotFound)
    {
      Found(transactions, id, "transaction")
    }

    /** `ListTransactionsByCustomer`: that customer's transactions in visiting order, then the page. */
    method ListTransactionsByCustomer(customerId: string, limit: int, offset: int, order: seq<string>)
      returns (page: seq<Transaction>)
      requires Enumerates(order, transactions.Keys)
      requires PageDefined(|OwnedBy(transactions, order, customerId)|, limit, offset)
      ensures page == Page(OwnedBy(transactions, order, customerId), limit, offset)
      ensures forall t :: t in page ==> t.customerId == customerId && t in transactions.Values
    {
      var owned: seq<Transaction> := [];
      var i := 0;
      while i < |order|
        invariant 0 <= i <= |order|
        invariant owned == OwnedBy(transactions, order[..i], customerId)
      {
        assert order[..i + 1][..i] == order[..i];
        var t := transactions[order[i]];
        if t.customerId == customerId {
          owned := owned + [t];
        }
        i := i + 1;
      }
      assert order[..|order|] == order;
      page := Paginate(owned, limit, offset);
      OwnedByExactly(transactions, order, customerId);
      PageIsWindow(owned, limit, offset);
      forall t | t in page
        ensures t in owned
      {
        var j :| 0 <= j < |page| && page[j] == t;
        assert t == owned[offset + j];
      }
    }
  }

  // ---------------------------------------------------------------- the loops the listings share

  /** The copy loop of the `List*` operations: each visited entry appended in turn. */
  method Collect<V>(m: map<string, V>, order: seq<string>) returns (all: seq<V>)
    requires forall k :: k in order ==> k in m
    ensures all == Listed(m, order)
  {
    all := [];
    var i := 0;
    while i < |order|
      invariant 0 <= i <= |order|
      invariant all == Listed(m, order[..i])
    {
      assert order[..i + 1][..i] == order[..i];
      all := all + [m[order[i]]];
      i := i + 1;
    }
    assert order[..|order|] == order;
  }

  /** The slicing the `List*` operations end with. */
  method Paginate<T>(xs: seq<T>, limit: int, offset: int) returns (page: seq<T>)
    requires PageDefined(|xs|, limit, offset)
    ensures page == Page(xs, limit, offset)
  {
    var start := offset;
    var end := offset + limit;
    if start >= |xs| {
      return [];
    }
    if end > |xs| {
      end := |xs|;
    }
    page := xs[start..end];
  }

  lemma {:induction false} FirstWithEmailIs(m: map<string, Customer>, order: seq<string>, email: string, i: nat)
    requires forall key :: key in order ==> key in m
    requires i < |order| && m[order[i]].email == email
    requires forall j :: 0 <= j < i ==> m[order[j]].email != email
    ensures FirstWithEmail(m, order, email) == i
  {
    if i > 0 {
      FirstWithEmailIs(m, order[1..], email, i - 1);
    }
  }

  lemma {:induction false} FirstOfCustomerIs(m: map<string, CartData>, order: seq<string>, customerId: string, i: nat)
    requires forall key :: key in order ==> key in m
    requires i < |order| && m[order[i]].customerId == customerId
    requires forall j :: 0 <= j < i ==> m[order[j]].customerId != customerId
    ensures FirstOfCustomer(m, order, customerId) == i
  {
    if i > 0 {
      FirstOfCustomerIs(m, order[1..], customerId, i - 1);
    }
  }
}
