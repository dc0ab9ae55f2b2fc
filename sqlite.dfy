/**
 * The SQLite store (SQLiteDatabase): three tables held as rows in primary-key order.
 * AddToCart and RemoveFromCart change the cart as AddLine and RemoveLine of module
 * Tables specify; CreateCustomer and AddProduct append one row under the next id; the
 * other methods change no table. A statement can also fail for reasons outside the tables (the
 * connection, the disk); the `io` parameter says whether the reading and the writing
 * statement of a call fail that way. A failed statement changes nothing.
 */
module Sqlite {
  import opened Results
  import opened Models
  import opened Tables

  /** The gorm error a store error wraps. */
  datatype DbError = RecordNotFound | ConnectionFailed

  /** Which statement failed: one per message the store wraps its errors in. */
  datatype Op =
    | QueryCustomer | CreateCustomer
    | QueryCartItem | UpdateCartItem | InsertCartItem | DeleteCartItem | QueryCartItems
    | AddProduct | QueryProducts

  datatype StoreError = StoreError(op: Op, cause: DbError)

  /** Whether the reading and the writing statement of one call fail outside the tables. */
  datatype Io = Io(readFails: bool, writeFails: bool)

  /** A call made on the store, as a mock would record it. */
  datatype Call =
    | GetCustomerCall(id: int)
    | GetCustomerByEmailCall(email: string)
    | CreateCustomerCall(email: string, name: string, hash: string)
    | AddToCartCall(customerId: int, productId: int, quantity: int)
    | RemoveFromCartCall(customerId: int, productId: int)
    | GetCartItemsCall(customerId: int)
    | AddProductCall(name: string, price: int)
    | SearchProductsCall(filter: Option<string>)

  /** What AddToCart reports: a failed query, a failed update of the line found, a failed insert. */
  function AddToCartOutcome(cart: seq<CartLine>, c: int, p: int, io: Io): (r: Outcome<StoreError>)
    ensures r.Pass? <==> !io.readFails && !io.writeFails
    ensures io.readFails ==> r == Fail(StoreError(QueryCartItem, ConnectionFailed))
    ensures !io.readFails && io.writeFails ==>
      r == Fail(StoreError(if Quantity(cart, c, p).Some? then UpdateCartItem else InsertCartItem, ConnectionFailed))
    ensures r.Fail? ==> r.error.cause == ConnectionFailed
    ensures r.Fail? && r.error.op == UpdateCartItem ==> Quantity(cart, c, p).Some?
    ensures r.Fail? && r.error.op == InsertCartItem ==> Quantity(cart, c, p).None?
  {
    if io.readFails then Fail(StoreError(QueryCartItem, ConnectionFailed))
    else if io.writeFails then
      Fail(StoreError(if Quantity(cart, c, p).Some? then UpdateCartItem else InsertCartItem, ConnectionFailed))
    else Pass
  }

  /** What RemoveFromCart reports: the query fails or finds no line, or the delete or update fails. */
  function RemoveFromCartOutcome(cart: seq<CartLine>, c: int, p: int, io: Io): (r: Outcome<StoreError>)
    ensures r.Pass? <==> !io.readFails && !io.writeFails && Quantity(cart, c, p).Some?
    ensures io.readFails ==> r == Fail(StoreError(QueryCartItem, ConnectionFailed))
    ensures r == Fail(StoreError(QueryCartItem, RecordNotFound)) <==> !io.readFails && Quantity(cart, c, p).None?
    ensures !io.readFails && io.writeFails && Quantity(cart, c, p).Some? ==>
      r == Fail(StoreError(if Quantity(cart, c, p) == Some(1) then DeleteCartItem else UpdateCartItem, ConnectionFailed))
    ensures r.Fail? && r.error.op == DeleteCartItem ==> Quantity(cart, c, p) == Some(1)
    ensures r.Fail? && r.error.op == UpdateCartItem ==> Quantity(cart, c, p).Some? && Quantity(cart, c, p) != Some(1)
  {
    if io.readFails then Fail(StoreError(QueryCartItem, ConnectionFailed))
    else if Quantity(cart, c, p).None? then Fail(StoreError(QueryCartItem, RecordNotFound))
    else if io.writeFails then
      Fail(StoreError(if Quantity(cart, c, p) == Some(1) then DeleteCartItem else UpdateCartItem, ConnectionFailed))
    else Pass
  }

  class SQLiteDatabase {
    var customers: seq<Customer>
    var products: seq<Product>
    var cartItems: seq<CartLine>
    /** The ids the next inserts receive. */
    var nextCustomerId: nat
    var nextProductId: nat
    /** Every call made on the store, oldest first. */
    ghost var calls: seq<Call>

    ghost predicate Valid()
      reads this
    {
      && CustomerIdsAssigned(customers, nextCustomerId) && nextCustomerId >= 1
      && ProductIdsAssigned(products, nextProductId) && nextProductId >= 1
      && UniqueLines(cartItems)
    }

    /** A freshly migrated database: empty tables, ids starting at 1. */
    constructor ()
      ensures Valid()
      ensures customers == [] && products == [] && cartItems == [] && calls == []
      ensures nextCustomerId == 1 && nextProductId == 1
    {
      customers, products, cartItems := [], [], [];
      nextCustomerId, nextProductId := 1, 1;
      calls := [];
    }

    method GetCustomer(id: int, io: Io) returns (r: Result<Customer, StoreError>)
      modifies this`calls
      ensures calls == old(calls) + [GetCustomerCall(id)]
      ensures r == if io.readFails then Err(StoreError(QueryCustomer, ConnectionFailed))
        else match CustomerById(customers, id)
          case None => Err(StoreError(QueryCustomer, RecordNotFound))
          case Some(c) => Ok(c)
    {
      calls := calls + [GetCustomerCall(id)];
      if io.readFails {
        return Err(StoreError(QueryCustomer, ConnectionFailed));
      }
      match CustomerById(customers, id)
      case None => r := Err(StoreError(QueryCustomer, RecordNotFound));
      case Some(c) => r := Ok(c);
    }

    method GetCustomerByEmail(email: string, io: Io) returns (r: Result<Customer, StoreError>)
      modifies this`calls
      ensures calls == old(calls) + [GetCustomerByEmailCall(email)]
      ensures r == if io.readFails then Err(StoreError(QueryCustomer, ConnectionFailed))
        else match CustomerByEmail(customers, email)
          case None => Err(StoreError(QueryCustomer, RecordNotFound))
          case Some(c) => Ok(c)
    {
      calls := calls + [GetCustomerByEmailCall(email)];
      if io.readFails {
        return Err(StoreError(QueryCustomer, ConnectionFailed));
      }
      match CustomerByEmail(customers, email)
      case None => r := Err(StoreError(QueryCustomer, RecordNotFound));
      case Some(c) => r := Ok(c);
    }

    /** Inserts a customer under a fresh id; an email already present is inserted again. */
    method CreateCustomer(email: string, name: string, hash: string, io: Io) returns (r: Result<Customer, StoreError>)
      requires Valid()
      modifies this`customers, this`nextCustomerId, this`calls
      ensures Valid()
      ensures calls == old(calls) + [CreateCustomerCall(email, name, hash)]
      ensures io.writeFails ==>
        r == Err(StoreError(Op.CreateCustomer, ConnectionFailed))
        && customers == old(customers) && nextCustomerId == old(nextCustomerId)
      ensures !io.writeFails ==>
        r == Ok(Customer(old(nextCustomerId), email, hash, name))
        && customers == old(customers) + [r.value] && nextCustomerId == old(nextCustomerId) + 1
        && CustomerById(customers, r.value.id) == Some(r.value)
    {
      calls := calls + [CreateCustomerCall(email, name, hash)];
      if io.writeFails {
        return Err(StoreError(Op.CreateCustomer, ConnectionFailed));
      }
      var c := Customer(nextCustomerId, email, hash, name);
      CreatedCustomerFound(customers, nextCustomerId, email, hash, name);
      customers := customers + [c];
      nextCustomerId := nextCustomerId + 1;
      r := Ok(c);
    }

    method AddToCart(customerId: int, productId: int, quantity: int, io: Io) returns (r: Outcome<StoreError>)
      requires Valid()
      modifies this`cartItems, this`calls
      ensures Valid()
      ensures calls == old(calls) + [AddToCartCall(customerId, productId, quantity)]
      ensures r == AddToCartOutcome(old(cartItems), customerId, productId, io)
      ensures cartItems == if r.Pass? then AddLine(old(cartItems), customerId, productId, quantity) else old(cartItems)
    {
      calls := calls + [AddToCartCall(customerId, productId, quantity)];
      if io.readFails {
        return Fail(StoreError(QueryCartItem, ConnectionFailed));
      }
      AddLineKeepsUnique(cartItems, customerId, productId, quantity);
      var found := IndexOf(cartItems, LineKey, (customerId, productId));
      if found.Some? {
        if io.writeFails {
          return Fail(StoreError(UpdateCartItem, ConnectionFailed));
        }
        var line := cartItems[found.value];
        cartItems := cartItems[found.value := line.(quantity := line.quantity + quantity)];
        return Pass;
      }
      if io.writeFails {
        return Fail(StoreError(InsertCartItem, ConnectionFailed));
      }
      cartItems := cartItems + [CartLine(customerId, productId, quantity)];
      r := Pass;
    }

    method RemoveFromCart(customerId: int, productId: int, io: Io) returns (r: Outcome<StoreError>)
      requires Valid()
      modifies this`cartItems, this`calls
      ensures Valid()
      ensures calls == old(calls) + [RemoveFromCartCall(customerId, productId)]
      ensures r == RemoveFromCartOutcome(old(cartItems), customerId, productId, io)
      ensures cartItems == if r.Pass? then RemoveLine(old(cartItems), customerId, productId).value else old(cartItems)
    {
      calls := calls + [RemoveFromCartCall(customerId, productId)];
      if io.readFails {
        return Fail(StoreError(QueryCartItem, ConnectionFailed));
      }
      var found := IndexOf(cartItems, LineKey, (customerId, productId));
      if found.None? {
        return Fail(StoreError(QueryCartItem, RecordNotFound));
      }
      RemoveLineQuantity(cartItems, customerId, productId, customerId, productId);
      var k := found.value;
      if cartItems[k].quantity == 1 {
        if io.writeFails {
          return Fail(StoreError(DeleteCartItem, ConnectionFailed));
        }
        cartItems := cartItems[..k] + cartItems[k + 1..];
        return Pass;
      }
      if io.writeFails {
        return Fail(StoreError(UpdateCartItem, ConnectionFailed));
      }
      cartItems := cartItems[k := cartItems[k].(quantity := cartItems[k].quantity - 1)];
      r := Pass;
    }

    method GetCartItems(customerId: int, io: Io) returns (r: Result<seq<CartItem>, StoreError>)
      modifies this`calls
      ensures calls == old(calls) + [GetCartItemsCall(customerId)]
      ensures r == if io.readFails then Err(StoreError(QueryCartItems, ConnectionFailed))
        else Ok(ItemsOf(cartItems, products, customerId))
    {
      calls := calls + [GetCartItemsCall(customerId)];
      if io.readFails {
        return Err(StoreError(QueryCartItems, ConnectionFailed));
      }
      r := Ok(ItemsOf(cartItems, products, customerId));
    }

    /** Inserts a product under a fresh id and returns it with that id, as gorm fills in the pointer's ID. */
    method AddProduct(name: string, price: int, io: Io) returns (r: Result<Product, StoreError>)
      requires Valid()
      modifies this`products, this`nextProductId, this`calls
      ensures Valid()
      ensures calls == old(calls) + [AddProductCall(name, price)]
      ensures io.writeFails ==>
        r == Err(StoreError(Op.AddProduct, ConnectionFailed))
        && products == old(products) && nextProductId == old(nextProductId)
      ensures !io.writeFails ==>
        r == Ok(Product(old(nextProductId), name, price))
        && products == old(products) + [r.value] && nextProductId == old(nextProductId) + 1
    {
      calls := calls + [AddProductCall(name, price)];
      if io.writeFails {
        return Err(StoreError(Op.AddProduct, ConnectionFailed));
      }
      var p := Product(nextProductId, name, price);
      AddedProductKeepsIdsAssigned(products, nextProductId, name, price);
      products := products + [p];
      nextProductId := nextProductId + 1;
      r := Ok(p);
    }

    method SearchProducts(name: Option<string>, io: Io) returns (r: Result<seq<Product>, StoreError>)
      modifies this`calls
      ensures calls == old(calls) + [SearchProductsCall(name)]
      ensures r == if io.readFails then Err(StoreError(QueryProducts, ConnectionFailed))
        else Ok(Filter(products, name))
    {
      calls := calls + [SearchProductsCall(name)];
      if io.readFails {
        return Err(StoreError(QueryProducts, ConnectionFailed));
      }
      r := Ok(Filter(products, name));
    }
  }
}
