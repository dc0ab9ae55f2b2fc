/**
 * The GraphQL resolvers: Products routes a product query to the store or to the search
 * index and projects the products it gets back; AddToCart and RemoveFromCart check the
 * caller, parse the product id, change the cart in the store, read the cart back and
 * project it. The authenticated customer is an input (None when the request carries no
 * valid token).
 */
module Resolvers {
  import opened Results
  import opened Strconv
  import opened Models
  import GraphModel
  import Tables
  import Sqlite
  import Search

  datatype ResolverError =
    | AccessDenied
    | InvalidProductId
    | StoreFailed(cause: Sqlite.StoreError)
    | SearcherFailed(reason: Search.IndexError)
      /** The panic of reading a product through a nil slot of the searcher's result. */
    | NilProduct

  const Two64: int := 0x1_0000_0000_0000_0000

  /** Go's int(id) for the customer's uint id. */
  function CustomerKey(id: nat): (k: int)
    requires id < Two64
    ensures IsInt(k)
    ensures id <= MaxInt ==> k == id
    ensures id > MaxInt ==> k == id - Two64
  {
    if id <= MaxInt then id else id - Two64
  }

  /** The backend Products asks: the store with its filter, or the search index with a term. */
  datatype Route = ToStorage(filter: Option<string>) | ToSearcher(term: string)

  /** A missing or empty name goes to the store, any other name to the search index. */
  function RouteFor(name: Option<string>): (r: Route)
    ensures r.ToStorage? <==> name.None? || name.value == ""
    ensures r.ToStorage? ==> r.filter == name
    ensures r.ToSearcher? ==> name == Some(r.term) && r.term != ""
  {
    if name.None? || name.value == "" then ToStorage(name) else ToSearcher(name.value)
  }

  /** Whatever reaches the store path is unfiltered: it lists every product. */
  lemma StorageRouteListsAll(products: seq<Product>, name: Option<string>)
    requires RouteFor(name).ToStorage?
    ensures Tables.Filter(products, RouteFor(name).filter) == products
  {
  }

  /** A product as the API returns it: the id in decimal, name and price copied. */
  function Present(p: Product): (r: GraphModel.Product)
    ensures r.name == p.name && r.price == p.price
    ensures r.id == FormatInt(p.id)
  {
    GraphModel.Product(FormatInt(p.id), p.name, p.price)
  }

  /** The store's products as the slots the projection reads, none of them nil. */
  function Refs(ps: seq<Product>): (refs: seq<Option<Product>>)
    ensures |refs| == |ps| && forall i :: 0 <= i < |ps| ==> refs[i] == Some(ps[i])
  {
    seq(|ps|, i requires 0 <= i < |ps| => Some(ps[i]))
  }

  /** The projection of Products' result list: each product presented, in order; a nil slot panics. */
  function Projected(products: seq<Option<Product>>): (r: Result<seq<GraphModel.Product>, ResolverError>)
    ensures r.Ok? <==> forall i :: 0 <= i < |products| ==> products[i].Some?
    ensures r.Err? ==> r.error == NilProduct
    ensures r.Ok? ==> |r.value| == |products| && forall i :: 0 <= i < |products| ==> r.value[i] == Present(products[i].value)
  {
    if forall i :: 0 <= i < |products| ==> products[i].Some? then
      Ok(seq(|products|, i requires 0 <= i < |products| && products[i].Some? => Present(products[i].value)))
    else Err(NilProduct)
  }

  /** The loop of Products that fills the result slice, one API product per slot. */
  method ProjectProducts(products: seq<Option<Product>>) returns (r: Result<seq<GraphModel.Product>, ResolverError>)
    ensures r.Ok? <==> forall i :: 0 <= i < |products| ==> products[i].Some?
    ensures r.Err? ==> r.error == NilProduct
    ensures r.Ok? ==> |r.value| == |products| && forall i :: 0 <= i < |products| ==> r.value[i] == Present(products[i].value)
  {
    var res := new GraphModel.Product[|products|](_ => GraphModel.Product("", "", 0));
    var i := 0;
    while i < |products|
      invariant 0 <= i <= |products|
      invariant forall j :: 0 <= j < i ==> products[j].Some? && res[j] == Present(products[j].value)
    {
      if products[i].None? {
        return Err(NilProduct);
      }
      res[i] := Present(products[i].value);
      i := i + 1;
    }
    r := Ok(res[..]);
  }

  /** A projection meeting ProjectProducts' contract is the projection Projected describes. */
  lemma ProjectionIsProjected(products: seq<Option<Product>>, r: Result<seq<GraphModel.Product>, ResolverError>)
    requires r.Ok? <==> forall i :: 0 <= i < |products| ==> products[i].Some?
    requires r.Err? ==> r.error == NilProduct
    requires r.Ok? ==> |r.value| == |products| && forall i :: 0 <= i < |products| ==> r.value[i] == Present(products[i].value)
    ensures r == Projected(products)
  {
    if r.Ok? {
      assert r.value == Projected(products).value;
    }
  }

  /** An id the API returns parses back, with the parse applied to incoming ids, to the product's id. */
  lemma PresentedIdParsesBack(p: Product)
    requires p.id <= MaxInt
    ensures Atoi(Present(p).id) == Some(p.id)
  {
    AtoiFormatInt(p.id);
  }

  /** One cart line as the API returns it: the line's product id in decimal, the joined product's name and price, the line's quantity. */
  function InCart(item: CartItem): (r: GraphModel.ProductInCart)
    ensures r.quantity == item.line.quantity
    ensures r.product.name == item.product.name && r.product.price == item.product.price
    ensures r.product.id == FormatInt(item.line.productId)
  {
    GraphModel.ProductInCart(
      GraphModel.Product(FormatInt(item.line.productId), item.product.name, item.product.price),
      item.line.quantity)
  }

  /** The cart the cart resolvers return for the items read back from the store. */
  function CartView(items: seq<CartItem>): (cart: GraphModel.Cart)
    ensures |cart.products| == |items|
    ensures forall i :: 0 <= i < |items| ==> cart.products[i] == InCart(items[i])
  {
    GraphModel.Cart(seq(|items|, i requires 0 <= i < |items| => InCart(items[i])))
  }

  /** The loop of the cart resolvers that fills the cart, one entry per stored line, in order. */
  method ProjectCart(items: seq<CartItem>) returns (cart: GraphModel.Cart)
    ensures |cart.products| == |items|
    ensures forall i :: 0 <= i < |items| ==> cart.products[i] == InCart(items[i])
  {
    var entries := new GraphModel.ProductInCart[|items|];
    var i := 0;
    while i < |items|
      invariant 0 <= i <= |items|
      invariant forall j :: 0 <= j < i ==> entries[j] == InCart(items[j])
    {
      entries[i] := InCart(items[i]);
      i := i + 1;
    }
    cart := GraphModel.Cart(entries[..]);
    assert forall j :: 0 <= j < |items| ==> cart.products[j] == entries[j];
  }

  /** A cart entry's id parses back to the product id of the line it shows. */
  lemma CartEntryIdParsesBack(item: CartItem)
    requires IsInt(item.line.productId)
    ensures Atoi(InCart(item).product.id) == Some(item.line.productId)
  {
    AtoiFormatInt(item.line.productId);
  }

  /**
   * After AddToCart(c, p, q), the cart read back shows p with the quantity it had
   * (zero when absent) plus q, and with the name and price of the stored product p.
   */
  lemma CartShowsAddedQuantity(cart: seq<CartLine>, products: seq<Product>, c: int, p: int, q: int)
    requires Tables.UniqueLines(cart)
    ensures var view := CartView(Tables.ItemsOf(Tables.AddLine(cart, c, p, q), products, c));
      var product := Tables.Join(products, p);
      exists i :: 0 <= i < |view.products| &&
        view.products[i] == GraphModel.ProductInCart(
          GraphModel.Product(FormatInt(p), product.name, product.price), Tables.QuantityOrZero(cart, c, p) + q)
  {
    var after := Tables.AddLine(cart, c, p, q);
    Tables.AddLineKeepsUnique(cart, c, p, q);
    Tables.AddLineQuantity(cart, c, p, q, c, p);
    Tables.ItemsArePresentPairs(after, products, c, p);
    var items := Tables.ItemsOf(after, products, c);
    var i :| 0 <= i < |items| && items[i].line == CartLine(c, p, Tables.QuantityOrZero(cart, c, p) + q);
    assert CartView(items).products[i] == InCart(items[i]);
  }

  /** After removing the last unit of p, the cart read back no longer shows p. */
  lemma CartDropsLastUnit(cart: seq<CartLine>, products: seq<Product>, c: int, p: int)
    requires Tables.UniqueLines(cart) && Tables.Quantity(cart, c, p) == Some(1)
    ensures var view := CartView(Tables.ItemsOf(Tables.RemoveLine(cart, c, p).value, products, c));
      forall i :: 0 <= i < |view.products| ==> view.products[i].product.id != FormatInt(p)
  {
    var after := Tables.RemoveLine(cart, c, p).value;
    Tables.RemoveLastUnitThenNotFound(cart, c, p);
    Tables.RemoveLineQuantity(cart, c, p, c, p);
    Tables.ItemsArePresentPairs(after, products, c, p);
    var items := Tables.ItemsOf(after, products, c);
    forall i | 0 <= i < |items|
      ensures CartView(items).products[i].product.id != FormatInt(p)
    {
      var l := items[i].line;
      assert Tables.Quantity(after, c, l.productId).Some?;
      FormatIntInjective(l.productId, p);
    }
  }

  /**
   * The add-to-cart scenario of the resolver tests: customer 1 adds one unit of product 1,
   * "test" at 1000, to an empty cart, and gets back that one entry with id "1".
   */
  lemma AddToEmptyCartScenario()
    ensures CartView(Tables.ItemsOf(Tables.AddLine([], 1, 1, 1), [Product(1, "test", 1000)], 1)) ==
      GraphModel.Cart([GraphModel.ProductInCart(GraphModel.Product("1", "test", 1000), 1)])
  {
    var products := [Product(1, "test", 1000)];
    assert Tables.AddLine([], 1, 1, 1) == [CartLine(1, 1, 1)];
    assert Tables.Join(products, 1) == Product(1, "test", 1000);
    assert Tables.ItemsOf([CartLine(1, 1, 1)], products, 1) == [CartItem(CartLine(1, 1, 1), Product(1, "test", 1000))];
    assert Digits(1) == "1";
  }

  class Resolver {
    const storage: Sqlite.SQLiteDatabase
    const searcher: Search.RediSearch

    constructor (storage: Sqlite.SQLiteDatabase, searcher: Search.RediSearch)
      ensures this.storage == storage && this.searcher == searcher
    {
      this.storage := storage;
      this.searcher := searcher;
    }

    /** The tail both cart resolvers share: read the caller's cart back and project it. */
    method ReadCart(c: int, readIo: Sqlite.Io) returns (r: Result<GraphModel.Cart, ResolverError>)
      modifies storage`calls
      ensures storage.calls == old(storage.calls) + [Sqlite.GetCartItemsCall(c)]
      ensures r == if readIo.readFails then Err(StoreFailed(Sqlite.StoreError(Sqlite.QueryCartItems, Sqlite.ConnectionFailed)))
        else Ok(CartView(Tables.ItemsOf(storage.cartItems, storage.products, c)))
    {
      var items := storage.GetCartItems(c, readIo);
      if items.Err? {
        return Err(StoreFailed(items.error));
      }
      var cart := ProjectCart(items.value);
      assert cart.products == CartView(items.value).products;
      r := Ok(cart);
    }

    /**
     * Checks the caller, parses the product id, adds to the caller's cart, reads the cart
     * back and returns it; the first failure is returned and nothing after it is called.
     */
    method AddToCart(principal: Option<nat>, input: GraphModel.AddToCard, mutateIo: Sqlite.Io, readIo: Sqlite.Io)
      returns (r: Result<GraphModel.Cart, ResolverError>)
      requires storage.Valid()
      requires principal.Some? ==> principal.value < Two64
      modifies storage`cartItems, storage`calls
      ensures storage.Valid()
      ensures principal.None? ==>
        r == Err(AccessDenied) && storage.cartItems == old(storage.cartItems) && storage.calls == old(storage.calls)
      ensures principal.Some? && Atoi(input.productId).None? ==>
        r == Err(InvalidProductId) && storage.cartItems == old(storage.cartItems) && storage.calls == old(storage.calls)
      ensures principal.Some? && Atoi(input.productId).Some? ==>
        var c, p := CustomerKey(principal.value), Atoi(input.productId).value;
        var added := Sqlite.AddToCartOutcome(old(storage.cartItems), c, p, mutateIo);
        if added.Fail? then
          && r == Err(StoreFailed(added.error))
          && storage.cartItems == old(storage.cartItems)
          && storage.calls == old(storage.calls) + [Sqlite.AddToCartCall(c, p, input.quantity)]
        else
          && storage.cartItems == Tables.AddLine(old(storage.cartItems), c, p, input.quantity)
          && storage.calls == old(storage.calls) + [Sqlite.AddToCartCall(c, p, input.quantity), Sqlite.GetCartItemsCall(c)]
          && r == if readIo.readFails then Err(StoreFailed(Sqlite.StoreError(Sqlite.QueryCartItems, Sqlite.ConnectionFailed)))
            else Ok(CartView(Tables.ItemsOf(storage.cartItems, storage.products, c)))
    {
      if principal.None? {
        return Err(AccessDenied);
      }
      var c := CustomerKey(principal.value);
      var p := Atoi(input.productId);
      if p.None? {
        return Err(InvalidProductId);
      }
      r := AddThenRead(c, p.value, input.quantity, mutateIo, readIo);
    }

    /** AddToCart after its checks: the store mutation, then the cart read back unless it failed. */
    method AddThenRead(c: int, p: int, quantity: int, mutateIo: Sqlite.Io, readIo: Sqlite.Io)
      returns (r: Result<GraphModel.Cart, ResolverError>)
      requires storage.Valid()
      modifies storage`cartItems, storage`calls
      ensures storage.Valid()
      ensures var added := Sqlite.AddToCartOutcome(old(storage.cartItems), c, p, mutateIo);
        if added.Fail? then
          && r == Err(StoreFailed(added.error))
          && storage.cartItems == old(storage.cartItems)
          && storage.calls == old(storage.calls) + [Sqlite.AddToCartCall(c, p, quantity)]
        else
          && storage.cartItems == Tables.AddLine(old(storage.cartItems), c, p, quantity)
          && storage.calls == old(storage.calls) + [Sqlite.AddToCartCall(c, p, quantity), Sqlite.GetCartItemsCall(c)]
          && r == if readIo.readFails then Err(StoreFailed(Sqlite.StoreError(Sqlite.QueryCartItems, Sqlite.ConnectionFailed)))
            else Ok(CartView(Tables.ItemsOf(storage.cartItems, storage.products, c)))
    {
      var added := storage.AddToCart(c, p, quantity, mutateIo);
      if added.Fail? {
        return Err(StoreFailed(added.error));
      }
      r := ReadCart(c, readIo);
    }

    /**
     * Checks the caller, parses the product id, removes one unit from the caller's cart,
     * reads the cart back and returns it; the first failure is returned and nothing after
     * it is called.
     */
    method RemoveFromCart(principal: Option<nat>, productId: string, mutateIo: Sqlite.Io, readIo: Sqlite.Io)
      returns (r: Result<GraphModel.Cart, ResolverError>)
      requires storage.Valid()
      requires principal.Some? ==> principal.value < Two64
      modifies storage`cartItems, storage`calls
      ensures storage.Valid()
      ensures principal.None? ==>
        r == Err(AccessDenied) && storage.cartItems == old(storage.cartItems) && storage.calls == old(storage.calls)
      ensures principal.Some? && Atoi(productId).None? ==>
        r == Err(InvalidProductId) && storage.cartItems == old(storage.cartItems) && storage.calls == old(storage.calls)
      ensures principal.Some? && Atoi(productId).Some? ==>
        var c, p := CustomerKey(principal.value), Atoi(productId).value;
        var removed := Sqlite.RemoveFromCartOutcome(old(storage.cartItems), c, p, mutateIo);
        if removed.Fail? then
          && r == Err(StoreFailed(removed.error))
          && storage.cartItems == old(storage.cartItems)
          && storage.calls == old(storage.calls) + [Sqlite.RemoveFromCartCall(c, p)]
        else
          && storage.cartItems == Tables.RemoveLine(old(storage.cartItems), c, p).value
          && storage.calls == old(storage.calls) + [Sqlite.RemoveFromCartCall(c, p), Sqlite.GetCartItemsCall(c)]
          && r == if readIo.readFails then Err(StoreFailed(Sqlite.StoreError(Sqlite.QueryCartItems, Sqlite.ConnectionFailed)))
            else Ok(CartView(Tables.ItemsOf(storage.cartItems, storage.products, c)))
    {
      if principal.None? {
        return Err(AccessDenied);
      }
      var c := CustomerKey(principal.value);
      var p := Atoi(productId);
      if p.None? {
        return Err(InvalidProductId);
      }
      r := RemoveThenRead(c, p.value, mutateIo, readIo);
    }

    /** RemoveFromCart after its checks: the store mutation, then the cart read back unless it failed. */
    method RemoveThenRead(c: int, p: int, mutateIo: Sqlite.Io, readIo: Sqlite.Io)
      returns (r: Result<GraphModel.Cart, ResolverError>)
      requires storage.Valid()
      modifies storage`cartItems, storage`calls
      ensures storage.Valid()
      ensures var removed := Sqlite.RemoveFromCartOutcome(old(storage.cartItems), c, p, mutateIo);
        if removed.Fail? then
          && r == Err(StoreFailed(removed.error))
          && storage.cartItems == old(storage.cartItems)
          && storage.calls == old(storage.calls) + [Sqlite.RemoveFromCartCall(c, p)]
        else
          && storage.cartItems == Tables.RemoveLine(old(storage.cartItems), c, p).value
          && storage.calls == old(storage.calls) + [Sqlite.RemoveFromCartCall(c, p), Sqlite.GetCartItemsCall(c)]
          && r == if readIo.readFails then Err(StoreFailed(Sqlite.StoreError(Sqlite.QueryCartItems, Sqlite.ConnectionFailed)))
            else Ok(CartView(Tables.ItemsOf(storage.cartItems, storage.products, c)))
    {
      var removed := storage.RemoveFromCart(c, p, mutateIo);
      if removed.Fail? {
        return Err(StoreFailed(removed.error));
      }
      r := ReadCart(c, readIo);
    }

    /**
     * Checks the caller, asks the backend RouteFor picks (never the other one, and with no
     * fallback when it fails) and projects the products it returns.
     */
    method Products(principal: Option<nat>, name: Option<string>, scanIo: Sqlite.Io, reply: Search.Reply)
      returns (r: Result<seq<GraphModel.Product>, ResolverError>)
      modifies storage`calls, searcher`searches
      ensures principal.None? ==>
        r == Err(AccessDenied) && storage.calls == old(storage.calls) && searcher.searches == old(searcher.searches)
      ensures principal.Some? && RouteFor(name).ToStorage? ==>
        && storage.calls == old(storage.calls) + [Sqlite.SearchProductsCall(name)]
        && searcher.searches == old(searcher.searches)
        && r == if scanIo.readFails then Err(StoreFailed(Sqlite.StoreError(Sqlite.QueryProducts, Sqlite.ConnectionFailed)))
          else Projected(Refs(Tables.Filter(storage.products, name)))
      ensures principal.Some? && RouteFor(name).ToSearcher? ==>
        && searcher.searches == old(searcher.searches) + [RouteFor(name).term]
        && storage.calls == old(storage.calls)
        && r == match Search.SearchResult(reply)
          case Err(e) => Err(SearcherFailed(e))
          case Ok(slots) => Projected(slots)
    {
      if principal.None? {
        return Err(AccessDenied);
      }
      var products: seq<Option<Product>>;
      if name.None? || name.value == "" {
        var stored := storage.SearchProducts(name, scanIo);
        if stored.Err? {
          return Err(StoreFailed(stored.error));
        }
        products := Refs(stored.value);
      } else {
        var found := searcher.SearchProducts(name.value, reply);
        if found.Err? {
          return Err(SearcherFailed(found.error));
        }
        products := found.value;
      }
      r := ProjectProducts(products);
      ProjectionIsProjected(products, r);
    }
  }
}
