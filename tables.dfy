/**
 * The three tables of the SQLite store as sequences of rows in primary-key order, and
 * what each statement of the store does to them, as functions. The class in module
 * Sqlite is proved against these; the lemmas here state what the store promises.
 */
module Tables {
  import opened Results
  import opened Models

  /**
   * The position of the first row whose key is k: the row gorm's First returns for a
   * WHERE on that key, since First orders by primary key.
   */
  function IndexOf<T, K(==)>(rows: seq<T>, key: T -> K, k: K): (r: Option<nat>)
    ensures r.Some? ==> r.value < |rows| && key(rows[r.value]) == k
    ensures r.Some? ==> forall j :: 0 <= j < r.value ==> key(rows[j]) != k
    ensures r.None? ==> forall j :: 0 <= j < |rows| ==> key(rows[j]) != k
  {
    if rows == [] then None
    else if key(rows[0]) == k then Some(0)
    else match IndexOf(rows[1..], key, k)
      case None => None
      case Some(j) => Some(j + 1)
  }

  /** Two tables whose rows have the same keys, position by position, find the same row. */
  lemma IndexOfSameKeys<T, K>(s: seq<T>, t: seq<T>, key: T -> K, k: K)
    requires |s| == |t|
    requires forall j :: 0 <= j < |s| ==> key(s[j]) == key(t[j])
    ensures IndexOf(s, key, k) == IndexOf(t, key, k)
  {
  }

  /** Appending a row finds it only when no earlier row has its key. */
  lemma IndexOfAppend<T, K>(s: seq<T>, v: T, key: T -> K, k: K)
    ensures IndexOf(s + [v], key, k) ==
      if IndexOf(s, key, k).Some? then IndexOf(s, key, k)
      else if key(v) == k then Some(|s|)
      else None
    decreases |s|
  {
    if s != [] {
      assert (s + [v])[1..] == s[1..] + [v];
      IndexOfAppend(s[1..], v, key, k);
    }
  }

  // ---------------------------------------------------------------- customers

  function CustomerId(c: Customer): int { c.id }

  function CustomerEmail(c: Customer): string { c.email }

  /** Ids assigned by the store: positive, below the next id to assign, increasing in table order. */
  ghost predicate CustomerIdsAssigned(customers: seq<Customer>, next: nat)
  {
    && (forall i :: 0 <= i < |customers| ==> 1 <= customers[i].id < next)
    && (forall i, j :: 0 <= i < j < |customers| ==> customers[i].id < customers[j].id)
  }

  /** The customer `WHERE id = ?` finds. */
  function CustomerById(customers: seq<Customer>, id: int): (r: Option<Customer>)
    ensures r.Some? ==> r.value in customers && r.value.id == id
    ensures r.None? ==> forall c :: c in customers ==> c.id != id
  {
    match IndexOf(customers, CustomerId, id)
    case None => None
    case Some(k) => Some(customers[k])
  }

  /** The customer `WHERE email = ?` finds first. */
  function CustomerByEmail(customers: seq<Customer>, email: string): (r: Option<Customer>)
    ensures r.Some? ==> r.value in customers && r.value.email == email
    ensures r.None? ==> forall c :: c in customers ==> c.email != email
  {
    match IndexOf(customers, CustomerEmail, email)
    case None => None
    case Some(k) => Some(customers[k])
  }

  /** A customer created with the next id is the one GetCustomer finds by that id, and ids stay assigned. */
  lemma CreatedCustomerFound(customers: seq<Customer>, next: nat, email: string, password: string, name: string)
    requires CustomerIdsAssigned(customers, next) && next >= 1
    ensures CustomerIdsAssigned(customers + [Customer(next, email, password, name)], next + 1)
    ensures CustomerById(customers + [Customer(next, email, password, name)], next) == Some(Customer(next, email, password, name))
  {
    var c := Customer(next, email, password, name);
    IndexOfAppend(customers, c, CustomerId, next);
  }

  /**
   * With ids increasing in table order, GetCustomerByEmail returns the customer with the
   * smallest id among those with that email: no email is unique in this store, and a later
   * registration with the same email never changes who is found.
   */
  lemma EmailFindsOldest(customers: seq<Customer>, next: nat, email: string, c: Customer)
    requires CustomerIdsAssigned(customers, next)
    requires c in customers && c.email == email
    ensures CustomerByEmail(customers, email).Some?
    ensures CustomerByEmail(customers, email).value.id <= c.id
  {
    var k := IndexOf(customers, CustomerEmail, email);
    var i :| 0 <= i < |customers| && customers[i] == c;
    assert CustomerEmail(customers[i]) == email;
    assert k.value <= i;
  }

  lemma LaterRegistrationKeepsFirst(customers: seq<Customer>, email: string, c: Customer)
    requires CustomerByEmail(customers, email).Some?
    ensures CustomerByEmail(customers + [c], email) == CustomerByEmail(customers, email)
  {
    IndexOfAppend(customers, c, CustomerEmail, email);
  }

  // ----------------------------------------------------------------- products

  function ProductId(p: Product): int { p.id }

  ghost predicate ProductIdsAssigned(products: seq<Product>, next: nat)
  {
    && (forall i :: 0 <= i < |products| ==> 1 <= products[i].id < next)
    && (forall i, j :: 0 <= i < j < |products| ==> products[i].id < products[j].id)
  }

  lemma AddedProductKeepsIdsAssigned(products: seq<Product>, next: nat, name: string, price: int)
    requires ProductIdsAssigned(products, next) && next >= 1
    ensures ProductIdsAssigned(products + [Product(next, name, price)], next + 1)
  {
  }

  /** s occurs in text starting at position i. */
  predicate OccursAt(text: string, s: string, i: int)
  {
    0 <= i && i + |s| <= |text| && text[i..i + |s|] == s
  }

  /** name LIKE '%s%', taken as plain substring containment: s occurs somewhere in text. */
  predicate Contains(text: string, s: string)
    decreases |text|
    ensures Contains(text, s) <==> exists i :: OccursAt(text, s, i)
  {
    if |s| > |text| then
      false
    else if text[..|s|] == s then
      assert OccursAt(text, s, 0);
      true
    else
      var rest := text[1..];
      assert forall j :: OccursAt(rest, s, j) ==> OccursAt(text, s, j + 1) by {
        forall j | OccursAt(rest, s, j) ensures OccursAt(text, s, j + 1) {
          assert text[j + 1..j + 1 + |s|] == rest[j..j + |s|];
        }
      }
      assert forall j :: OccursAt(text, s, j) ==> OccursAt(rest, s, j - 1) by {
        forall j | OccursAt(text, s, j) ensures OccursAt(rest, s, j - 1) {
          assert j != 0;
          assert text[j..j + |s|] == rest[j - 1..j - 1 + |s|];
        }
      }
      Contains(rest, s)
  }

  /** The products whose name contains s, in table order. */
  function WithNameContaining(products: seq<Product>, s: string): (r: seq<Product>)
    ensures forall p {:trigger p in r} :: p in r <==> p in products && Contains(p.name, s)
    ensures forall p {:trigger multiset(r)[p]} :: multiset(r)[p] == if Contains(p.name, s) then multiset(products)[p] else 0
    ensures s == "" ==> r == products
  {
    if products == [] then []
    else
      var head := if Contains(products[0].name, s) then [products[0]] else [];
      var rest := WithNameContaining(products[1..], s);
      assert products == [products[0]] + products[1..];
      assert multiset(head + rest) == multiset(head) + multiset(rest);
      head + rest
  }

  /** A one-row table: the row is listed, once, exactly when its name contains s. */
  lemma WithNameContainingOne(p: Product, s: string)
    ensures WithNameContaining([p], s) == if Contains(p.name, s) then [p] else []
  {
    assert [p][1..] == [];
  }

  /** The first row is listed ahead of the rest when its name contains s. */
  lemma WithNameContainingCons(products: seq<Product>, s: string)
    requires products != []
    ensures WithNameContaining(products, s) ==
      (if Contains(products[0].name, s) then [products[0]] else []) + WithNameContaining(products[1..], s)
  {
  }

  /** The rows of a table split in two are the first part's matches followed by the second's. */
  lemma {:induction false} WithNameContainingConcat(a: seq<Product>, b: seq<Product>, s: string)
    ensures WithNameContaining(a + b, s) == WithNameContaining(a, s) + WithNameContaining(b, s)
    decreases |a|
  {
    if a == [] {
      assert a + b == b;
    } else {
      var head := if Contains(a[0].name, s) then [a[0]] else [];
      var left, right := WithNameContaining(a[1..], s), WithNameContaining(b, s);
      assert (a + b)[0] == a[0] && (a + b)[1..] == a[1..] + b;
      WithNameContainingCons(a + b, s);
      WithNameContainingCons(a, s);
      WithNameContainingConcat(a[1..], b, s);
      assert head + (left + right) == (head + left) + right;
    }
  }

  /**
   * What SearchProducts returns: every product for no filter, else those whose name
   * contains the filter, so that the empty filter also returns every product.
   */
  function Filter(products: seq<Product>, name: Option<string>): (r: seq<Product>)
    ensures name.None? || name.value == "" ==> r == products
    ensures forall p :: p in r <==> p in products && (name.None? || Contains(p.name, name.value))
    ensures forall p {:trigger multiset(r)[p]} :: multiset(r)[p] == if name.None? || Contains(p.name, name.value) then multiset(products)[p] else 0
  {
    match name
    case None => products
    case Some(s) => WithNameContaining(products, s)
  }

  /** Filtering a table split in two filters each part and keeps their order. */
  lemma FilterConcat(a: seq<Product>, b: seq<Product>, name: Option<string>)
    ensures Filter(a + b, name) == Filter(a, name) + Filter(b, name)
  {
    if name.Some? {
      WithNameContainingConcat(a, b, name.value);
    }
  }

  /** The product a preload attaches to a line: the one with the line's id, or the zero product. */
  function Join(products: seq<Product>, productId: int): (p: Product)
    ensures (p in products && p.id == productId) || p == NoProduct
    ensures (forall q :: q in products ==> q.id != productId) ==> p == NoProduct
    ensures (exists q :: q in products && q.id == productId) ==> p in products && p.id == productId
  {
    match IndexOf(products, ProductId, productId)
    case None => NoProduct
    case Some(k) => products[k]
  }

  // --------------------------------------------------------------- cart lines

  function LineKey(l: CartLine): (int, int) { (l.customerId, l.productId) }

  /** At most one line per (customer, product). */
  ghost predicate UniqueLines(cart: seq<CartLine>)
  {
    forall i, j :: 0 <= i < j < |cart| ==> LineKey(cart[i]) != LineKey(cart[j])
  }

  /** The quantity held for (c, p), or None when the pair has no line. */
  function Quantity(cart: seq<CartLine>, c: int, p: int): (r: Option<int>)
    ensures r.Some? <==> exists i :: 0 <= i < |cart| && LineKey(cart[i]) == (c, p)
  {
    match IndexOf(cart, LineKey, (c, p))
    case None => None
    case Some(k) => Some(cart[k].quantity)
  }

  function QuantityOrZero(cart: seq<CartLine>, c: int, p: int): int
  {
    match Quantity(cart, c, p)
    case None => 0
    case Some(q) => q
  }

  /** In a cart with unique lines, each line is the one its pair finds. */
  lemma QuantityOfLine(cart: seq<CartLine>, i: nat)
    requires UniqueLines(cart) && i < |cart|
    ensures Quantity(cart, cart[i].customerId, cart[i].productId) == Some(cart[i].quantity)
  {
    var k := IndexOf(cart, LineKey, LineKey(cart[i]));
    assert LineKey(cart[i]) == (cart[i].customerId, cart[i].productId);
    assert k.Some? && k.value <= i;
  }

  /** AddToCart: raise an existing line by q, or append a new line holding q. */
  function AddLine(cart: seq<CartLine>, c: int, p: int, q: int): (r: seq<CartLine>)
    ensures Quantity(cart, c, p).Some? ==> |r| == |cart|
    ensures Quantity(cart, c, p).None? ==> r == cart + [CartLine(c, p, q)]
  {
    match IndexOf(cart, LineKey, (c, p))
    case Some(k) => cart[k := cart[k].(quantity := cart[k].quantity + q)]
    case None => cart + [CartLine(c, p, q)]
  }

  /**
   * AddToCart raises the pair's quantity by exactly q (from zero when it had no line)
   * and leaves every other pair's quantity as it was.
   */
  lemma AddLineQuantity(cart: seq<CartLine>, c: int, p: int, q: int, c': int, p': int)
    ensures Quantity(AddLine(cart, c, p, q), c', p') ==
      if (c', p') == (c, p) then Some(QuantityOrZero(cart, c, p) + q) else Quantity(cart, c', p')
  {
    var r := AddLine(cart, c, p, q);
    match IndexOf(cart, LineKey, (c, p))
    case Some(k) =>
      assert forall j :: 0 <= j < |r| ==> LineKey(r[j]) == LineKey(cart[j]);
      IndexOfSameKeys(r, cart, LineKey, (c', p'));
    case None =>
      IndexOfAppend(cart, CartLine(c, p, q), LineKey, (c', p'));
  }

  /** AddToCart row by row: the matched row changes, every other row is the same row. */
  lemma AddLineRows(cart: seq<CartLine>, c: int, p: int, q: int)
    ensures var r := AddLine(cart, c, p, q);
      match IndexOf(cart, LineKey, (c, p))
      case Some(k) =>
        r[k] == CartLine(c, p, cart[k].quantity + q) && forall j :: 0 <= j < |cart| && j != k ==> r[j] == cart[j]
      case None =>
        |r| == |cart| + 1 && r[|cart|] == CartLine(c, p, q) && forall j :: 0 <= j < |cart| ==> r[j] == cart[j]
  {
  }

  lemma AddLineKeepsUnique(cart: seq<CartLine>, c: int, p: int, q: int)
    requires UniqueLines(cart)
    ensures UniqueLines(AddLine(cart, c, p, q))
  {
    var r := AddLine(cart, c, p, q);
    match IndexOf(cart, LineKey, (c, p))
    case Some(k) =>
      assert forall j :: 0 <= j < |r| ==> LineKey(r[j]) == LineKey(cart[j]);
    case None =>
      assert forall j :: 0 <= j < |cart| ==> LineKey(r[j]) != (c, p);
  }

  /**
   * RemoveFromCart: None when the pair has no line (the query's record-not-found);
   * otherwise delete a line holding 1, or lower any other quantity by one.
   */
  function RemoveLine(cart: seq<CartLine>, c: int, p: int): (r: Option<seq<CartLine>>)
    ensures r.None? <==> Quantity(cart, c, p).None?
    ensures Quantity(cart, c, p) == Some(1) ==> |r.value| == |cart| - 1
    ensures Quantity(cart, c, p).Some? && Quantity(cart, c, p) != Some(1) ==> |r.value| == |cart|
  {
    match IndexOf(cart, LineKey, (c, p))
    case None => None
    case Some(k) =>
      if cart[k].quantity == 1 then Some(cart[..k] + cart[k + 1..])
      else Some(cart[k := cart[k].(quantity := cart[k].quantity - 1)])
  }

  lemma QuantityAbsent(cart: seq<CartLine>, c: int, p: int)
    requires forall j :: 0 <= j < |cart| ==> LineKey(cart[j]) != (c, p)
    ensures Quantity(cart, c, p) == None
  {
  }

  /** Deleting line k keeps the lines unique, removes k's pair and leaves every other pair's quantity. */
  lemma DeleteLineQuantity(cart: seq<CartLine>, k: nat, c': int, p': int)
    requires UniqueLines(cart) && k < |cart|
    ensures UniqueLines(cart[..k] + cart[k + 1..])
    ensures Quantity(cart[..k] + cart[k + 1..], c', p') ==
      if LineKey(cart[k]) == (c', p') then None else Quantity(cart, c', p')
  {
    var r := cart[..k] + cart[k + 1..];
    var (c, p) := LineKey(cart[k]);
    assert forall j :: 0 <= j < |r| ==> r[j] == (if j < k then cart[j] else cart[j + 1]);
    assert UniqueLines(r) by {
      forall i, j | 0 <= i < j < |r| ensures LineKey(r[i]) != LineKey(r[j]) {
        var i', j' := (if i < k then i else i + 1), (if j < k then j else j + 1);
        assert r[i] == cart[i'] && r[j] == cart[j'] && i' < j';
      }
    }
    if (c', p') == (c, p) {
      forall j | 0 <= j < |r| ensures LineKey(r[j]) != (c, p) {
        var j' := if j < k then j else j + 1;
        assert r[j] == cart[j'] && j' != k;
      }
      QuantityAbsent(r, c, p);
    } else if i :| 0 <= i < |cart| && LineKey(cart[i]) == (c', p') {
      assert i != k;
      var i' := if i < k then i else i - 1;
      assert r[i'] == cart[i];
      QuantityOfLine(cart, i);
      QuantityOfLine(r, i');
    } else {
      forall j | 0 <= j < |r| ensures LineKey(r[j]) != (c', p') {
        var j' := if j < k then j else j + 1;
        assert r[j] == cart[j'];
      }
      QuantityAbsent(r, c', p');
    }
  }

  /**
   * RemoveFromCart on a present pair: a quantity of 1 leaves the pair with no line, any
   * other quantity drops by exactly one, every other pair keeps its quantity, and lines
   * stay unique.
   */
  lemma RemoveLineQuantity(cart: seq<CartLine>, c: int, p: int, c': int, p': int)
    requires UniqueLines(cart) && Quantity(cart, c, p).Some?
    ensures UniqueLines(RemoveLine(cart, c, p).value)
    ensures Quantity(RemoveLine(cart, c, p).value, c', p') ==
      if (c', p') != (c, p) then Quantity(cart, c', p')
      else if Quantity(cart, c, p) == Some(1) then None
      else Some(Quantity(cart, c, p).value - 1)
  {
    var k := IndexOf(cart, LineKey, (c, p)).value;
    var r := RemoveLine(cart, c, p).value;
    if cart[k].quantity == 1 {
      assert r == cart[..k] + cart[k + 1..];
      DeleteLineQuantity(cart, k, c', p');
    } else {
      assert forall j :: 0 <= j < |r| ==> LineKey(r[j]) == LineKey(cart[j]);
      IndexOfSameKeys(r, cart, LineKey, (c', p'));
    }
  }

  /** Removing once after adding one unit restores the cart, unless the pair held exactly 0. */
  lemma RemoveUndoesAddOne(cart: seq<CartLine>, c: int, p: int)
    requires Quantity(cart, c, p) != Some(0)
    ensures RemoveLine(AddLine(cart, c, p, 1), c, p) == Some(cart)
  {
    var r := AddLine(cart, c, p, 1);
    match IndexOf(cart, LineKey, (c, p))
    case Some(k) =>
      assert forall j :: 0 <= j < |r| ==> LineKey(r[j]) == LineKey(cart[j]);
      IndexOfSameKeys(r, cart, LineKey, (c, p));
      assert r[k := r[k].(quantity := r[k].quantity - 1)] == cart;
    case None =>
      IndexOfAppend(cart, CartLine(c, p, 1), LineKey, (c, p));
      assert r[..|cart|] + r[|cart| + 1..] == cart;
  }

  /**
   * Decrement-to-delete: a pair holding 1 has no line after one RemoveFromCart, and a
   * second RemoveFromCart finds nothing.
   */
  lemma RemoveLastUnitThenNotFound(cart: seq<CartLine>, c: int, p: int)
    requires UniqueLines(cart) && Quantity(cart, c, p) == Some(1)
    ensures Quantity(RemoveLine(cart, c, p).value, c, p) == None
    ensures RemoveLine(RemoveLine(cart, c, p).value, c, p) == None
  {
    RemoveLineQuantity(cart, c, p, c, p);
  }

  /** A run of AddToCart calls for one pair, with no remove in between. */
  function AddRun(cart: seq<CartLine>, c: int, p: int, qs: seq<int>): seq<CartLine>
    decreases |qs|
  {
    if qs == [] then cart else AddRun(AddLine(cart, c, p, qs[0]), c, p, qs[1..])
  }

  function Sum(qs: seq<int>): int
  {
    if qs == [] then 0 else qs[0] + Sum(qs[1..])
  }

  /**
   * Merge: after a non-empty run of adds the pair holds what it held before plus the sum
   * of the quantities added, in a single line; no other pair changes.
   */
  lemma {:induction false} AddRunSums(cart: seq<CartLine>, c: int, p: int, qs: seq<int>, c': int, p': int)
    requires qs != []
    decreases |qs|
    ensures Quantity(AddRun(cart, c, p, qs), c, p) == Some(QuantityOrZero(cart, c, p) + Sum(qs))
    ensures (c', p') != (c, p) ==> Quantity(AddRun(cart, c, p, qs), c', p') == Quantity(cart, c', p')
    ensures UniqueLines(cart) ==> UniqueLines(AddRun(cart, c, p, qs))
  {
    var next := AddLine(cart, c, p, qs[0]);
    AddLineQuantity(cart, c, p, qs[0], c, p);
    AddLineQuantity(cart, c, p, qs[0], c', p');
    if UniqueLines(cart) {
      AddLineKeepsUnique(cart, c, p, qs[0]);
    }
    if qs[1..] != [] {
      AddRunSums(next, c, p, qs[1..], c', p');
    }
  }

  /** The lines GetCartItems lists for customer c, in table order, each with its product joined. */
  function ItemsOf(cart: seq<CartLine>, products: seq<Product>, c: int): (items: seq<CartItem>)
    ensures |items| <= |cart|
    ensures forall i :: 0 <= i < |items| ==>
      items[i].line in cart && items[i].line.customerId == c && items[i].product == Join(products, items[i].line.productId)
    ensures forall l :: l in cart && l.customerId == c ==> exists i :: 0 <= i < |items| && items[i].line == l
  {
    if cart == [] then []
    else
      var rest := ItemsOf(cart[1..], products, c);
      ItemsOfCons(cart, products, c, rest);
      if cart[0].customerId == c then [CartItem(cart[0], Join(products, cart[0].productId))] + rest
      else rest
  }

  /** ItemsOf's contract carries over from the tail of the table to the whole table. */
  lemma ItemsOfCons(cart: seq<CartLine>, products: seq<Product>, c: int, rest: seq<CartItem>)
    requires cart != [] && |rest| <= |cart| - 1
    requires forall i :: 0 <= i < |rest| ==>
      rest[i].line in cart[1..] && rest[i].line.customerId == c && rest[i].product == Join(products, rest[i].line.productId)
    requires forall l :: l in cart[1..] && l.customerId == c ==> exists i :: 0 <= i < |rest| && rest[i].line == l
    ensures var items := if cart[0].customerId == c then [CartItem(cart[0], Join(products, cart[0].productId))] + rest else rest;
      && |items| <= |cart|
      && (forall i :: 0 <= i < |items| ==>
        items[i].line in cart && items[i].line.customerId == c && items[i].product == Join(products, items[i].line.productId))
      && (forall l :: l in cart && l.customerId == c ==> exists i :: 0 <= i < |items| && items[i].line == l)
  {
    assert cart == [cart[0]] + cart[1..];
    if cart[0].customerId == c {
      var items := [CartItem(cart[0], Join(products, cart[0].productId))] + rest;
      forall i | 0 <= i < |items|
        ensures items[i].line in cart && items[i].line.customerId == c && items[i].product == Join(products, items[i].line.productId)
      {
        if i > 0 { assert items[i] == rest[i - 1]; }
      }
      forall l | l in cart && l.customerId == c
        ensures exists i :: 0 <= i < |items| && items[i].line == l
      {
        if l == cart[0] {
          assert items[0].line == l;
        } else {
          var i :| 0 <= i < |rest| && rest[i].line == l;
          assert items[i + 1] == rest[i];
        }
      }
    }
  }

  /** GetCartItems lists a single line exactly when it is the customer's, with its product joined. */
  lemma ItemsOfLine(l: CartLine, products: seq<Product>, c: int)
    ensures ItemsOf([l], products, c) == if l.customerId == c then [CartItem(l, Join(products, l.productId))] else []
  {
    assert [l][1..] == [];
  }

  /**
   * GetCartItems lists a table in table order: the items of a table split in two are the
   * items of the first part followed by those of the second, so each of the customer's
   * lines is listed once, in its place.
   */
  lemma {:induction false} ItemsOfConcat(a: seq<CartLine>, b: seq<CartLine>, products: seq<Product>, c: int)
    ensures ItemsOf(a + b, products, c) == ItemsOf(a, products, c) + ItemsOf(b, products, c)
    decreases |a|
  {
    if a != [] {
      assert (a + b)[0] == a[0] && (a + b)[1..] == a[1..] + b;
      ItemsOfConcat(a[1..], b, products, c);
    } else {
      assert a + b == b;
    }
  }

  /**
   * A listed cart is the set of the customer's present pairs: every item carries its
   * pair's current quantity, and every present pair is listed.
   */
  lemma ItemsArePresentPairs(cart: seq<CartLine>, products: seq<Product>, c: int, p: int)
    requires UniqueLines(cart)
    ensures forall i :: 0 <= i < |ItemsOf(cart, products, c)| ==>
      var l := ItemsOf(cart, products, c)[i].line;
      Quantity(cart, c, l.productId) == Some(l.quantity)
    ensures Quantity(cart, c, p).Some? ==>
      exists i :: 0 <= i < |ItemsOf(cart, products, c)| && ItemsOf(cart, products, c)[i].line == CartLine(c, p, Quantity(cart, c, p).value)
  {
    var items := ItemsOf(cart, products, c);
    forall i | 0 <= i < |items|
      ensures Quantity(cart, c, items[i].line.productId) == Some(items[i].line.quantity)
    {
      var j :| 0 <= j < |cart| && cart[j] == items[i].line;
      QuantityOfLine(cart, j);
    }
    if Quantity(cart, c, p).Some? {
      var j :| 0 <= j < |cart| && LineKey(cart[j]) == (c, p);
      QuantityOfLine(cart, j);
      assert cart[j] == CartLine(c, p, Quantity(cart, c, p).value);
    }
  }
}
