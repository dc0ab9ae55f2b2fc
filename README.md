# redisearch-shopping, modelled in Dafny

A model of the core of a small shopping API written in Go. A SQLite store (through gorm)
holds customers, products and cart lines. A RediSearch index holds one document per
product for name search. GraphQL resolvers sit on top of both.

The model has three parts:

- **The canonical store** (`Sqlite.SQLiteDatabase`). It keeps the three tables as
  sequences of rows and the next ids to assign. It has one method per store operation:
  `GetCustomer`, `GetCustomerByEmail`, `CreateCustomer`, `AddToCart`, `RemoveFromCart`,
  `GetCartItems`, `AddProduct` and `SearchProducts`. The cart, lookup and search methods
  are proved against a function of module `Tables` on the rows; `CreateCustomer` and
  `AddProduct` are proved as appends of a row with the next id. The lemmas of `Tables` state the store's
  promises: cart lines merge, decrement to delete, and touch only their own pair; an
  unfiltered or empty filter lists every product; the first customer with an email wins.
- **The search index adapter** (`Search.RediSearch`). The index is a map from the key
  `product:<id>` to the document's id, name and price as text, or None when there is no
  index. `Init` drops the index, recreates it, scans the store and indexes every product,
  stopping at the first failure. `AddProduct` writes one document. `SearchProducts` turns
  the engine's reply into a slice of `total` slots, one filled per returned document.
  The lemmas show that documents decode back to the products they were written for. They
  also show that, after `Init`, a complete answer to a prefix query returns every stored
  product whose name matches, and only those.
- **The resolvers** (`Resolvers.Resolver`). `Products` routes a missing or empty name to
  the store and any other name to the index, with no fallback. It then projects the list
  in order. `AddToCart` and `RemoveFromCart` check the caller and parse the product id
  with Go's `strconv.Atoi`. They then change the cart, read it back and project it. The
  first failure ends the call, and nothing after it is called.

Go's `%d` formatting and `strconv.Atoi` are modelled in module `Strconv`. Their round
trip and injectivity are proved there.

Inputs the Go code gets from outside are parameters of the model:

- `Sqlite.Io` says whether a store call's query or write fails.
- `Search.EngineIo` says whether the engine's Drop or CreateIndex fails, and at which scan
  positions indexing fails.
- `Search.Reply` is the engine's answer to a query: its documents and its hit count.
- The authenticated customer is an `Option` of its id.

Ghost call logs record which backend each resolver called: `SQLiteDatabase.calls` and
`RediSearch.searches`.

## Model

| member | source | states |
|---|---|---|
| Strconv.FormatInt | graph/schema.resolvers.go:156 | `%d` of an int is non-empty text, and it starts with '-' exactly when the int is negative |
| Strconv.Atoi | graph/schema.resolvers.go:62 | text parses exactly when it is an optional sign followed by at least one digit and its value fits in 64 bits, and then it parses to that value; a negative value has a leading '-' |
| Strconv.DigitsRoundTrip | graph/schema.resolvers.go:156 | the decimal digits of n read back as n |
| Strconv.AtoiFormatInt | graph/schema.resolvers.go:62 | every 64-bit int written with `%d` parses back to itself with Atoi |
| Strconv.DigitsInjective | graph/schema.resolvers.go:156 | distinct naturals have distinct digit strings |
| Strconv.FormatIntInjective | graph/schema.resolvers.go:156 | two ints have the same `%d` text exactly when they are equal |
| Strconv.AtoiRejectsNonNumeric | graph/schema.resolvers.go:62-65 | text with no digit in it (such as "invalid") does not parse |
| Strconv.AtoiPlusSign | graph/schema.resolvers.go:62 | a leading '+' before the digits changes nothing: "+7" parses as "7" does |
| Strconv.LeadingZeroValue | graph/schema.resolvers.go:62 | a leading zero adds nothing to the value of a run of digits |
| Strconv.AtoiLeadingZero | graph/schema.resolvers.go:62 | leading zeros change nothing: "007" parses as "7" does |
| Tables.IndexOf | internal/storage/sqlite/db.go:37 | the row `First` returns is the first row, in table order, whose key matches; None means no row matches |
| Tables.IndexOfSameKeys | internal/storage/sqlite/db.go:69 | two tables with the same keys position by position find the same row |
| Tables.IndexOfAppend | internal/storage/sqlite/db.go:60 | an appended row is found only when no earlier row has its key |
| Tables.CustomerById | internal/storage/sqlite/db.go:35-42 | a found customer is in the table with that id; not found means no customer has the id |
| Tables.CustomerByEmail | internal/storage/sqlite/db.go:44-51 | a found customer is in the table with that email; not found means no customer has the email |
| Tables.CreatedCustomerFound | internal/storage/sqlite/db.go:53-65 | a customer created with the next id is the one found by that id, and ids stay assigned |
| Tables.EmailFindsOldest | internal/storage/sqlite/db.go:44-51 | with duplicate emails allowed, the lookup by email returns the customer with the smallest id |
| Tables.LaterRegistrationKeepsFirst | internal/storage/sqlite/db.go:53-65 | registering another customer with a taken email does not change who the email lookup finds |
| Tables.AddedProductKeepsIdsAssigned | internal/storage/sqlite/db.go:129-135 | a product inserted with the next id keeps ids positive, below the next id and increasing |
| Tables.WithNameContaining | internal/storage/sqlite/db.go:141-142 | a product is listed exactly when its name contains the filter, as many times as the table holds it; the empty filter lists every product in order |
| Tables.WithNameContainingOne | internal/storage/sqlite/db.go:141-142 | a one-row table lists its row once exactly when the name contains the filter |
| Tables.WithNameContainingCons | internal/storage/sqlite/db.go:141-142 | the first row is listed ahead of the matches among the rest when its name contains the filter |
| Tables.WithNameContainingConcat | internal/storage/sqlite/db.go:141-146 | the matches of a table split in two are the first part's matches followed by the second's, so each matching row is listed once in table order |
| Tables.Contains | internal/storage/sqlite/db.go:142 | `LIKE '%s%'` holds exactly when the filter occurs in the name at some position |
| Tables.Filter | internal/storage/sqlite/db.go:137-150 | no filter or an empty filter returns every product; otherwise exactly the products whose name contains the filter, each as many times as the table holds it |
| Tables.FilterConcat | internal/storage/sqlite/db.go:137-150 | the result for a table split in two is the first part's result followed by the second's, keeping table order |
| Tables.Join | internal/storage/sqlite/db.go:121 | when a stored product has the line's product id, the preloaded product is a stored product with that id; when none has it, the zero product |
| Tables.Quantity | internal/storage/sqlite/db.go:69 | a quantity exists for (customer, product) exactly when some line has that pair |
| Tables.QuantityOfLine | internal/storage/sqlite/db.go:69 | with unique pairs, each line's quantity is the one its pair finds |
| Tables.AddLine | internal/storage/sqlite/db.go:67-93 | an existing pair keeps the table's length; a missing pair appends exactly one line holding the given quantity |
| Tables.AddLineQuantity | internal/storage/sqlite/db.go:67-93 | AddToCart raises the pair's quantity by exactly the added amount, starting from zero when absent; every other pair keeps its quantity |
| Tables.AddLineRows | internal/storage/sqlite/db.go:69-81 | row by row, only the matched row changes |
| Tables.AddLineKeepsUnique | internal/storage/sqlite/db.go:67-93 | AddToCart never creates a second line for a pair |
| Tables.RemoveLine | internal/storage/sqlite/db.go:96-116 | it fails exactly when the pair has no line; a quantity of 1 deletes one line; any other quantity keeps the length |
| Tables.QuantityAbsent | internal/storage/sqlite/db.go:97-100 | a pair with no line has no quantity |
| Tables.RemoveLineQuantity | internal/storage/sqlite/db.go:102-115 | a quantity of 1 leaves the pair with no line; any other quantity drops by exactly one; other pairs keep their quantities and pairs stay unique |
| Tables.DeleteLineQuantity | internal/storage/sqlite/db.go:102-104 | deleting one line keeps the lines unique, leaves its pair with no line and every other pair with its quantity |
| Tables.RemoveUndoesAddOne | internal/storage/sqlite/db.go:67-116 | removing after adding one unit restores the cart, unless the pair held exactly 0 |
| Tables.RemoveLastUnitThenNotFound | internal/storage/sqlite/db.go:97-108 | after the last unit goes the pair has no line, and a second remove finds nothing |
| Tables.AddRunSums | internal/storage/sqlite/db.go:67-93 | a run of adds for one pair leaves one line holding the old quantity plus the sum of the amounts; other pairs are unchanged |
| Tables.ItemsOf | internal/storage/sqlite/db.go:118-127 | the listed items are exactly the customer's lines, each with its product joined |
| Tables.ItemsOfLine | internal/storage/sqlite/db.go:121 | a single line is listed exactly when it is the customer's, with its product joined |
| Tables.ItemsOfConcat | internal/storage/sqlite/db.go:118-127 | the items of a table split in two are the first part's items followed by the second's, so each of the customer's lines is listed once, in table order |
| Tables.ItemsArePresentPairs | internal/storage/sqlite/db.go:118-127 | every listed item carries its pair's current quantity, and every present pair is listed |
| Sqlite.AddToCartOutcome | internal/storage/sqlite/db.go:69-91 | AddToCart succeeds exactly when neither the query nor the write fails; a failed query is reported as the cart-item query step; when the query works, a failed write is reported as the update step if the line existed and as the insert step if not; every failure is a connection failure; a failed update means the line existed and a failed insert means it did not |
| Sqlite.RemoveFromCartOutcome | internal/storage/sqlite/db.go:98-113 | RemoveFromCart succeeds exactly when the line exists and neither query nor write fails; a failed query is reported as a connection failure of the cart-item query step; it reports not-found exactly when the query works and there is no line; when the query finds the line, a failed write is reported as the delete step if the quantity was 1 and as the update step otherwise; a failed delete means the quantity was 1 and a failed update means it was not |
| Sqlite.SQLiteDatabase.constructor | internal/storage/sqlite/db.go:26-33 | a migrated database has empty tables and ids starting at 1 |
| Sqlite.SQLiteDatabase.GetCustomer | internal/storage/sqlite/db.go:35-42 | returns the customer with the id, a not-found error, or a connection error; only the call log changes |
| Sqlite.SQLiteDatabase.GetCustomerByEmail | internal/storage/sqlite/db.go:44-51 | returns the first customer with the email, a not-found error, or a connection error; only the call log changes |
| Sqlite.SQLiteDatabase.CreateCustomer | internal/storage/sqlite/db.go:53-65 | appends the customer under a fresh id and returns it; on a failed write nothing changes |
| Sqlite.SQLiteDatabase.AddToCart | internal/storage/sqlite/db.go:67-94 | the error names the failed step; on success the cart becomes AddLine of the old cart, otherwise it is unchanged |
| Sqlite.SQLiteDatabase.RemoveFromCart | internal/storage/sqlite/db.go:96-116 | a missing line is a not-found error; the error names the failed step; on success the cart becomes RemoveLine of the old cart, otherwise it is unchanged |
| Sqlite.SQLiteDatabase.GetCartItems | internal/storage/sqlite/db.go:118-127 | lists the customer's lines with products joined, or a connection error; only the call log changes |
| Sqlite.SQLiteDatabase.AddProduct | internal/storage/sqlite/db.go:129-135 | appends the product under a fresh id and returns it with that id; on a failed write nothing changes |
| Sqlite.SQLiteDatabase.SearchProducts | internal/storage/sqlite/db.go:137-150 | returns the filtered products or a connection error; only the call log changes |
| Search.DocKeyInjective | internal/storage/redisearch/redisearch.go:88 | two products share a document key exactly when they share an id |
| Search.DocKey | internal/storage/redisearch/redisearch.go:88 | the key `product:%d` starts with `product:` and the rest parses back to the id when the id fits in 64 bits |
| Search.AsUint | internal/storage/redisearch/redisearch.go:77 | `uint(id)` stays below 2^64, keeps non-negative ids and adds 2^64 to negative ones |
| Search.Encode | internal/storage/redisearch/redisearch.go:88-91 | the document keeps the name, and its id and price text parse back to the product's id and price when they fit in 64 bits |
| Search.Decode | internal/storage/redisearch/redisearch.go:65-81 | an id that does not parse is the id error; a parsed id with a price that does not parse is the price error; otherwise the product with `uint` of the id, the name and the price |
| Search.DecodeEncode | internal/storage/redisearch/redisearch.go:65-91 | a document written for a product whose id and price fit 64 bits decodes back to that product |
| Search.DecodeHits | internal/storage/redisearch/redisearch.go:64-82 | a decoded reply has one product per document and no more products than slots |
| Search.DecodeHitsEach | internal/storage/redisearch/redisearch.go:65-81 | each decoded product is the decoding of the document at its position |
| Search.DecodeHitsStep | internal/storage/redisearch/redisearch.go:64-82 | a document that decodes and has a slot contributes its product, and decoding continues with the next document |
| Search.DecodeHitsAdvance | internal/storage/redisearch/redisearch.go:64-82 | decoding one more document moves its product from the undecoded rest to the decoded prefix without changing the overall result |
| Search.DecodeFromSlice | internal/storage/redisearch/redisearch.go:64-82 | walking the reply by position from document i gives the same result as decoding the slice that starts at i |
| Search.DecodeFromFinish | internal/storage/redisearch/redisearch.go:64-82 | once every document is walked, the decoded prefix is the whole result |
| Search.DecodeHitsStops | internal/storage/redisearch/redisearch.go:66-73 | the first document that does not decode ends the call with its error |
| Search.DecodeHitsOverflows | internal/storage/redisearch/redisearch.go:75 | a decodable document with no slot left is the index-out-of-range failure |
| Search.Slots | internal/storage/redisearch/redisearch.go:63 | the result slice has `total` slots, the first ones filled with the decoded products and the rest nil |
| Search.SearchResult | internal/storage/redisearch/redisearch.go:52-84 | the search error exactly when the engine fails; zero hits is an empty list; a result has `total` slots, the first filled one per returned document and the rest nil |
| Search.SearchResultDecodesEach | internal/storage/redisearch/redisearch.go:64-82 | with hits, each filled slot holds the decoding of the document at its position |
| Search.NoHitsIsEmpty | internal/storage/redisearch/redisearch.go:59-61 | a reply with zero hits is an empty result, not an error |
| Search.ShortReplyLeavesNilSlots | internal/storage/redisearch/redisearch.go:63-82 | when the hit count exceeds the returned documents, the slots past them stay nil |
| Search.LowerChar | internal/storage/redisearch/redisearch.go:52 | folds an ASCII capital to its small letter and leaves every other character alone |
| Search.Lower | internal/storage/redisearch/redisearch.go:52 | folds each character of a name, keeping its length |
| Search.LowerHasNoCapitals | internal/storage/redisearch/redisearch.go:52 | a folded name holds no ASCII capital |
| Search.LowerIdempotent | internal/storage/redisearch/redisearch.go:52 | folding case twice is folding it once |
| Search.Matches | internal/storage/redisearch/redisearch.go:52 | the query `@name:%s*` matches a name that starts with the term ignoring case: a name beginning with the term matches, and a match is at least as long as the term |
| Search.MatchesIgnoresCase | internal/storage/redisearch/redisearch.go:52 | whether a name matches does not depend on the case of the name or of the term |
| Search.DocsOf | internal/storage/redisearch/redisearch.go:42-46 | after indexing a list of products, the index has a key for each of them and no other key |
| Search.DocsOfNext | internal/storage/redisearch/redisearch.go:43 | indexing one more product writes its document over the index built so far |
| Search.DocsOfIndexesEach | internal/storage/redisearch/redisearch.go:42-91 | after indexing products with distinct ids, each product's key holds exactly that product's document |
| Search.DocsOfOnlyIndexed | internal/storage/redisearch/redisearch.go:42-46 | every document in the index was written for one of the indexed products |
| Search.DecodeHitsAll | internal/storage/redisearch/redisearch.go:64-82 | a reply whose documents all decode, with a slot for each, decodes successfully |
| Search.SearchFindsIndexed | internal/storage/redisearch/redisearch.go:51-85 | a complete answer over indexed products returns every indexed product whose name matches the prefix |
| Search.SearchAfterInitFinds | internal/storage/redisearch/redisearch.go:37-85 | after Init indexed the whole store, a complete answer returns every stored product whose name matches |
| Search.SearchReturnsOnlyMatches | internal/storage/redisearch/redisearch.go:51-85 | a complete answer over indexed products returns only indexed products whose name starts with the term |
| Search.FirstFailure | internal/storage/redisearch/redisearch.go:42-45 | the first failing scan position, or the scan's length when no position fails |
| Search.CollectHits | internal/storage/redisearch/redisearch.go:63-82 | the loop's result is DecodeHits of the documents, laid out in `total` slots |
| Search.FillSlot | internal/storage/redisearch/redisearch.go:65-81 | one turn of the loop: a document that fails to parse or has no slot ends the decoding with that error and leaves the slice alone; otherwise its product goes into slot i and onto the decoded prefix |
| Search.RediSearch.constructor | internal/storage/redisearch/redisearch.go:19-22 | the adapter faces the store and whatever index the engine already holds |
| Search.RediSearch.AddProduct | internal/storage/redisearch/redisearch.go:87-98 | the fault input decides the outcome: a failed add returns the document error and leaves the index unchanged; otherwise an existing index maps `product:<id>` to the product's document, and an absent index stays absent |
| Search.RediSearch.Init | internal/storage/redisearch/redisearch.go:25-49 | the Drop result is ignored, but an index left behind makes CreateIndex fail; a failed scan leaves an empty index; otherwise the index holds the documents of the products before the first failing position, and the call fails exactly when such a position exists |
| Search.RediSearch.IndexProducts | internal/storage/redisearch/redisearch.go:42-46 | the index holds the documents of the products before the first failing position, and the call fails exactly when such a position exists |
| Search.RediSearch.SearchProducts | internal/storage/redisearch/redisearch.go:51-85 | records the term in the call log; an engine error fails, zero hits is an empty slice, otherwise `total` slots filled in document order |
| Resolvers.CustomerKey | graph/schema.resolvers.go:67 | `int(customer.ID)` is a 64-bit int: it keeps ids up to the largest int and wraps larger ids by subtracting 2^64 |
| Resolvers.RouteFor | graph/schema.resolvers.go:141-151 | a missing or empty name goes to the store with that filter; any other name goes to the index as the term |
| Resolvers.StorageRouteListsAll | graph/schema.resolvers.go:141-142 | whatever the store route is asked for, it returns every product |
| Resolvers.Refs | graph/schema.resolvers.go:142 | the store's list as slots: same length and order, none nil |
| Resolvers.Present | graph/schema.resolvers.go:155-159 | an API product has the product's name and price, and its id is the product id in decimal |
| Resolvers.Projected | graph/schema.resolvers.go:153-160 | the projection fails exactly when some slot is nil; otherwise it keeps length and order, presenting each product |
| Resolvers.ProjectProducts | graph/schema.resolvers.go:153-160 | fails exactly when a slot is nil; otherwise the same length and order, each with the id in decimal and name and price copied |
| Resolvers.ProjectionIsProjected | graph/schema.resolvers.go:153-160 | the loop's result is the projection of the whole list |
| Resolvers.PresentedIdParsesBack | graph/schema.resolvers.go:156 | a product id the API returns parses back to the same id with the parse applied to incoming ids |
| Resolvers.InCart | graph/schema.resolvers.go:80-88 | a cart entry has the line's quantity, the joined product's name and price, and the line's product id in decimal |
| Resolvers.CartView | graph/schema.resolvers.go:76-89 | the cart has one entry per item, in order, each the entry for that item |
| Resolvers.ProjectCart | graph/schema.resolvers.go:76-89 | one entry per stored line, in order, each with the line's product id in decimal, the product's name and price, and the line's quantity |
| Resolvers.CartEntryIdParsesBack | graph/schema.resolvers.go:83 | a cart entry's id parses back to the product id of its line |
| Resolvers.CartShowsAddedQuantity | graph/schema.resolvers.go:67-89 | after AddToCart the returned cart shows the product with its old quantity plus the amount added, with the stored name and price |
| Resolvers.CartDropsLastUnit | graph/schema.resolvers.go:105-127 | after removing the last unit the returned cart no longer shows the product |
| Resolvers.AddToEmptyCartScenario | graph/schema.resolvers_test.go:223-277 | adding one unit of product 1 ("test", 1000) to an empty cart returns that single entry with id "1" |
| Resolvers.Resolver.constructor | graph/resolver.go:9-12 | a resolver over the given store and index |
| Resolvers.Resolver.ReadCart | graph/schema.resolvers.go:71-91 | reads the caller's cart once and returns its projection or the store's error |
| Resolvers.Resolver.AddToCart | graph/schema.resolvers.go:56-92 | no caller or a non-numeric id fails before any store call; a failed mutation is returned without reading the cart; otherwise the cart grows by AddLine and the read-back cart is returned |
| Resolvers.Resolver.AddThenRead | graph/schema.resolvers.go:67-91 | a failed mutation is returned with the cart unchanged and no read; otherwise the cart grows by AddLine and is read back once |
| Resolvers.Resolver.RemoveFromCart | graph/schema.resolvers.go:94-130 | no caller or a non-numeric id fails before any store call; a failed mutation is returned without reading the cart; otherwise the cart shrinks by RemoveLine and the read-back cart is returned |
| Resolvers.Resolver.RemoveThenRead | graph/schema.resolvers.go:105-129 | a failed mutation is returned with the cart unchanged and no read; otherwise the cart shrinks by RemoveLine and is read back once |
| Resolvers.Resolver.Products | graph/schema.resolvers.go:132-163 | no caller calls neither backend; the routed backend alone is called; its error is returned; otherwise its list is projected |

## Left out

- Login and Register (graph/schema.resolvers.go:19-54) are not modelled. They are JWT and bcrypt calls into libraries, as are internal/auth/*.go. The authenticated customer is an input.
- The command line, HTTP router, logging and process setup (internal/cmd, internal/router, cmd/redisearch-shopping) are not modelled. They only wire things together.
- Store errors are modelled by their kind only: the failed step, and not-found versus connection failure. Error message text is not modelled.
- The store's `Init` is not modelled. It only runs gorm's schema migration, and the model starts from migrated, empty tables.
- gorm's internals are not modelled. This covers ids assigned by the database (a next-id counter stands in), timestamps, soft delete, and `LIKE` case folding and `%`/`_` wildcards (the filter is plain substring containment).
- Sqlite.SQLiteDatabase.AddProduct: a product passed in with a preset id is not modelled. Every product gets the next id.
- Concurrency is not modelled. AddToCart's read-then-save is not atomic in the code; the model runs calls one at a time.
- Sqlite.SQLiteDatabase.AddToCart: the 64-bit wrap-around of `Quantity += quantity` is not modelled; quantities are unbounded integers.
- Sqlite.SQLiteDatabase.RemoveFromCart: the 64-bit wrap-around of `Quantity -= 1` below the smallest int is not modelled; quantities are unbounded integers.
- The code checks neither that a quantity is positive nor that a product exists, and it allows duplicate emails. The model does not add these checks.
- RediSearch engine internals are not modelled: tokenisation, stemming, the query syntax of the term, and result paging. The engine's reply is an input, and `Search.Answers` describes a complete answer with case-insensitive name-prefix matching.
- Search.RediSearch.AddProduct: how the engine treats an add (an existing key, a missing index) is not modelled. The fault input alone decides whether the add fails; with no fault and no index the model reports success and keeps no index.
- Two panics of the code are modelled as error results: the slot index out of range (internal/storage/redisearch/redisearch.go:75) as `Err(ResultIndexOutOfRange)` and reading a product through a nil slot (graph/schema.resolvers.go:153-160) as `Err(NilProduct)`.
- Search.Decode: documents lacking a field, which make the type assertions panic, are not modelled. Every document has id, name and price.
- Strconv.Atoi: the kind of parse error (syntax versus range) is not distinguished; both are None.
- The comment on the search interfaces says a nil name returns all products. The index adapter does not do this: it dereferences the name. Only the resolver's routing keeps a nil name away from it. The model follows the code.
- pkg/models/product.go is not part of this model. The product's fields (id, name, price) are taken from their uses.
