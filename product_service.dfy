/** The product service (services/product-service/server.js): an in-memory
    array of products with filtered listing, lookup by id, append, a
    merge-update that keeps the id, splice-delete and an availability check.
    Prices are integer cents; uuid generation and the clock are parameters. */
module ProductService {
  import opened Common

  datatype Product = Product(id: string, name: string, description: string, price: int, stock: int,
                             category: string, createdAt: Option<string>, updatedAt: Option<string>)

  // ---------------------------------------------------------------------
  // Listing: GET /products?category=&minPrice=&maxPrice=
  // ---------------------------------------------------------------------

  /** The query filters; `None` stands for an absent or empty query parameter. */
  datatype Query = Query(category: Option<string>, minPrice: Option<int>, maxPrice: Option<int>)

  function LowerChar(c: char): char {
    if 'A' <= c <= 'Z' then (c as int + 32) as char else c
  }

  /** `toLowerCase`, on the ASCII letters only. */
  function Lower(s: string): string {
    seq(|s|, i requires 0 <= i < |s| => LowerChar(s[i]))
  }

  /** Lower-casing twice is lower-casing once, so a query in any case selects
      the same products as its lower-case form. */
  lemma LowerIdempotent(s: string)
    ensures Lower(Lower(s)) == Lower(s)
  {
  }

  /** A string without capital letters is its own lower-case form. */
  lemma LowerPlain(s: string)
    requires forall i :: 0 <= i < |s| ==> !('A' <= s[i] <= 'Z')
    ensures Lower(s) == s
  {
  }

  predicate CategoryOk(p: Product, q: Query) {
    !Given(q.category) || Lower(p.category) == Lower(q.category.value)
  }

  predicate MinPriceOk(p: Product, q: Query) {
    q.minPrice.None? || p.price >= q.minPrice.value
  }

  predicate MaxPriceOk(p: Product, q: Query) {
    q.maxPrice.None? || p.price <= q.maxPrice.value
  }

  /** A product passes every supplied filter. */
  predicate Matches(p: Product, q: Query) {
    CategoryOk(p, q) && MinPriceOk(p, q) && MaxPriceOk(p, q)
  }

  function Matcher(q: Query): Product -> bool {
    p => Matches(p, q)
  }

  datatype Listing = Listing(total: nat, products: seq<Product>)

  /** The three `filter` callbacks of the handler. */
  function ByCategory(category: string): Product -> bool {
    (p: Product) => Lower(p.category) == Lower(category)
  }

  function AtLeast(minPrice: int): Product -> bool {
    (p: Product) => p.price >= minPrice
  }

  function AtMost(maxPrice: int): Product -> bool {
    (p: Product) => p.price <= maxPrice
  }

  /** The handler applies each supplied filter in turn; the result is the
      single filter by their conjunction, and `total` is its length. */
  function ListProducts(ps: seq<Product>, q: Query): (r: Listing)
    ensures r.products == Filter(ps, Matcher(q))
    ensures r.total == |r.products|
  {
    var s1 := if Given(q.category) then Filter(ps, ByCategory(q.category.value)) else ps;
    var s2 := if q.minPrice.Some? then Filter(s1, AtLeast(q.minPrice.value)) else s1;
    var s3 := if q.maxPrice.Some? then Filter(s2, AtMost(q.maxPrice.value)) else s2;
    ListingSteps(ps, q, s1, s2, s3);
    Listing(|s3|, s3)
  }

  lemma ListingSteps(ps: seq<Product>, q: Query, s1: seq<Product>, s2: seq<Product>, s3: seq<Product>)
    requires s1 == if Given(q.category) then Filter(ps, ByCategory(q.category.value)) else ps
    requires s2 == if q.minPrice.Some? then Filter(s1, AtLeast(q.minPrice.value)) else s1
    requires s3 == if q.maxPrice.Some? then Filter(s2, AtMost(q.maxPrice.value)) else s2
    ensures s3 == Filter(ps, Matcher(q))
  {
    var cat: Product -> bool := p => CategoryOk(p, q);
    var catMin: Product -> bool := p => CategoryOk(p, q) && MinPriceOk(p, q);
    if Given(q.category) {
      FilterSame(ps, ByCategory(q.category.value), cat);
    } else {
      FilterKeepAll(ps, cat);
    }
    if q.minPrice.Some? {
      FilterTwice(ps, cat, AtLeast(q.minPrice.value), catMin);
    } else {
      FilterSame(ps, cat, catMin);
    }
    if q.maxPrice.Some? {
      FilterTwice(ps, catMin, AtMost(q.maxPrice.value), Matcher(q));
    } else {
      FilterSame(ps, catMin, Matcher(q));
    }
  }

  /** A product is listed exactly when it is stored and passes every supplied filter. */
  lemma ListingMembers(ps: seq<Product>, q: Query, p: Product)
    ensures p in ListProducts(ps, q).products <==> p in ps && Matches(p, q)
  {
    if p in ps && Matches(p, q) {
      FilterComplete(ps, Matcher(q), p);
    }
  }

  /** Listing distributes over the store's order: a product appended later
      is listed after every earlier one. */
  lemma ListingOrder(a: seq<Product>, b: seq<Product>, q: Query)
    ensures ListProducts(a + b, q).products == ListProducts(a, q).products + ListProducts(b, q).products
  {
    FilterAppend(a, b, Matcher(q));
  }

  /** With no filter supplied every product is listed, in store order. */
  lemma ListingUnfiltered(ps: seq<Product>)
    ensures ListProducts(ps, Query(None, None, None)) == Listing(|ps|, ps)
  {
  }

  // ---------------------------------------------------------------------
  // Lookup by id: `products.find` / `products.findIndex`
  // ---------------------------------------------------------------------

  function HasId(id: string): Product -> bool {
    (p: Product) => p.id == id
  }

  /** `products.findIndex(p => p.id === id)` */
  function FindIndex(ps: seq<Product>, id: string): int {
    IndexWhere(ps, HasId(id))
  }

  /** GET /products/:id: the first product with that id, or 404. */
  function GetProduct(ps: seq<Product>, id: string): (r: Reply<Product>)
    ensures r.Err? <==> forall j :: 0 <= j < |ps| ==> ps[j].id != id
    ensures r.Err? ==> r == Error(404, "Product not found")
    ensures r.Ok? ==> r.status == 200 && r.value in ps && r.value.id == id
    ensures r.Ok? ==> exists i :: 0 <= i < |ps| && ps[i] == r.value && forall j :: 0 <= j < i ==> ps[j].id != id
  {
    var i := FindIndex(ps, id);
    if i == -1 then Error(404, "Product not found") else Ok(200, ps[i])
  }

  // ---------------------------------------------------------------------
  // Availability: POST /products/:id/check-availability
  // ---------------------------------------------------------------------

  datatype Availability = Availability(productId: string, available: bool, requestedQuantity: int, currentStock: int)

  /** `quantity || 1`: an absent or zero quantity counts as one. */
  function Requested(quantity: Option<int>): int {
    if quantity.None? || quantity.value == 0 then 1 else quantity.value
  }

  function CheckAvailability(ps: seq<Product>, id: string, quantity: Option<int>): (r: Reply<Availability>)
    ensures r.Err? <==> FindIndex(ps, id) == -1
    ensures r.Err? ==> r == Error(404, "Product not found")
    ensures r.Ok? ==>
              var p := ps[FindIndex(ps, id)];
              && r.status == 200
              && r.value == Availability(p.id, p.stock >= Requested(quantity), Requested(quantity), p.stock)
    ensures r.Ok? && (quantity.None? || quantity == Some(0)) ==> r.value.available == (r.value.currentStock >= 1)
  {
    var i := FindIndex(ps, id);
    if i == -1 then Error(404, "Product not found")
    else
      var p := ps[i];
      var q := Requested(quantity);
      Ok(200, Availability(p.id, p.stock >= q, q, p.stock))
  }

  // ---------------------------------------------------------------------
  // Create and update: the request bodies and the records they produce
  // ---------------------------------------------------------------------

  /** A create body, fields already parsed; `None` is an absent (or, for the
      numbers, unparseable) field. */
  datatype NewProduct = NewProduct(name: Option<string>, description: Option<string>, price: Option<int>,
                                   stock: Option<int>, category: Option<string>)

  /** `!name || !price` */
  predicate CreateRejected(body: NewProduct) {
    !Given(body.name) || body.price.None? || body.price.value == 0
  }

  /** The record POST /products appends: description '' , stock 0 and
      category 'Uncategorized' by default. */
  function NewRecord(body: NewProduct, id: string, now: string): (p: Product)
    requires !CreateRejected(body)
    ensures p.id == id && p.name == body.name.value && p.price == body.price.value
    ensures p.description == (if Given(body.description) then body.description.value else "")
    ensures p.stock == (if body.stock.Some? then body.stock.value else 0)
    ensures p.category == (if Given(body.category) then body.category.value else "Uncategorized")
    ensures p.createdAt == Some(now) && p.updatedAt == None
  {
    Product(id, body.name.value, OrElse(body.description, ""), body.price.value,
            GetOr(body.stock, 0), OrElse(body.category, "Uncategorized"), Some(now), None)
  }

  /** An update body: each field present overrides the stored one. */
  datatype ProductPatch = ProductPatch(id: Option<string>, name: Option<string>, description: Option<string>,
                                       price: Option<int>, stock: Option<int>, category: Option<string>,
                                       createdAt: Option<string>, updatedAt: Option<string>)

  /** `{...stored, ...body, id: stored.id, updatedAt: now}` */
  function Merge(p: Product, patch: ProductPatch, now: string): (r: Product)
    ensures r.id == p.id
    ensures r.updatedAt == Some(now)
    ensures r.name == GetOr(patch.name, p.name) && r.description == GetOr(patch.description, p.description)
    ensures r.price == GetOr(patch.price, p.price) && r.stock == GetOr(patch.stock, p.stock)
    ensures r.category == GetOr(patch.category, p.category) && r.createdAt == (if patch.createdAt.Some? then patch.createdAt else p.createdAt)
  {
    Product(p.id, GetOr(patch.name, p.name), GetOr(patch.description, p.description),
            GetOr(patch.price, p.price), GetOr(patch.stock, p.stock),
            GetOr(patch.category, p.category),
            if patch.createdAt.Some? then patch.createdAt else p.createdAt,
            Some(now))
  }

  /** `splice(i, 1)`: removes exactly position `i`, keeping the others in order. */
  function RemoveAt(ps: seq<Product>, i: nat): (r: seq<Product>)
    requires i < |ps|
    ensures |r| == |ps| - 1
    ensures forall j :: 0 <= j < i ==> r[j] == ps[j]
    ensures forall j :: i <= j < |r| ==> r[j] == ps[j + 1]
    ensures multiset(r) + multiset{ps[i]} == multiset(ps)
  {
    assert ps == ps[..i] + [ps[i]] + ps[i + 1..];
    ps[..i] + ps[i + 1..]
  }

  /** No two stored products share an id. */
  predicate UniqueIds(ps: seq<Product>) {
    forall j, k :: 0 <= j < k < |ps| ==> ps[j].id != ps[k].id
  }

  /** Deleting the (only) product with an id leaves no product with that id. */
  lemma RemoveOnlyOfId(ps: seq<Product>, id: string)
    requires UniqueIds(ps) && FindIndex(ps, id) != -1
    ensures var r := RemoveAt(ps, FindIndex(ps, id));
            UniqueIds(r) && forall j :: 0 <= j < |r| ==> r[j].id != id
  {
  }

  // ---------------------------------------------------------------------
  // The store
  // ---------------------------------------------------------------------

  class ProductStore {
    /** The module-level `products` array. */
    var products: seq<Product>

    /** The three products the service starts with; ids come from uuid. */
    constructor (id1: string, id2: string, id3: string)
      ensures |products| == 3
      ensures products[0] == Product(id1, "Laptop", "High-performance laptop", 129999, 50, "Electronics", None, None)
      ensures products[1] == Product(id2, "Smartphone", "Latest model smartphone", 89999, 100, "Electronics", None, None)
      ensures products[2] == Product(id3, "Headphones", "Wireless noise-cancelling headphones", 24999, 75, "Accessories", None, None)
    {
      products := [
        Product(id1, "Laptop", "High-performance laptop", 129999, 50, "Electronics", None, None),
        Product(id2, "Smartphone", "Latest model smartphone", 89999, 100, "Electronics", None, None),
        Product(id3, "Headphones", "Wireless noise-cancelling headphones", 24999, 75, "Accessories", None, None)];
    }

    /** POST /products: 400 with the store unchanged when name or price is
        falsy; otherwise exactly one product appended and returned with 201. */
    method Create(body: NewProduct, id: string, now: string) returns (r: Reply<Product>)
      modifies this
      ensures CreateRejected(body) ==> r == Error(400, "Name and price are required") && products == old(products)
      ensures !CreateRejected(body) ==>
                r == Ok(201, NewRecord(body, id, now)) && products == old(products) + [r.value]
      ensures UniqueIds(old(products)) && (forall p :: p in old(products) ==> p.id != id) ==> UniqueIds(products)
    {
      if CreateRejected(body) {
        return Error(400, "Name and price are required");
      }
      var p := NewRecord(body, id, now);
      products := products + [p];
      r := Ok(201, p);
    }

    /** PUT /products/:id: 404 when absent; otherwise only the found element
        changes, to the merge of the stored product and the body. */
    method Update(id: string, patch: ProductPatch, now: string) returns (r: Reply<Product>)
      modifies this
      ensures var i := FindIndex(old(products), id);
              && (i == -1 ==> r == Error(404, "Product not found") && products == old(products))
              && (i != -1 ==> r == Ok(200, Merge(old(products)[i], patch, now))
                              && products == old(products)[i := r.value])
      ensures |products| == |old(products)|
      ensures forall j :: 0 <= j < |products| ==> products[j].id == old(products)[j].id
      ensures UniqueIds(old(products)) ==> UniqueIds(products)
    {
      var i := FindIndex(products, id);
      if i == -1 {
        return Error(404, "Product not found");
      }
      var updated := Merge(products[i], patch, now);
      products := products[i := updated];
      r := Ok(200, updated);
    }

    /** DELETE /products/:id: 404 when absent; otherwise removes exactly the
        first matching element and answers 204. */
    method Delete(id: string) returns (r: Reply<()>)
      modifies this
      ensures var i := FindIndex(old(products), id);
              && (i == -1 ==> r == Error(404, "Product not found") && products == old(products))
              && (i != -1 ==> r == Ok(204, ()) && products == RemoveAt(old(products), i))
      ensures UniqueIds(old(products)) ==> UniqueIds(products) && forall p :: p in products ==> p.id != id
    {
      var i := FindIndex(products, id);
      if i == -1 {
        return Error(404, "Product not found");
      }
      if UniqueIds(products) {
        RemoveOnlyOfId(products, id);
      }
      products := RemoveAt(products, i);
      r := Ok(204, ());
    }
  }
}
