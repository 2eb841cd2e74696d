/** The order-creation service: validate a customer and a list of requested
    (product, quantity) lines against the catalog, price the lines, compute
    the remaining stock per line, then update the stock and persist the order.
    Prices and quantities are integers (prices in cents). */
module Orders {

  import opened Wrappers

  type Id = string

  datatype Customer = Customer(id: Id)

  /** A row of the product table: unit price and available quantity. */
  datatype Stock = Stock(price: int, quantity: int)

  /** A product as the catalog's batch lookup returns it. */
  datatype Product = Product(id: Id, price: int, quantity: int)

  /** One requested line: a product id and the quantity asked for. */
  datatype LineRequest = LineRequest(id: Id, quantity: int)

  datatype Request = Request(customerId: Id, products: seq<LineRequest>)

  /** A priced order line: the price is the catalog price at order time. */
  datatype OrderLine = OrderLine(productId: Id, quantity: int, price: int)

  /** The quantity a product is to be set to. */
  datatype StockUpdate = StockUpdate(id: Id, quantity: int)

  /** What a successful validation hands to the two mutations. */
  datatype Plan = Plan(customer: Customer, updates: seq<StockUpdate>, lines: seq<OrderLine>)

  datatype Order = Order(customer: Customer, products: seq<OrderLine>)

  /** One variant per rejection the service raises. `InsufficientStock`
      carries the quantity that was requested on the offending line. */
  datatype Error =
    | CustomerNotFound
    | NoProductsFound
    | ProductNotFound(id: Id)
    | InsufficientStock(id: Id, quantity: int)

  // ---------------------------------------------------------------------------
  // Collaborators as functions of their tables

  /** `customersRepository.findById`. */
  function FindCustomer(customers: map<Id, Customer>, id: Id): (c: Option<Customer>)
    ensures c.Some? <==> id in customers
    ensures c.Some? ==> c.value == customers[id]
  {
    if id in customers then Some(customers[id]) else None
  }

  /** The product the catalog holds under `id`. */
  function Row(catalog: map<Id, Stock>, id: Id): Product
    requires id in catalog
  {
    Product(id, catalog[id].price, catalog[id].quantity)
  }

  /** The ids of the requested lines, in request order. */
  function RequestIds(lines: seq<LineRequest>): (ids: seq<Id>)
    ensures |ids| == |lines|
    ensures forall j :: 0 <= j < |lines| ==> ids[j] == lines[j].id
  {
    if lines == [] then [] else RequestIds(lines[..|lines| - 1]) + [lines[|lines| - 1].id]
  }

  /** The lookup returns catalog rows only, and finds every requested id the
      catalog holds. */
  ghost predicate Covers(catalog: map<Id, Stock>, lines: seq<LineRequest>, found: seq<Product>)
  {
    (forall p :: p in found ==> p.id in catalog && p == Row(catalog, p.id)) &&
    (forall j :: 0 <= j < |lines| ==> (lines[j].id in Ids(found) <==> lines[j].id in catalog))
  }

  /** Besides covering the request, the lookup returns only requested ids,
      and no id twice. */
  ghost predicate Exact(lines: seq<LineRequest>, found: seq<Product>)
  {
    (forall p :: p in found ==> p.id in RequestIds(lines)) &&
    (forall i, j :: 0 <= i < j < |found| ==> found[i].id != found[j].id)
  }

  /** Appends the row for `id` unless the catalog lacks it or it is already there. */
  function AddRow(catalog: map<Id, Stock>, found: seq<Product>, id: Id): seq<Product>
  {
    if id in catalog && id !in Ids(found) then found + [Row(catalog, id)] else found
  }

  lemma AddRowCovers(catalog: map<Id, Stock>, lines: seq<LineRequest>, found: seq<Product>, line: LineRequest)
    requires Covers(catalog, lines, found)
    ensures Covers(catalog, lines + [line], AddRow(catalog, found, line.id))
  {
    var lines' := lines + [line];
    var found' := AddRow(catalog, found, line.id);
    assert forall j :: 0 <= j < |lines| ==> lines'[j] == lines[j];
    if found' != found {
      assert Ids(found') == Ids(found) + [line.id];
    }
  }

  lemma AddRowExact(catalog: map<Id, Stock>, lines: seq<LineRequest>, found: seq<Product>, line: LineRequest)
    requires Exact(lines, found)
    ensures Exact(lines + [line], AddRow(catalog, found, line.id))
  {
    var lines' := lines + [line];
    var found' := AddRow(catalog, found, line.id);
    assert forall j :: 0 <= j < |lines| ==> lines'[j] == lines[j];
    assert RequestIds(lines') == RequestIds(lines) + [line.id];
    if found' != found {
      assert Ids(found') == Ids(found) + [line.id];
    }
  }

  /** `productsRepository.findAllById`: the catalog rows whose ids are among
      the requested ones, in order of first request. */
  function FindAllById(catalog: map<Id, Stock>, lines: seq<LineRequest>): (found: seq<Product>)
    ensures forall p :: p in found ==> p.id in catalog && p == Row(catalog, p.id)
    ensures forall j :: 0 <= j < |lines| ==> (lines[j].id in Ids(found) <==> lines[j].id in catalog)
    ensures NoneKnown(catalog, lines) ==> found == []
    decreases |lines|
  {
    if lines == [] then []
    else
      var front := lines[..|lines| - 1];
      var last := lines[|lines| - 1];
      var rest := FindAllById(catalog, front);
      AddRowCovers(catalog, front, rest, last);
      assert front + [last] == lines;
      AddRow(catalog, rest, last.id)
  }

  /** The lookup returns only rows for requested ids, each row once. */
  lemma {:induction false} FindAllByIdExact(catalog: map<Id, Stock>, lines: seq<LineRequest>)
    ensures Exact(lines, FindAllById(catalog, lines))
  {
    if lines != [] {
      var front := lines[..|lines| - 1];
      var last := lines[|lines| - 1];
      var rest := FindAllById(catalog, front);
      FindAllByIdExact(catalog, front);
      AddRowExact(catalog, front, rest, last);
      assert front + [last] == lines;
      assert FindAllById(catalog, lines) == AddRow(catalog, rest, last.id);
    }
  }

  /** Rows come in order of first request: asking for a, b, a finds a, then b. */
  lemma FirstRequestOrder()
    ensures var catalog := map["a" := Stock(100, 1), "b" := Stock(200, 2)];
      FindAllById(catalog, [LineRequest("a", 1), LineRequest("b", 1), LineRequest("a", 1)])
        == [Product("a", 100, 1), Product("b", 200, 2)]
  {
    var catalog := map["a" := Stock(100, 1), "b" := Stock(200, 2)];
    var lines := [LineRequest("a", 1), LineRequest("b", 1), LineRequest("a", 1)];
    assert lines[..2][..1] == [LineRequest("a", 1)];
    assert lines[..2] == [LineRequest("a", 1), LineRequest("b", 1)];
    assert FindAllById(catalog, lines[..2][..1]) == [Product("a", 100, 1)];
    assert FindAllById(catalog, lines[..2]) == [Product("a", 100, 1), Product("b", 200, 2)];
  }

  // ---------------------------------------------------------------------------
  // The validation pipeline over what the lookup returned

  /** `productsExist.map(product => product.id)`. */
  function Ids(found: seq<Product>): (ids: seq<Id>)
    ensures |ids| == |found|
    ensures forall i :: 0 <= i < |found| ==> ids[i] == found[i].id
  {
    if found == [] then [] else [found[0].id] + Ids(found[1..])
  }

  /** `productsExist.filter(p => p.id === id)[0]`: the first product with that id. */
  function Lookup(found: seq<Product>, id: Id): (p: Product)
    requires id in Ids(found)
    ensures p in found && p.id == id
  {
    if found[0].id == id then found[0] else Lookup(found[1..], id)
  }

  /** The lookup returns the first product with that id, as `[0]` of the filter does. */
  lemma {:induction false} LookupIsFirst(found: seq<Product>, id: Id)
    requires id in Ids(found)
    ensures exists k :: 0 <= k < |found| && found[k] == Lookup(found, id) &&
                        forall j :: 0 <= j < k ==> found[j].id != id
  {
    if found[0].id != id {
      LookupIsFirst(found[1..], id);
      var k :| 0 <= k < |found| - 1 && found[1..][k] == Lookup(found[1..], id) &&
               forall j :: 0 <= j < k ==> found[1..][j].id != id;
      assert found[k + 1] == Lookup(found, id);
      assert forall j :: 0 <= j < k + 1 ==> found[j].id != id by {
        forall j | 0 <= j < k + 1 ensures found[j].id != id {
          if j > 0 { assert found[j] == found[1..][j - 1]; }
        }
      }
    } else {
      assert found[0] == Lookup(found, id);
    }
  }

  ghost predicate AllFound(found: seq<Product>, lines: seq<LineRequest>)
  {
    forall j :: 0 <= j < |lines| ==> lines[j].id in Ids(found)
  }

  /** Line `k` is the first, in request order, whose id the lookup missed. */
  ghost predicate IsFirstMissing(found: seq<Product>, lines: seq<LineRequest>, k: int)
  {
    0 <= k < |lines| && lines[k].id !in Ids(found) &&
    forall j :: 0 <= j < k ==> lines[j].id in Ids(found)
  }

  ghost predicate AllAvailable(found: seq<Product>, lines: seq<LineRequest>)
    requires AllFound(found, lines)
  {
    forall j :: 0 <= j < |lines| ==> Lookup(found, lines[j].id).quantity >= lines[j].quantity
  }

  /** Line `k` is the first, in request order, that asks for more than the found stock. */
  ghost predicate IsFirstShort(found: seq<Product>, lines: seq<LineRequest>, k: int)
    requires AllFound(found, lines)
  {
    0 <= k < |lines| && Lookup(found, lines[k].id).quantity < lines[k].quantity &&
    forall j :: 0 <= j < k ==> Lookup(found, lines[j].id).quantity >= lines[j].quantity
  }

  /** `products.filter(product => !productsExistIds.includes(product.id))`. */
  function Missing(found: seq<Product>, lines: seq<LineRequest>): (m: seq<LineRequest>)
    ensures m == [] <==> AllFound(found, lines)
  {
    if lines == [] then []
    else (if lines[0].id in Ids(found) then [] else [lines[0]]) + Missing(found, lines[1..])
  }

  /** The head of the filter is the first missing line in request order. */
  lemma {:induction false} MissingHead(found: seq<Product>, lines: seq<LineRequest>, k: int)
    requires IsFirstMissing(found, lines, k)
    ensures Missing(found, lines) != [] && Missing(found, lines)[0] == lines[k]
  {
    if k > 0 {
      assert IsFirstMissing(found, lines[1..], k - 1) by {
        forall j | 0 <= j < k - 1 ensures lines[1..][j].id in Ids(found) {
          assert lines[1..][j] == lines[j + 1];
        }
      }
      MissingHead(found, lines[1..], k - 1);
    }
  }

  /** `products.filter(product => productsExist.filter(p => p.id === product.id)[0].quantity < product.quantity)`. */
  function Short(found: seq<Product>, lines: seq<LineRequest>): (s: seq<LineRequest>)
    requires AllFound(found, lines)
    ensures s == [] <==> AllAvailable(found, lines)
  {
    if lines == [] then []
    else
      assert AllFound(found, lines[1..]) by {
        forall j | 0 <= j < |lines| - 1 ensures lines[1..][j].id in Ids(found) {
          assert lines[1..][j] == lines[j + 1];
        }
      }
      (if Lookup(found, lines[0].id).quantity < lines[0].quantity then [lines[0]] else [])
      + Short(found, lines[1..])
  }

  /** The head of the filter is the first short line in request order. */
  lemma {:induction false} ShortHead(found: seq<Product>, lines: seq<LineRequest>, k: int)
    requires AllFound(found, lines)
    requires IsFirstShort(found, lines, k)
    ensures Short(found, lines) != [] && Short(found, lines)[0] == lines[k]
  {
    if k > 0 {
      assert AllFound(found, lines[1..]) && IsFirstShort(found, lines[1..], k - 1) by {
        forall j | 0 <= j < |lines| - 1 ensures lines[1..][j] == lines[j + 1] {
        }
      }
      ShortHead(found, lines[1..], k - 1);
    }
  }

  /** The priced order lines, one per requested line. */
  function PricedLines(found: seq<Product>, lines: seq<LineRequest>): (r: seq<OrderLine>)
    requires AllFound(found, lines)
    ensures |r| == |lines|
    ensures forall i :: 0 <= i < |lines| ==>
      r[i] == OrderLine(lines[i].id, lines[i].quantity, Lookup(found, lines[i].id).price)
  {
    seq(|lines|, i requires 0 <= i < |lines| =>
      OrderLine(lines[i].id, lines[i].quantity, Lookup(found, lines[i].id).price))
  }

  /** The remaining stock, one entry per requested line, each computed from
      the stock the lookup returned (not from earlier lines of the request). */
  function Remaining(found: seq<Product>, lines: seq<LineRequest>): (r: seq<StockUpdate>)
    requires AllFound(found, lines)
    ensures |r| == |lines|
    ensures forall i :: 0 <= i < |lines| ==>
      r[i] == StockUpdate(lines[i].id, Lookup(found, lines[i].id).quantity - lines[i].quantity)
  {
    seq(|lines|, i requires 0 <= i < |lines| =>
      StockUpdate(lines[i].id, Lookup(found, lines[i].id).quantity - lines[i].quantity))
  }

  /** Everything `execute` does after the batch lookup and before the
      mutations: the three checks, in order, then the two computations. */
  function Process(customer: Customer, found: seq<Product>, lines: seq<LineRequest>): (r: Result<Plan, Error>)
    ensures r.Ok? <==> |found| > 0 && AllFound(found, lines) && AllAvailable(found, lines)
    ensures r.Ok? ==> r.value.customer == customer
    ensures r.Ok? ==> forall i :: 0 <= i < |r.value.updates| ==> r.value.updates[i].quantity >= 0
    ensures r.Err? ==> r.error != CustomerNotFound
  {
    if |found| == 0 then Err(NoProductsFound)
    else
      var missing := Missing(found, lines);
      if |missing| > 0 then Err(ProductNotFound(missing[0].id))
      else
        var short := Short(found, lines);
        if |short| > 0 then Err(InsufficientStock(short[0].id, short[0].quantity))
        else Ok(Plan(customer, Remaining(found, lines), PricedLines(found, lines)))
  }

  /** `CreateOrderService.execute` without its mutations. */
  function Execute(customers: map<Id, Customer>, catalog: map<Id, Stock>, request: Request): (r: Result<Plan, Error>)
    ensures request.customerId !in customers ==> r == Err(CustomerNotFound)
    ensures r.Ok? ==> request.customerId in customers && r.value.customer == customers[request.customerId]
    ensures r.Ok? ==> |r.value.lines| == |request.products| && |r.value.updates| == |request.products|
    ensures r.Ok? ==> forall i :: 0 <= i < |r.value.updates| ==> r.value.updates[i].quantity >= 0
    ensures r.Err? && request.customerId in customers ==> r.error != CustomerNotFound
  {
    match FindCustomer(customers, request.customerId)
    case None => Err(CustomerNotFound)
    case Some(customer) =>
      Process(customer, FindAllById(catalog, request.products), request.products)
  }

  // ---------------------------------------------------------------------------
  // What execute decides, stated against the catalog

  ghost predicate Known(catalog: map<Id, Stock>, lines: seq<LineRequest>)
  {
    forall j :: 0 <= j < |lines| ==> lines[j].id in catalog
  }

  ghost predicate NoneKnown(catalog: map<Id, Stock>, lines: seq<LineRequest>)
  {
    forall j :: 0 <= j < |lines| ==> lines[j].id !in catalog
  }

  /** Line `k` is the first, in request order, whose product the catalog lacks. */
  ghost predicate FirstUnknown(catalog: map<Id, Stock>, lines: seq<LineRequest>, k: int)
  {
    0 <= k < |lines| && lines[k].id !in catalog &&
    forall j :: 0 <= j < k ==> lines[j].id in catalog
  }

  ghost predicate InStock(catalog: map<Id, Stock>, lines: seq<LineRequest>)
    requires Known(catalog, lines)
  {
    forall j :: 0 <= j < |lines| ==> catalog[lines[j].id].quantity >= lines[j].quantity
  }

  /** Line `k` is the first, in request order, asking for more than the catalog holds. */
  ghost predicate FirstShortage(catalog: map<Id, Stock>, lines: seq<LineRequest>, k: int)
    requires Known(catalog, lines)
  {
    0 <= k < |lines| && catalog[lines[k].id].quantity < lines[k].quantity &&
    forall j :: 0 <= j < k ==> catalog[lines[j].id].quantity >= lines[j].quantity
  }

  /** Within a request, the lookup's answer for a requested id is the catalog row. */
  lemma LookupIsRow(catalog: map<Id, Stock>, lines: seq<LineRequest>, j: int)
    requires 0 <= j < |lines| && lines[j].id in catalog
    ensures lines[j].id in Ids(FindAllById(catalog, lines))
    ensures Lookup(FindAllById(catalog, lines), lines[j].id) == Row(catalog, lines[j].id)
  {
  }

  lemma FoundIffKnown(catalog: map<Id, Stock>, lines: seq<LineRequest>)
    ensures AllFound(FindAllById(catalog, lines), lines) <==> Known(catalog, lines)
  {
  }

  lemma AvailableIffInStock(catalog: map<Id, Stock>, lines: seq<LineRequest>)
    requires Known(catalog, lines)
    ensures AllFound(FindAllById(catalog, lines), lines)
    ensures AllAvailable(FindAllById(catalog, lines), lines) <==> InStock(catalog, lines)
  {
    var found := FindAllById(catalog, lines);
    forall j | 0 <= j < |lines|
      ensures Lookup(found, lines[j].id) == Row(catalog, lines[j].id)
    {
      LookupIsRow(catalog, lines, j);
    }
  }

  /** An unknown customer is rejected before anything else is looked at. */
  lemma UnknownCustomerRejected(customers: map<Id, Customer>, catalog: map<Id, Stock>, request: Request)
    requires request.customerId !in customers
    ensures Execute(customers, catalog, request) == Err(CustomerNotFound)
  {
  }

  /** With a known customer, `NoProductsFound` is raised exactly when no
      requested id is in the catalog (an empty request included). */
  lemma NoProductsIff(customers: map<Id, Customer>, catalog: map<Id, Stock>, request: Request)
    requires request.customerId in customers
    ensures Execute(customers, catalog, request) == Err(NoProductsFound)
        <==> NoneKnown(catalog, request.products)
  {
    var lines := request.products;
    var found := FindAllById(catalog, lines);
    if found != [] {
      assert found[0] in found;
      var id := found[0].id;
      assert Ids(found)[0] == id;
      if !NoneKnown(catalog, lines) {
        var j :| 0 <= j < |lines| && lines[j].id in catalog;
        assert lines[j].id in Ids(found);
      }
      if Missing(found, lines) != [] {
        assert Process(customers[request.customerId], found, lines).error.ProductNotFound?;
      }
    }
  }

  /** The first requested id the catalog lacks is the one reported, provided
      the lookup found something at all. */
  lemma FirstUnknownRejected(customers: map<Id, Customer>, catalog: map<Id, Stock>, request: Request, k: int)
    requires request.customerId in customers
    requires !NoneKnown(catalog, request.products)
    requires FirstUnknown(catalog, request.products, k)
    ensures Execute(customers, catalog, request) == Err(ProductNotFound(request.products[k].id))
  {
    var lines := request.products;
    var found := FindAllById(catalog, lines);
    var j :| 0 <= j < |lines| && lines[j].id in catalog;
    assert lines[j].id in Ids(found);
    assert IsFirstMissing(found, lines, k);
    MissingHead(found, lines, k);
  }

  /** The first line asking for more than the catalog holds is reported,
      with the quantity that line requested. Equality passes. */
  lemma FirstShortageRejected(customers: map<Id, Customer>, catalog: map<Id, Stock>, request: Request, k: int)
    requires request.customerId in customers
    requires Known(catalog, request.products)
    requires FirstShortage(catalog, request.products, k)
    ensures Execute(customers, catalog, request)
         == Err(InsufficientStock(request.products[k].id, request.products[k].quantity))
  {
    var lines := request.products;
    var found := FindAllById(catalog, lines);
    FirstShortIsFirstShortage(catalog, lines, k);
    assert lines[0].id in Ids(found);
    ShortHead(found, lines, k);
  }

  /** The first shortage against the catalog is the first short line against
      what the lookup returned. */
  lemma FirstShortIsFirstShortage(catalog: map<Id, Stock>, lines: seq<LineRequest>, k: int)
    requires Known(catalog, lines)
    requires FirstShortage(catalog, lines, k)
    ensures AllFound(FindAllById(catalog, lines), lines)
    ensures IsFirstShort(FindAllById(catalog, lines), lines, k)
  {
    var found := FindAllById(catalog, lines);
    FoundIffKnown(catalog, lines);
    forall j | 0 <= j <= k
      ensures Lookup(found, lines[j].id) == Row(catalog, lines[j].id)
    {
      LookupIsRow(catalog, lines, j);
    }
  }

  /** `execute` succeeds exactly when the customer exists, the request is
      non-empty, every id is in the catalog and every line fits the stock. */
  lemma SucceedsIff(customers: map<Id, Customer>, catalog: map<Id, Stock>, request: Request)
    ensures Execute(customers, catalog, request).Ok?
        <==> request.customerId in customers && |request.products| > 0 &&
             Known(catalog, request.products) && InStock(catalog, request.products)
  {
    var lines := request.products;
    var found := FindAllById(catalog, lines);
    FoundIffKnown(catalog, lines);
    if Known(catalog, lines) {
      AvailableIffInStock(catalog, lines);
      if |lines| > 0 {
        assert lines[0].id in Ids(found);
      }
    }
  }

  /** On success the order lines follow the request line by line, priced from
      the catalog, and each stock update is the catalog stock minus that
      line's quantity, never negative. */
  lemma SuccessPlan(customers: map<Id, Customer>, catalog: map<Id, Stock>, request: Request)
    requires Execute(customers, catalog, request).Ok?
    ensures Known(catalog, request.products)
    ensures var plan := Execute(customers, catalog, request).value;
      var lines := request.products;
      plan.customer == customers[request.customerId] &&
      |plan.lines| == |lines| && |plan.updates| == |lines| &&
      (forall i :: 0 <= i < |lines| ==>
        plan.lines[i] == OrderLine(lines[i].id, lines[i].quantity, catalog[lines[i].id].price)) &&
      (forall i :: 0 <= i < |lines| ==>
        plan.updates[i] == StockUpdate(lines[i].id, catalog[lines[i].id].quantity - lines[i].quantity) &&
        plan.updates[i].quantity >= 0)
  {
    var lines := request.products;
    var found := FindAllById(catalog, lines);
    FoundIffKnown(catalog, lines);
    AvailableIffInStock(catalog, lines);
  }

  /** A request naming an id the catalog lacks has a first such line. */
  lemma {:induction false} FirstUnknownExists(catalog: map<Id, Stock>, lines: seq<LineRequest>)
    requires !Known(catalog, lines)
    ensures exists k :: FirstUnknown(catalog, lines, k)
  {
    if lines[0].id in catalog {
      assert !Known(catalog, lines[1..]) by {
        forall j | 0 <= j < |lines| - 1 ensures lines[1..][j] == lines[j + 1] {
        }
      }
      FirstUnknownExists(catalog, lines[1..]);
      var k :| FirstUnknown(catalog, lines[1..], k);
      assert FirstUnknown(catalog, lines, k + 1);
    } else {
      assert FirstUnknown(catalog, lines, 0);
    }
  }

  /** A request that does not fit the stock has a first short line. */
  lemma {:induction false} FirstShortageExists(catalog: map<Id, Stock>, lines: seq<LineRequest>)
    requires Known(catalog, lines) && !InStock(catalog, lines)
    ensures exists k :: FirstShortage(catalog, lines, k)
  {
    assert Known(catalog, lines[1..]) by {
      forall j | 0 <= j < |lines| - 1 ensures lines[1..][j] == lines[j + 1] {
      }
    }
    if catalog[lines[0].id].quantity >= lines[0].quantity {
      assert !InStock(catalog, lines[1..]) by {
        forall j | 0 <= j < |lines| - 1 ensures lines[1..][j] == lines[j + 1] {
        }
      }
      FirstShortageExists(catalog, lines[1..]);
      var k :| FirstShortage(catalog, lines[1..], k);
      assert FirstShortage(catalog, lines, k + 1);
    } else {
      assert FirstShortage(catalog, lines, 0);
    }
  }

  /** Every failure is one of the four rejections, raised in pipeline order. */
  lemma Rejections(customers: map<Id, Customer>, catalog: map<Id, Stock>, request: Request)
    requires Execute(customers, catalog, request).Err?
    ensures var e := Execute(customers, catalog, request).error;
      var lines := request.products;
      (request.customerId !in customers && e == CustomerNotFound) ||
      (request.customerId in customers && NoneKnown(catalog, lines) && e == NoProductsFound) ||
      (request.customerId in customers && !NoneKnown(catalog, lines) &&
        exists k :: FirstUnknown(catalog, lines, k) && e == ProductNotFound(lines[k].id)) ||
      (request.customerId in customers && Known(catalog, lines) &&
        exists k :: FirstShortage(catalog, lines, k) && e == InsufficientStock(lines[k].id, lines[k].quantity))
  {
    var lines := request.products;
    if request.customerId in customers && !NoneKnown(catalog, lines) {
      SucceedsIff(customers, catalog, request);
      if !Known(catalog, lines) {
        FirstUnknownExists(catalog, lines);
        var k :| FirstUnknown(catalog, lines, k);
        FirstUnknownRejected(customers, catalog, request, k);
      } else {
        FirstShortageExists(catalog, lines);
        var k :| FirstShortage(catalog, lines, k);
        FirstShortageRejected(customers, catalog, request, k);
      }
    } else if request.customerId in customers {
      NoProductsIff(customers, catalog, request);
    }
  }

  // ---------------------------------------------------------------------------
  // The product table and its quantity update

  /** Sets one product's quantity, keeping its price; unknown ids are ignored. */
  function SetQuantity(table: map<Id, Stock>, u: StockUpdate): (t: map<Id, Stock>)
    ensures t.Keys == table.Keys
    ensures u.id in table ==> t[u.id] == Stock(table[u.id].price, u.quantity)
    ensures forall id :: id in table && id != u.id ==> t[id] == table[id]
  {
    if u.id in table then table[u.id := Stock(table[u.id].price, u.quantity)] else table
  }

  /** `productsRepository.updateQuantity`: the updates are written in order,
      so for an id named twice the later write stands. */
  function ApplyUpdates(table: map<Id, Stock>, updates: seq<StockUpdate>): (t: map<Id, Stock>)
    ensures t.Keys == table.Keys
    ensures forall id :: id in table ==> t[id].price == table[id].price
    decreases updates
  {
    if updates == [] then table else ApplyUpdates(SetQuantity(table, updates[0]), updates[1..])
  }

  ghost predicate NonNegative(table: map<Id, Stock>)
  {
    forall id :: id in table ==> table[id].quantity >= 0
  }

  /** Writing non-negative quantities keeps all stock non-negative. */
  lemma {:induction false} ApplyKeepsNonNegative(table: map<Id, Stock>, updates: seq<StockUpdate>)
    requires NonNegative(table)
    requires forall i :: 0 <= i < |updates| ==> updates[i].quantity >= 0
    ensures NonNegative(ApplyUpdates(table, updates))
    decreases updates
  {
    if updates != [] {
      ApplyKeepsNonNegative(SetQuantity(table, updates[0]), updates[1..]);
    }
  }

  /** A product no update names keeps its row. */
  lemma {:induction false} ApplyUntouched(table: map<Id, Stock>, updates: seq<StockUpdate>, id: Id)
    requires id in table
    requires forall i :: 0 <= i < |updates| ==> updates[i].id != id
    ensures ApplyUpdates(table, updates)[id] == table[id]
    decreases updates
  {
    if updates != [] {
      ApplyUntouched(SetQuantity(table, updates[0]), updates[1..], id);
    }
  }

  /** The last update naming a product decides its quantity. */
  lemma {:induction false} ApplyLastWins(table: map<Id, Stock>, updates: seq<StockUpdate>, i: int)
    requires 0 <= i < |updates| && updates[i].id in table
    requires forall j :: i < j < |updates| ==> updates[j].id != updates[i].id
    ensures ApplyUpdates(table, updates)[updates[i].id].quantity == updates[i].quantity
    decreases updates
  {
    if i == 0 {
      ApplyUntouched(SetQuantity(table, updates[0]), updates[1..], updates[0].id);
    } else {
      ApplyLastWins(SetQuantity(table, updates[0]), updates[1..], i - 1);
    }
  }

  /** Applying a successful plan keeps non-negative stock non-negative. */
  lemma PlanKeepsNonNegative(customers: map<Id, Customer>, table: map<Id, Stock>, request: Request)
    requires Execute(customers, table, request).Ok?
    ensures NonNegative(table) ==>
      NonNegative(ApplyUpdates(table, Execute(customers, table, request).value.updates))
  {
    if NonNegative(table) {
      ApplyKeepsNonNegative(table, Execute(customers, table, request).value.updates);
    }
  }

  ghost predicate DistinctIds(lines: seq<LineRequest>)
  {
    forall i, j :: 0 <= i < j < |lines| ==> lines[i].id != lines[j].id
  }

  /** When no id is requested twice, a successful order lowers each requested
      product's stock by exactly its requested quantity, keeping its price. */
  lemma StockAfterOrder(customers: map<Id, Customer>, catalog: map<Id, Stock>, request: Request)
    requires Execute(customers, catalog, request).Ok?
    requires DistinctIds(request.products)
    ensures Known(catalog, request.products)
    ensures var after := ApplyUpdates(catalog, Execute(customers, catalog, request).value.updates);
      var lines := request.products;
      forall i :: 0 <= i < |lines| ==>
        after[lines[i].id] == Stock(catalog[lines[i].id].price, catalog[lines[i].id].quantity - lines[i].quantity)
  {
    SuccessUpdates(customers, catalog, request);
    ApplyPlanned(catalog, request.products, Execute(customers, catalog, request).value.updates);
  }

  /** A successful order leaves every product it does not name as it was. */
  lemma UntouchedAfterOrder(customers: map<Id, Customer>, catalog: map<Id, Stock>, request: Request, id: Id)
    requires Execute(customers, catalog, request).Ok?
    requires id in catalog && forall i :: 0 <= i < |request.products| ==> request.products[i].id != id
    ensures ApplyUpdates(catalog, Execute(customers, catalog, request).value.updates)[id] == catalog[id]
  {
    SuccessUpdates(customers, catalog, request);
    ApplyUntouched(catalog, Execute(customers, catalog, request).value.updates, id);
  }

  /** The update part of SuccessPlan on its own. */
  lemma SuccessUpdates(customers: map<Id, Customer>, catalog: map<Id, Stock>, request: Request)
    requires Execute(customers, catalog, request).Ok?
    ensures Known(catalog, request.products)
    ensures var updates := Execute(customers, catalog, request).value.updates;
      var lines := request.products;
      |updates| == |lines| &&
      forall i :: 0 <= i < |lines| ==>
        updates[i] == StockUpdate(lines[i].id, catalog[lines[i].id].quantity - lines[i].quantity)
  {
    SuccessPlan(customers, catalog, request);
  }

  /** The table part of StockAfterOrder: writing, for distinct ids, stock
      minus requested quantity. */
  lemma ApplyPlanned(catalog: map<Id, Stock>, lines: seq<LineRequest>, updates: seq<StockUpdate>)
    requires Known(catalog, lines) && DistinctIds(lines) && |updates| == |lines|
    requires forall i :: 0 <= i < |lines| ==>
      updates[i] == StockUpdate(lines[i].id, catalog[lines[i].id].quantity - lines[i].quantity)
    ensures forall i :: 0 <= i < |lines| ==>
      ApplyUpdates(catalog, updates)[lines[i].id]
        == Stock(catalog[lines[i].id].price, catalog[lines[i].id].quantity - lines[i].quantity)
  {
    forall i | 0 <= i < |lines|
      ensures ApplyUpdates(catalog, updates)[lines[i].id].quantity == catalog[lines[i].id].quantity - lines[i].quantity
    {
      ApplyLastWins(catalog, updates, i);
    }
  }

  /** Duplicate ids are each checked against the stock the lookup returned:
      two lines of 3 against a stock of 5 both pass, 6 units are ordered,
      and the stock is left at 2. */
  lemma DuplicateOversell()
    ensures var customers := map["c" := Customer("c")];
      var catalog := map["p" := Stock(1000, 5)];
      var request := Request("c", [LineRequest("p", 3), LineRequest("p", 3)]);
      var r := Execute(customers, catalog, request);
      r.Ok? &&
      r.value.lines == [OrderLine("p", 3, 1000), OrderLine("p", 3, 1000)] &&
      ApplyUpdates(catalog, r.value.updates)["p"].quantity == 2
  {
    var customers := map["c" := Customer("c")];
    var catalog := map["p" := Stock(1000, 5)];
    var lines := [LineRequest("p", 3), LineRequest("p", 3)];
    var request := Request("c", lines);
    assert Known(catalog, lines) && InStock(catalog, lines);
    SucceedsIff(customers, catalog, request);
    SuccessPlan(customers, catalog, request);
    var updates := Execute(customers, catalog, request).value.updates;
    assert updates == [StockUpdate("p", 2), StockUpdate("p", 2)];
    ApplyLastWins(catalog, updates, 1);
  }

  /** A line short of stock rejects the whole request; the error names the
      short product with the quantity requested (1), not the stock (0). */
  lemma ShortLineScenario()
    ensures var customers := map["c1" := Customer("c1")];
      var catalog := map["p1" := Stock(1000, 5), "p2" := Stock(2000, 0)];
      Execute(customers, catalog, Request("c1", [LineRequest("p1", 2), LineRequest("p2", 1)]))
        == Err(InsufficientStock("p2", 1))
  {
    var customers := map["c1" := Customer("c1")];
    var catalog := map["p1" := Stock(1000, 5), "p2" := Stock(2000, 0)];
    var request := Request("c1", [LineRequest("p1", 2), LineRequest("p2", 1)]);
    assert FirstShortage(catalog, request.products, 1);
    FirstShortageRejected(customers, catalog, request, 1);
  }

  // ---------------------------------------------------------------------------
  // The service with its two repositories

  /** A call made on a repository, in the order the service makes them. */
  datatype Effect = QuantitiesUpdated(updates: seq<StockUpdate>) | OrderCreated(order: Order)

  /** The customer directory, the product table and the order table that the
      service's three repositories stand for. */
  class Store {
    const customers: map<Id, Customer>
    var products: map<Id, Stock>
    var orders: seq<Order>
    /** The mutations made so far, oldest first. */
    ghost var effects: seq<Effect>

    ghost predicate StockNonNegative()
      reads this
    {
      NonNegative(products)
    }

    constructor (customers: map<Id, Customer>, products: map<Id, Stock>)
      ensures this.customers == customers && this.products == products
      ensures orders == [] && effects == []
    {
      this.customers := customers;
      this.products := products;
      orders := [];
      effects := [];
    }

    /** `productsRepository.updateQuantity`. */
    method UpdateQuantity(updates: seq<StockUpdate>)
      modifies this
      ensures products == ApplyUpdates(old(products), updates)
      ensures orders == old(orders)
      ensures effects == old(effects) + [QuantitiesUpdated(updates)]
    {
      products := ApplyUpdates(products, updates);
      effects := effects + [QuantitiesUpdated(updates)];
    }

    /** `ordersRepository.create`. */
    method CreateOrderRecord(customer: Customer, lines: seq<OrderLine>) returns (order: Order)
      modifies this
      ensures order == Order(customer, lines)
      ensures products == old(products)
      ensures orders == old(orders) + [order]
      ensures effects == old(effects) + [OrderCreated(order)]
    {
      order := Order(customer, lines);
      orders := orders + [order];
      effects := effects + [OrderCreated(order)];
    }

    /** `CreateOrderService.execute`: on a rejection nothing changes; on
        success the stock is updated first, then the order is created for
        the found customer, and non-negative stock stays non-negative. */
    method CreateOrder(request: Request) returns (r: Result<Order, Error>)
      modifies this
      ensures old(StockNonNegative()) ==> StockNonNegative()
      ensures var outcome := Execute(customers, old(products), request);
        match outcome
        case Err(e) =>
          r == Err(e) && products == old(products) && orders == old(orders) && effects == old(effects)
        case Ok(plan) =>
          var order := Order(plan.customer, plan.lines);
          r == Ok(order) &&
          products == ApplyUpdates(old(products), plan.updates) &&
          orders == old(orders) + [order] &&
          effects == old(effects) + [QuantitiesUpdated(plan.updates), OrderCreated(order)]
    {
      var outcome := Execute(customers, products, request);
      match outcome
      case Err(e) =>
        r := Err(e);
      case Ok(plan) =>
        PlanKeepsNonNegative(customers, products, request);
        UpdateQuantity(plan.updates);
        var order := CreateOrderRecord(plan.customer, plan.lines);
        r := Ok(order);
    }
  }

  /** A request for 2 of a product with enough stock: one order line priced
      from the catalog, and the stock comes down by 2. */
  lemma SingleLineScenario(q: int)
    requires q >= 2
    ensures var customers := map["c1" := Customer("c1")];
      var catalog := map["p1" := Stock(1000, q)];
      var r := Execute(customers, catalog, Request("c1", [LineRequest("p1", 2)]));
      r == Ok(Plan(Customer("c1"), [StockUpdate("p1", q - 2)], [OrderLine("p1", 2, 1000)])) &&
      ApplyUpdates(catalog, r.value.updates) == map["p1" := Stock(1000, q - 2)]
  {
    var customers := map["c1" := Customer("c1")];
    var catalog := map["p1" := Stock(1000, q)];
    var request := Request("c1", [LineRequest("p1", 2)]);
    SucceedsIff(customers, catalog, request);
    SuccessPlan(customers, catalog, request);
    var plan := Execute(customers, catalog, request).value;
    assert plan.updates == [StockUpdate("p1", q - 2)];
    assert plan.lines == [OrderLine("p1", 2, 1000)];
    assert ApplyUpdates(catalog, plan.updates) == ApplyUpdates(SetQuantity(catalog, plan.updates[0]), []);
    assert SetQuantity(catalog, plan.updates[0]) == map["p1" := Stock(1000, q - 2)];
  }

  /** The service does not deduplicate: the same request made twice creates
      two orders and takes the stock down twice. */
  method RepeatedOrder() returns (first: Result<Order, Error>, second: Result<Order, Error>, stock: int, orders: nat)
    ensures first.Ok? && second.Ok? && first == second
    ensures stock == 1 && orders == 2
  {
    var store := new Store(map["c1" := Customer("c1")], map["p1" := Stock(1000, 5)]);
    var request := Request("c1", [LineRequest("p1", 2)]);
    SingleLineScenario(5);
    first := store.CreateOrder(request);
    SingleLineScenario(3);
    second := store.CreateOrder(request);
    stock := store.products["p1"].quantity;
    orders := |store.orders|;
  }
}
