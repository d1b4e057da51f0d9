/** The repository contract (`ProductRepository`) and the list-backed
    implementation its test defines: each operation is a function from the
    stored list to the list afterwards and the result the promise resolves to. */
module ProductRepository {
  import opened SharedTypes
  import opened Text
  import opened HttpErrors
  import opened ProductEntity

  datatype ProductFilter = ProductFilter(
    search: Option<string>,
    category: Option<string>,
    minPrice: Option<real>,
    maxPrice: Option<real>)

  datatype PaginationParams = PaginationParams(page: real, limit: real)

  datatype PaginatedProducts = PaginatedProducts(products: seq<Product>, total: nat, page: real, limit: real)

  type Store = seq<Product>

  /** The store after an operation, and what the operation resolved to. */
  datatype Outcome<+T> = Outcome(store: Store, result: Either<HttpError, T>)

  /** The error every operation resolves to when the id is unknown. */
  function ProductNotFound(): (e: HttpError)
    ensures e.statusCode == 404 && e.message == "Product not found"
  {
    NewHttpError("Product not found", 404, None)
  }

  // ----- filtering -----

  /** A filter value that JavaScript treats as true: present and not "" or 0. */
  predicate TextSet(v: Option<string>) { v.Some? && v.value != "" }
  predicate NumberSet(v: Option<real>) { v.Some? && v.value != 0.0 }

  /** The callback `findAll` filters with, as written: one early `return false`
      per filter that is set and not met. */
  predicate Passes(p: Product, filters: Option<ProductFilter>) {
    if filters.None? then true
    else
      var f := filters.value;
      if TextSet(f.category) && p.category != f.category.value then false
      else if NumberSet(f.minPrice) && p.price < f.minPrice.value then false
      else if NumberSet(f.maxPrice) && p.price > f.maxPrice.value then false
      else if TextSet(f.search) && !Includes(p.name, f.search.value) then false
      else true
  }

  /** The same filter stated as a conjunction: each filter that is set holds,
      the search one meaning that the search text is a slice of the name. */
  ghost predicate Satisfies(p: Product, f: ProductFilter) {
    && (TextSet(f.category) ==> p.category == f.category.value)
    && (NumberSet(f.minPrice) ==> p.price >= f.minPrice.value)
    && (NumberSet(f.maxPrice) ==> p.price <= f.maxPrice.value)
    && (TextSet(f.search) ==> exists i :: OccursAt(p.name, f.search.value, i))
  }

  lemma PassesIffSatisfies(p: Product, f: ProductFilter)
    ensures Passes(p, Some(f)) <==> Satisfies(p, f)
  {
    if TextSet(f.search) {
      IncludesIffInfix(p.name, f.search.value);
    }
  }

  /** `Array.prototype.filter`: the products that pass, in store order. */
  function Filter(s: Store, filters: Option<ProductFilter>): (r: Store)
    ensures |r| <= |s|
    ensures forall p :: p in r <==> p in s && Passes(p, filters)
    decreases |s|
  {
    if |s| == 0 then []
    else if Passes(s[0], filters) then [s[0]] + Filter(s[1..], filters)
    else Filter(s[1..], filters)
  }

  /** Filtering distributes over concatenation, so it keeps the store's order. */
  lemma {:induction false} FilterAppend(a: Store, b: Store, filters: Option<ProductFilter>)
    ensures Filter(a + b, filters) == Filter(a, filters) + Filter(b, filters)
    decreases |a|
  {
    if |a| > 0 {
      assert (a + b)[1..] == a[1..] + b;
      FilterAppend(a[1..], b, filters);
    } else {
      assert a + b == b;
    }
  }

  /** With no filter, or a filter whose every value is falsy, nothing is dropped. */
  lemma {:induction false} FilterWithoutFiltersKeepsAll(s: Store, filters: Option<ProductFilter>)
    requires filters.None? ||
      (!TextSet(filters.value.category) && !NumberSet(filters.value.minPrice)
       && !NumberSet(filters.value.maxPrice) && !TextSet(filters.value.search))
    ensures Filter(s, filters) == s
    decreases |s|
  {
    if |s| > 0 {
      FilterWithoutFiltersKeepsAll(s[1..], filters);
    }
  }

  /** `findAll`: the filtered products, their count, and the page and limit
      echoed back; the list is not sliced to the page. */
  function FindAll(s: Store, params: PaginationParams, filters: Option<ProductFilter>): (o: Outcome<PaginatedProducts>)
    ensures o.store == s && o.result.Right?
    ensures var page := o.result.rightValue;
      && page.products == Filter(s, filters)
      && page.total == |page.products|
      && page.page == params.page && page.limit == params.limit
  {
    var products := Filter(s, filters);
    Outcome(s, Right(PaginatedProducts(products, |products|, params.page, params.limit)))
  }

  // ----- lookup by id -----

  /** `findIndex` on the id: the first position holding that id, or -1. */
  function FindIndex(s: Store, id: string): (i: int)
    ensures -1 <= i < |s|
    ensures i >= 0 ==> s[i].id == id && forall j :: 0 <= j < i ==> s[j].id != id
    ensures i == -1 <==> forall j :: 0 <= j < |s| ==> s[j].id != id
    decreases |s|
  {
    if |s| == 0 then -1
    else if s[0].id == id then 0
    else
      var rest := FindIndex(s[1..], id);
      if rest == -1 then -1 else rest + 1
  }

  /** `findById`: the first product with that id, or a 404. */
  function FindById(s: Store, id: string): (o: Outcome<Product>)
    ensures o.store == s
    ensures o.result.Right? <==> exists j :: 0 <= j < |s| && s[j].id == id
    ensures o.result.Right? ==> o.result.rightValue == s[FindIndex(s, id)]
    ensures o.result.Left? ==> o.result.leftValue == ProductNotFound()
  {
    var i := FindIndex(s, id);
    if i == -1 then Outcome(s, Left(ProductNotFound())) else Outcome(s, Right(s[i]))
  }

  // ----- changes -----

  /** `create`: appends the product and resolves to it. */
  function Create(s: Store, p: Product): (o: Outcome<Product>)
    ensures o.store == s + [p] && o.result == Right(p)
  {
    Outcome(s + [p], Right(p))
  }

  /** `update`: replaces the first entry with the product's id; a 404 leaves
      the store as it was. */
  function Update(s: Store, p: Product): (o: Outcome<Product>)
    ensures |o.store| == |s|
    ensures FindIndex(s, p.id) == -1 ==> o.store == s && o.result == Left(ProductNotFound())
    ensures FindIndex(s, p.id) >= 0 ==>
      && o.result == Right(p)
      && o.store[FindIndex(s, p.id)] == p
      && forall j :: 0 <= j < |s| && j != FindIndex(s, p.id) ==> o.store[j] == s[j]
  {
    var i := FindIndex(s, p.id);
    if i == -1 then Outcome(s, Left(ProductNotFound())) else Outcome(s[i := p], Right(p))
  }

  /** `delete`: splices out the first entry with the id; a 404 leaves the
      store as it was. */
  function Delete(s: Store, id: string): (o: Outcome<()>)
    ensures FindIndex(s, id) == -1 ==> o.store == s && o.result == Left(ProductNotFound())
    ensures FindIndex(s, id) >= 0 ==>
      && o.result == Right(())
      && o.store == s[..FindIndex(s, id)] + s[FindIndex(s, id) + 1..]
      && |o.store| == |s| - 1
  {
    var i := FindIndex(s, id);
    if i == -1 then Outcome(s, Left(ProductNotFound())) else Outcome(s[..i] + s[i + 1..], Right(()))
  }

  // ----- how the operations fit together -----

  /** How many stored products carry the id. */
  function CountId(s: Store, id: string): (n: nat)
    ensures n <= |s|
    decreases |s|
  {
    if |s| == 0 then 0 else (if s[0].id == id then 1 else 0) + CountId(s[1..], id)
  }

  lemma {:induction false} CountIdAppend(a: Store, b: Store, id: string)
    ensures CountId(a + b, id) == CountId(a, id) + CountId(b, id)
    decreases |a|
  {
    if |a| > 0 {
      assert (a + b)[1..] == a[1..] + b;
      CountIdAppend(a[1..], b, id);
    } else {
      assert a + b == b;
    }
  }

  lemma {:induction false} CountIdZeroIffAbsent(s: Store, id: string)
    ensures CountId(s, id) == 0 <==> FindIndex(s, id) == -1
    decreases |s|
  {
    if |s| > 0 {
      CountIdZeroIffAbsent(s[1..], id);
    }
  }

  /** A product created under a new id is what `findById` then finds. */
  lemma {:induction false} CreateThenFind(s: Store, p: Product)
    requires FindIndex(s, p.id) == -1
    ensures FindById(Create(s, p).store, p.id).result == Right(p)
  {
    var t := Create(s, p).store;
    assert t[|s|] == p;
    assert FindIndex(t, p.id) == |s|;
  }

  /** After a successful update, `findById` finds the new version. */
  lemma {:induction false} UpdateThenFind(s: Store, p: Product)
    requires Update(s, p).result.Right?
    ensures FindById(Update(s, p).store, p.id).result == Right(p)
  {
    var i := FindIndex(s, p.id);
    var t := Update(s, p).store;
    assert t[i] == p;
    assert forall j :: 0 <= j < i ==> t[j] == s[j];
    assert FindIndex(t, p.id) == i;
  }

  /** A successful delete removes exactly one of the entries carrying the id
      and leaves every other entry in place. */
  lemma {:induction false} DeleteRemovesOne(s: Store, id: string)
    requires Delete(s, id).result.Right?
    ensures CountId(Delete(s, id).store, id) == CountId(s, id) - 1
    ensures multiset(Delete(s, id).store) + multiset{s[FindIndex(s, id)]} == multiset(s)
    // Only the first match goes, so the id is gone exactly when it was held once.
    ensures FindIndex(Delete(s, id).store, id) == -1 <==> CountId(s, id) == 1
  {
    var i := FindIndex(s, id);
    CountIdZeroIffAbsent(Delete(s, id).store, id);
    assert s == s[..i] + [s[i]] + s[i + 1..];
    CountIdAppend(s[..i] + [s[i]], s[i + 1..], id);
    CountIdAppend(s[..i], [s[i]], id);
    CountIdAppend(s[..i], s[i + 1..], id);
    assert CountId([s[i]], id) == 1 by {
      assert [s[i]][1..] == [];
    }
  }
}
