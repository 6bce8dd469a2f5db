/** The products endpoint. GET lists active products matching the query
    (category, featured flag, search in name or description), newest first,
    one page at a time, each with its average rating and review count, and
    the pagination block. POST creates a product with its variants and
    images unless its SKU is taken. */
module ProductsApi {
  import opened Common
  import opened Db

  const DefaultPage: int := 1
  const DefaultLimit: int := 12
  const FetchFailed: string := "Failed to fetch products"
  const DuplicateSku: string := "Product with this SKU already exists"
  const CreateFailed: string := "Failed to create product"

  /** The query string after `parseInt`; None stands for a parameter that is
      absent or empty. */
  datatype ProductQuery = ProductQuery(page: Option<int>, limit: Option<int>, categoryId: Option<Id>,
                                       featured: Option<string>, search: Option<string>)

  /** The `where` object; `isActive: true` is always part of it. */
  datatype Where = Where(categoryId: Option<Id>, featuredOnly: bool, search: Option<string>)

  datatype ProductSummary = ProductSummary(product: Product, averageRating: real, reviewCount: nat)

  datatype Pagination = Pagination(page: int, limit: int, total: nat, pages: Option<int>)

  datatype ProductPage = ProductPage(products: seq<ProductSummary>, pagination: Pagination)

  // ---------------------------------------------------------------------
  // Query

  /** `parseInt(param || default)`. */
  function OrDefault(param: Option<int>, default: int): int
  {
    if param.Some? then param.value else default
  }

  function Skip(page: int, limit: int): int
  {
    (page - 1) * limit
  }

  /** The `where` object a query stands for. */
  function QueryWhere(q: ProductQuery): Where
  {
    Where(q.categoryId, q.featured == Some("true"), if TruthyString(q.search) then q.search else None)
  }

  /** The `where` object, built field by field as the handler does. */
  method BuildWhere(q: ProductQuery) returns (w: Where)
    ensures w == QueryWhere(q)
    ensures w.categoryId == q.categoryId
    ensures w.featuredOnly <==> q.featured == Some("true")
    ensures w.search.Some? <==> TruthyString(q.search)
    ensures w.search.Some? ==> w.search == q.search
  {
    w := Where(None, false, None);
    if q.categoryId.Some? {
      w := w.(categoryId := q.categoryId);
    }
    if q.featured == Some("true") {
      w := w.(featuredOnly := true);
    }
    if TruthyString(q.search) {
      w := w.(search := q.search);
    }
  }

  /** A product the `where` object selects. */
  predicate Satisfies(w: Where, p: Product)
  {
    && p.isActive
    && (w.categoryId.Some? ==> p.categoryId == w.categoryId.value)
    && (w.featuredOnly ==> p.isFeatured)
    && (w.search.Some? ==> IncludesIgnoreCase(p.name, w.search.value) || IncludesIgnoreCase(p.description, w.search.value))
  }

  /** The query selects exactly the active products that meet each given condition. */
  lemma QueryWhereSelects(q: ProductQuery, p: Product)
    ensures Satisfies(QueryWhere(q), p) <==>
      && p.isActive
      && (q.categoryId.Some? ==> p.categoryId == q.categoryId.value)
      && (q.featured == Some("true") ==> p.isFeatured)
      && (TruthyString(q.search) ==>
            IncludesIgnoreCase(p.name, q.search.value) || IncludesIgnoreCase(p.description, q.search.value))
  {
  }

  function SatisfiesTest(w: Where): Product -> bool
  {
    (p: Product) => Satisfies(w, p)
  }

  /** `orderBy: { createdAt: "desc" }`. */
  predicate NewestFirst(a: Product, b: Product) { a.createdAt >= b.createdAt }

  lemma NewestFirstIsTotal()
    ensures TotalPreorder(NewestFirst)
  {
  }

  /** `skip` and `take` on the ordered rows. A negative `take` counts from the
      end: the database reverses the order, skips and takes `-take` rows, and
      reverses them back. */
  function Window<T>(s: seq<T>, skip: nat, take: int): (r: seq<T>)
    ensures |r| == Min(if take >= 0 then take else -take, Max(0, |s| - skip))
    ensures take >= 0 ==> forall j :: 0 <= j < |r| ==> r[j] == s[skip + j]
    ensures take < 0 ==> forall j :: 0 <= j < |r| ==> r[j] == s[Max(0, |s| - skip + take) + j]
  {
    if take >= 0 then s[Min(skip, |s|)..Min(skip + take, |s|)]
    else s[Max(0, |s| - skip + take)..Max(0, |s| - skip)]
  }

  function Reversed<T>(s: seq<T>): (r: seq<T>)
    ensures |r| == |s| && forall j :: 0 <= j < |s| ==> r[j] == s[|s| - 1 - j]
  {
    if s == [] then [] else Reversed(s[1..]) + [s[0]]
  }

  /** A negative `take` is the forward window of the reversed rows, reversed back. */
  lemma WindowFromEnd<T>(s: seq<T>, skip: nat, take: int)
    requires take < 0
    ensures Window(s, skip, take) == Reversed(Window(Reversed(s), skip, -take))
  {
    var r := Window(s, skip, take);
    var back := Window(Reversed(s), skip, -take);
    var t := Reversed(back);
    assert |t| == |r|;
    forall j | 0 <= j < |r|
      ensures r[j] == t[j]
    {
      assert t[j] == back[|back| - 1 - j];
      assert back[|back| - 1 - j] == Reversed(s)[skip + |back| - 1 - j];
    }
  }

  // ---------------------------------------------------------------------
  // Ratings

  function Rating(r: Review): int { r.rating }

  function ForProduct(productId: Id): Review -> bool
  {
    (r: Review) => r.productId == productId
  }

  /** The mean rating, 0 without reviews. */
  function AverageRating(rs: seq<Review>): real
  {
    if |rs| > 0 then SumInt(rs, Rating) as real / |rs| as real else 0.0
  }

  /** The mean lies within any bounds the ratings lie within, so between the
      lowest and the highest rating. */
  lemma AverageWithinBounds(rs: seq<Review>, lo: int, hi: int)
    requires |rs| > 0 && forall r :: r in rs ==> lo <= r.rating <= hi
    ensures lo as real <= AverageRating(rs) <= hi as real
  {
    SumIntBounds(rs, Rating, lo, hi);
    var n := |rs| as real;
    var total := SumInt(rs, Rating) as real;
    assert n * lo as real <= total <= n * hi as real;
    assert total / n >= lo as real by {
      assert total / n * n == total;
    }
    assert total / n <= hi as real by {
      assert total / n * n == total;
    }
  }

  function Summary(reviews: seq<Review>, p: Product): (r: ProductSummary)
    ensures r.product == p && r.reviewCount == |Filter(reviews, ForProduct(p.id))|
    ensures r.reviewCount == 0 <==> forall x :: x in reviews ==> x.productId != p.id
    ensures r.reviewCount == 0 ==> r.averageRating == 0.0
  {
    var mine := Filter(reviews, ForProduct(p.id));
    assert mine == [] <==> forall x :: x in reviews ==> x.productId != p.id by {
      if mine != [] {
        assert mine[0] in mine;
      }
    }
    ProductSummary(p, AverageRating(mine), |mine|)
  }

  function Summaries(reviews: seq<Review>, ps: seq<Product>): (r: seq<ProductSummary>)
    ensures |r| == |ps| && forall j :: 0 <= j < |ps| ==> r[j] == Summary(reviews, ps[j])
  {
    if ps == [] then [] else [Summary(reviews, ps[0])] + Summaries(reviews, ps[1..])
  }

  // ---------------------------------------------------------------------
  // GET

  /** `Math.ceil(total / limit)` as the JSON reply carries it: there is no page
      count (Infinity or NaN) for a limit of 0. */
  function Pages(total: nat, limit: int): (r: Option<int>)
    ensures r.Some? <==> limit != 0
    ensures limit > 0 ==> r.value >= 0
    ensures limit < 0 ==> r.value <= 0
  {
    if limit > 0 then Some(CeilDiv(total, limit))
    else if limit < 0 then Some(-(total / -limit))
    else None
  }

  /** The page count is the ceiling of total / limit: for a positive limit the
      least count whose pages cover total, for a negative one the count just
      above the negative quotient. */
  lemma PagesBounds(total: nat, limit: int)
    ensures limit > 0 ==> (Pages(total, limit).value - 1) * limit < total <= Pages(total, limit).value * limit
    ensures limit < 0 ==> Pages(total, limit).value * limit <= total < (Pages(total, limit).value - 1) * limit
  {
    if limit > 0 {
      CeilBounds(total, limit);
    } else if limit < 0 {
      FloorBounds(total, limit);
    }
  }

  /** The ceiling of total / d is the least count covering total. */
  lemma CeilBounds(total: nat, d: int)
    requires d > 0
    ensures (CeilDiv(total, d) - 1) * d < total <= CeilDiv(total, d) * d
  {
    var c := CeilDiv(total, d);
    assert (c - 1) * d == c * d - d;
  }

  /** For a negative limit, the negated floor of total / -limit is the
      ceiling of total / limit. */
  lemma FloorBounds(total: nat, limit: int)
    requires limit < 0
    ensures -(total / -limit) * limit <= total < (-(total / -limit) - 1) * limit
  {
    var d := -limit;
    var n := total / d;
    assert total == n * d + total % d;
    assert -n * limit == n * d;
    assert (-n - 1) * limit == n * d + d;
  }

  /** The selected rows, newest first. */
  function Ordered(products: seq<Product>, w: Where): seq<Product>
  {
    SortBy(Filter(products, SatisfiesTest(w)), NewestFirst)
  }

  /** The page of products: the window `skip`/`take` of the ordered rows, each
      with its rating summary. */
  function Listing(products: seq<Product>, reviews: seq<Review>, w: Where, skip: nat, take: int): seq<ProductSummary>
  {
    Summaries(reviews, Window(Ordered(products, w), skip, take))
  }

  /** Every listed product is a selected catalogue row, and the page holds at
      most `|take|` of them. */
  lemma ListingSelects(products: seq<Product>, reviews: seq<Review>, w: Where, skip: nat, take: int)
    ensures |Listing(products, reviews, w, skip, take)| <= if take >= 0 then take else -take
    ensures forall s :: s in Listing(products, reviews, w, skip, take) ==> s.product in products && Satisfies(w, s.product)
  {
    var matching := Filter(products, SatisfiesTest(w));
    var ordered := Ordered(products, w);
    var shown := Window(ordered, skip, take);
    var r := Listing(products, reviews, w, skip, take);
    forall s | s in r ensures s.product in products && Satisfies(w, s.product) {
      var j :| 0 <= j < |r| && r[j] == s;
      assert s.product == shown[j];
      assert shown[j] in multiset(ordered);
    }
  }

  /** The selection is ordered newest first and holds each selected row as
      often as the table does; so does the page. */
  lemma ListingNewestFirst(products: seq<Product>, reviews: seq<Review>, w: Where, skip: nat, take: int)
    ensures SortedBy(Ordered(products, w), NewestFirst)
    ensures multiset(Ordered(products, w)) == multiset(Filter(products, SatisfiesTest(w)))
    ensures forall j :: 0 < j < |Listing(products, reviews, w, skip, take)| ==>
      Listing(products, reviews, w, skip, take)[j - 1].product.createdAt >= Listing(products, reviews, w, skip, take)[j].product.createdAt
  {
    var ordered := Ordered(products, w);
    NewestFirstIsTotal();
    SortBySorted(Filter(products, SatisfiesTest(w)), NewestFirst);
    var shown := Window(ordered, skip, take);
    var r := Listing(products, reviews, w, skip, take);
    WindowKeepsOrder(ordered, skip, take, NewestFirst);
    forall j | 0 < j < |r|
      ensures r[j - 1].product.createdAt >= r[j].product.createdAt
    {
      assert r[j - 1].product == shown[j - 1] && r[j].product == shown[j];
      assert NewestFirst(shown[j - 1], shown[j]);
    }
  }

  /** A window of ordered rows is ordered. */
  lemma WindowKeepsOrder<T>(s: seq<T>, skip: nat, take: int, le: (T, T) -> bool)
    requires SortedBy(s, le)
    ensures SortedBy(Window(s, skip, take), le)
  {
    var r := Window(s, skip, take);
    var start := if take >= 0 then skip else Max(0, |s| - skip + take);
    forall i, j | 0 <= i < j < |r|
      ensures le(r[i], r[j])
    {
      assert r[i] == s[start + i] && r[j] == s[start + j];
    }
  }

  /** For a non-negative `take`, the row at place i of the ordered selection,
      for skip <= i < skip + take, is at place i - skip of the page. */
  lemma ListingFromSkip(products: seq<Product>, reviews: seq<Review>, w: Where, skip: nat, take: nat, i: int)
    requires skip <= i < skip + take && i < |Ordered(products, w)|
    ensures i - skip < |Listing(products, reviews, w, skip, take)|
    ensures Listing(products, reviews, w, skip, take)[i - skip] == Summary(reviews, Ordered(products, w)[i])
  {
    var shown := Window(Ordered(products, w), skip, take);
    assert shown[i - skip] == Ordered(products, w)[i];
  }

  /** For a negative `take`, the page is the last `-take` rows of the ordered
      selection before its final `skip` ones, in order: it holds
      min(-take, |rows| - skip) rows, and place j holds the row start + j,
      where start = max(0, |rows| - skip + take). */
  lemma ListingFromEnd(products: seq<Product>, reviews: seq<Review>, w: Where, skip: nat, take: int, j: int)
    requires take < 0 && 0 <= j < |Listing(products, reviews, w, skip, take)|
    ensures |Listing(products, reviews, w, skip, take)| == Min(-take, Max(0, |Ordered(products, w)| - skip))
    ensures Listing(products, reviews, w, skip, take)[j] ==
      Summary(reviews, Ordered(products, w)[Max(0, |Ordered(products, w)| - skip + take) + j])
  {
    var ordered := Ordered(products, w);
    var shown := Window(ordered, skip, take);
    assert Listing(products, reviews, w, skip, take) == Summaries(reviews, shown);
    WindowEnd(ordered, skip, take, j);
  }

  lemma WindowEnd<T>(s: seq<T>, skip: nat, take: int, j: int)
    requires take < 0 && 0 <= j < |Window(s, skip, take)|
    ensures Window(s, skip, take)[j] == s[Max(0, |s| - skip + take) + j]
  {
  }

  /** A negative skip is refused by the database and answered with 500; a
      negative take reads from the end of the ordered rows. */
  method ListProducts(db: Database, q: ProductQuery) returns (r: Reply<ProductPage>)
    ensures r.Failure? <==> Skip(OrDefault(q.page, DefaultPage), OrDefault(q.limit, DefaultLimit)) < 0
    ensures r.Failure? ==> r == Failure(500, FetchFailed)
    ensures r.Success? ==>
      && r.status == 200
      && r.value.pagination.page == OrDefault(q.page, DefaultPage)
      && r.value.pagination.limit == OrDefault(q.limit, DefaultLimit)
      && r.value.products == Listing(db.products, db.reviews, QueryWhere(q),
                                     Skip(OrDefault(q.page, DefaultPage), OrDefault(q.limit, DefaultLimit)),
                                     OrDefault(q.limit, DefaultLimit))
      && r.value.pagination.pages == Pages(r.value.pagination.total, r.value.pagination.limit)
    ensures r.Success? ==> forall s :: s in r.value.products ==>
      && s.product in db.products && s.product.isActive
      && (q.categoryId.Some? ==> s.product.categoryId == q.categoryId.value)
      && (q.featured == Some("true") ==> s.product.isFeatured)
      && (TruthyString(q.search) ==>
            IncludesIgnoreCase(s.product.name, q.search.value) || IncludesIgnoreCase(s.product.description, q.search.value))
    ensures r.Success? ==> r.value.pagination.total == |Filter(db.products, SatisfiesTest(QueryWhere(q)))|
  {
    var page := OrDefault(q.page, DefaultPage);
    var limit := OrDefault(q.limit, DefaultLimit);
    var skip := Skip(page, limit);
    if skip < 0 {
      return Failure(500, FetchFailed);
    }
    var w := BuildWhere(q);
    var total := |Filter(db.products, SatisfiesTest(w))|;
    ListingSelects(db.products, db.reviews, w, skip, limit);
    forall p ensures Satisfies(w, p) ==> p.isActive && (q.categoryId.Some? ==> p.categoryId == q.categoryId.value) {
      QueryWhereSelects(q, p);
    }
    r := Success(200, ProductPage(Listing(db.products, db.reviews, w, skip, limit),
                                  Pagination(page, limit, total, Pages(total, limit))));
  }

  // ---------------------------------------------------------------------
  // POST

  datatype VariantInput = VariantInput(size: string, color: string, stock: int, sku: string, price: Option<real>)

  datatype ImageInput = ImageInput(url: string, alt: string, position: int)

  /** The POST body after `parseFloat`/`parseInt`; None stands for an absent field. */
  datatype ProductInput = ProductInput(name: string, description: string, price: real, salePrice: Option<real>,
                                       sku: string, categoryId: Id, isFeatured: Option<bool>,
                                       variants: Option<seq<VariantInput>>, images: Option<seq<ImageInput>>)

  /** `x ? parseFloat(x) : null`. */
  function TruthyOrNull(x: Option<real>): (r: Option<real>)
    ensures r.Some? <==> TruthyReal(x)
    ensures r.Some? ==> r == x
  {
    if TruthyReal(x) then x else None
  }

  /** The variant rows: ids from `firstId` on, a falsy price stored as null. */
  function VariantRows(productId: Id, firstId: Id, inputs: seq<VariantInput>): (r: seq<Variant>)
    decreases |inputs|
    ensures |r| == |inputs|
    ensures forall j :: 0 <= j < |inputs| ==>
      r[j] == Variant(firstId + j, productId, inputs[j].size, inputs[j].color, inputs[j].stock, inputs[j].sku,
                      TruthyOrNull(inputs[j].price))
  {
    if inputs == [] then []
    else
      [Variant(firstId, productId, inputs[0].size, inputs[0].color, inputs[0].stock, inputs[0].sku,
               TruthyOrNull(inputs[0].price))]
      + VariantRows(productId, firstId + 1, inputs[1..])
  }

  /** The image rows: ids from `firstId` on, and the position is the index in
      the submitted list whatever position was submitted. */
  function ImageRows(productId: Id, firstId: Id, inputs: seq<ImageInput>, index: nat): (r: seq<Image>)
    decreases |inputs|
    ensures |r| == |inputs|
    ensures forall j :: 0 <= j < |inputs| ==>
      r[j] == Image(firstId + j, productId, inputs[j].url, inputs[j].alt, index + j)
  {
    if inputs == [] then []
    else
      [Image(firstId, productId, inputs[0].url, inputs[0].alt, index)]
      + ImageRows(productId, firstId + 1, inputs[1..], index + 1)
  }

  /** `isFeatured || false`. */
  function FeaturedOrFalse(b: Option<bool>): bool
  {
    b == Some(true)
  }

  function SkuTaken(products: seq<Product>, sku: string): bool
  {
    exists p :: p in products && p.sku == sku
  }

  /** `product.create` with its nested variant and image rows. */
  method InsertProduct(db: Database, product: Product, variantRows: seq<Variant>, imageRows: seq<Image>)
    requires db.Valid() && !SkuTaken(db.products, product.sku)
    requires product.id < db.nextId + 1 + |variantRows| + |imageRows|
    requires forall v :: v in variantRows ==> v.id < db.nextId + 1 + |variantRows| + |imageRows|
    requires forall m :: m in imageRows ==> m.id < db.nextId + 1 + |variantRows| + |imageRows|
    modifies db`nextId, db`products, db`variants, db`images
    ensures db.Valid()
    ensures db.products == old(db.products) + [product]
    ensures db.variants == old(db.variants) + variantRows
    ensures db.images == old(db.images) + imageRows
    ensures db.nextId == old(db.nextId) + 1 + |variantRows| + |imageRows|
  {
    AppendUniqueSku(db.products, product);
    CartItemsValidWhenTablesGrow(db.carts, db.products, db.variants, [], [product], variantRows, db.cartItems,
                                 old(db.nextId), db.nextId);
    db.products := db.products + [product];
    db.variants := db.variants + variantRows;
    db.images := db.images + imageRows;
    db.nextId := db.nextId + 1 + |variantRows| + |imageRows|;
  }

  function VariantInputs(input: ProductInput): seq<VariantInput>
  {
    if input.variants.Some? then input.variants.value else []
  }

  function ImageInputs(input: ProductInput): seq<ImageInput>
  {
    if input.images.Some? then input.images.value else []
  }

  /** The product row of a create that drew id `id`: active, with a falsy
      sale price stored as null and `isFeatured` defaulting to false. */
  function NewProduct(id: Id, input: ProductInput, now: int): Product
  {
    Product(id, input.name, input.description, input.price, TruthyOrNull(input.salePrice),
            input.sku, input.categoryId, true, FeaturedOrFalse(input.isFeatured), now)
  }

  /** The nested variant rows take the ids after the product's. */
  function NewVariants(id: Id, input: ProductInput): seq<Variant>
  {
    VariantRows(id, id + 1, VariantInputs(input))
  }

  /** The nested image rows take the ids after the variants'. */
  function NewImages(id: Id, input: ProductInput): seq<Image>
  {
    ImageRows(id, id + 1 + |VariantInputs(input)|, ImageInputs(input), 0)
  }

  method CreateProduct(db: Database, input: ProductInput, now: int) returns (r: Reply<Product>)
    requires db.Valid()
    modifies db`nextId, db`products, db`variants, db`images
    ensures db.Valid()
    ensures r.Failure? ==>
      db.nextId == old(db.nextId) && db.products == old(db.products) && db.variants == old(db.variants) && db.images == old(db.images)
    ensures SkuTaken(old(db.products), input.sku) ==> r == Failure(400, DuplicateSku)
    ensures !SkuTaken(old(db.products), input.sku) ==>
      (r.Failure? <==> input.categoryId !in set c | c in db.categories :: c.id)
    ensures r.Failure? && !SkuTaken(old(db.products), input.sku) ==> r == Failure(500, CreateFailed)
    ensures r.Success? ==>
      && r == Success(201, NewProduct(old(db.nextId), input, now))
      && db.products == old(db.products) + [r.value]
      && db.variants == old(db.variants) + NewVariants(old(db.nextId), input)
      && db.images == old(db.images) + NewImages(old(db.nextId), input)
      && db.nextId == old(db.nextId) + 1 + |VariantInputs(input)| + |ImageInputs(input)|
    ensures r.Success? ==> forall p :: p in old(db.products) ==> p.id != r.value.id
    ensures r.Success? ==> forall v, w :: v in old(db.variants) && w in NewVariants(old(db.nextId), input) ==> v.id != w.id
    ensures r.Success? ==> forall m, n :: m in old(db.images) && n in NewImages(old(db.nextId), input) ==> m.id != n.id
  {
    if exists p :: p in db.products && p.sku == input.sku {
      return Failure(400, DuplicateSku);
    }
    if input.categoryId !in set c | c in db.categories :: c.id {
      // the category foreign key rejects the insert
      return Failure(500, CreateFailed);
    }
    var id := db.nextId;
    var product := NewProduct(id, input, now);
    InsertProduct(db, product, NewVariants(id, input), NewImages(id, input));
    r := Success(201, product);
  }

  /** Adding a product whose SKU is not taken keeps SKUs unique. */
  lemma AppendUniqueSku(products: seq<Product>, p: Product)
    requires SkusUnique(products) && !SkuTaken(products, p.sku)
    ensures SkusUnique(products + [p])
  {
    var s := products + [p];
    forall i, j | 0 <= i < j < |s| ensures s[i].sku != s[j].sku {
      if j == |products| {
        assert s[i] in products;
      }
    }
  }
}
