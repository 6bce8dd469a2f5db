/** The categories route: the URL slug derived from a category name, the
    duplicate check and insert of POST, and the active-category listing of
    GET with each category's number of active products. */
module CategoriesApi {
  import opened Common
  import opened Db

  const DuplicateName: string := "Category with this name already exists"
  const FailedToCreate: string := "Failed to create category"

  // ---------------------------------------------------------------------
  // Slug generation

  /** A character the pattern `[a-z0-9]` accepts. */
  predicate SlugChar(c: char) { 'a' <= c <= 'z' || '0' <= c <= '9' }

  /** A well-formed slug: letters, digits and single dashes between them. */
  predicate IsSlug(s: string)
  {
    && (forall i :: 0 <= i < |s| ==> SlugChar(s[i]) || s[i] == '-')
    && (s != [] ==> s[0] != '-' && s[|s| - 1] != '-')
    && (forall i :: 0 <= i < |s| - 1 ==> !(s[i] == '-' && s[i + 1] == '-'))
  }

  /** The length of the leading run of characters outside `[a-z0-9]`. */
  function RunLength(s: string): (k: nat)
    ensures k <= |s|
    ensures k < |s| ==> SlugChar(s[k])
    ensures forall i :: 0 <= i < k ==> !SlugChar(s[i])
  {
    if s != [] && !SlugChar(s[0]) then
      var k := RunLength(s[1..]);
      assert forall i :: 1 <= i < 1 + k ==> s[i] == s[1..][i - 1];
      1 + k
    else 0
  }

  /** `replace(/[^a-z0-9]+/g, "-")`: every maximal run of other characters
      becomes a single dash. */
  function Dashed(s: string): (r: string)
    ensures forall i :: 0 <= i < |r| ==> SlugChar(r[i]) || r[i] == '-'
    ensures forall i :: 0 <= i < |r| - 1 ==> !(r[i] == '-' && r[i + 1] == '-')
    ensures (r != []) == (s != [])
    ensures r != [] ==> (r[0] == '-' <==> !SlugChar(s[0]))
    decreases |s|
  {
    if s == [] then []
    else if SlugChar(s[0]) then [s[0]] + Dashed(s[1..])
    else "-" + Dashed(s[RunLength(s)..])
  }

  /** `replace(/(^-|-$)/g, "")`: one leading and one trailing dash removed. */
  function TrimDashes(s: string): string
  {
    var t := if s != [] && s[0] == '-' then s[1..] else s;
    if t != [] && t[|t| - 1] == '-' then t[..|t| - 1] else t
  }

  /** The slug POST stores for a category name. */
  function Slug(name: string): string
  {
    TrimDashes(Dashed(Lower(name)))
  }

  /** Every slug is well formed, whatever the name. */
  lemma SlugIsSlug(name: string)
    ensures IsSlug(Slug(name))
  {
    var d := Dashed(Lower(name));
    var t := if d != [] && d[0] == '-' then d[1..] else d;
    assert forall i :: 0 <= i < |t| - 1 ==> !(t[i] == '-' && t[i + 1] == '-');
    assert t != [] ==> t[0] != '-';
  }

  /** The slug of a well-formed slug is itself. */
  lemma {:induction false} DashedOfSlugChars(s: string)
    requires forall i :: 0 <= i < |s| ==> SlugChar(s[i]) || s[i] == '-'
    requires forall i :: 0 <= i < |s| - 1 ==> !(s[i] == '-' && s[i + 1] == '-')
    ensures Dashed(s) == s
    decreases |s|
  {
    if s != [] {
      DashedOfSlugChars(s[1..]);
      if !SlugChar(s[0]) {
        assert RunLength(s[1..]) == 0;
        assert RunLength(s) == 1;
      }
    }
  }

  lemma SlugOfSlug(s: string)
    requires IsSlug(s)
    ensures Slug(s) == s
  {
    assert Lower(s) == s;
    DashedOfSlugChars(s);
  }

  /** Slug generation is idempotent. */
  lemma SlugIdempotent(name: string)
    ensures Slug(Slug(name)) == Slug(name)
  {
    SlugIsSlug(name);
    SlugOfSlug(Slug(name));
  }

  /** The dashes stand in for the dropped characters: the letters and digits
      survive, in order. */
  lemma {:induction false} DashedKeepsSlugChars(s: string)
    ensures Filter(Dashed(s), SlugChar) == Filter(s, SlugChar)
    decreases |s|, 1
  {
    if s != [] {
      if SlugChar(s[0]) {
        KeptCharKeepsSlugChars(s);
      } else {
        DashKeepsSlugChars(s);
      }
    }
  }

  /** The step of DashedKeepsSlugChars for a leading letter or digit. */
  lemma {:induction false} KeptCharKeepsSlugChars(s: string)
    requires s != [] && SlugChar(s[0])
    ensures Filter(Dashed(s), SlugChar) == Filter(s, SlugChar)
    decreases |s|, 0
  {
    assert s == [s[0]] + s[1..];
    FilterAppend([s[0]], s[1..], SlugChar);
    DashedKeepsSlugChars(s[1..]);
    FilterAppend([s[0]], Dashed(s[1..]), SlugChar);
  }

  /** The step of DashedKeepsSlugChars for a leading run of other characters. */
  lemma {:induction false} DashKeepsSlugChars(s: string)
    requires s != [] && !SlugChar(s[0])
    ensures Filter(Dashed(s), SlugChar) == Filter(s, SlugChar)
    decreases |s|, 0
  {
    var rest := s[RunLength(s)..];
    assert Dashed(s) == "-" + Dashed(rest);
    FilterDropsPrefix(s, RunLength(s), SlugChar);
    DashedKeepsSlugChars(rest);
    FilterAppend("-", Dashed(rest), SlugChar);
    DashHasNoSlugChars();
  }

  lemma DashHasNoSlugChars()
    ensures Filter("-", SlugChar) == []
  {
    FilterKeepsNone("-", SlugChar);
  }

  lemma DropDashKeepsSlugChars(s: string, t: string)
    ensures Filter(s + "-" + t, SlugChar) == Filter(s, SlugChar) + Filter(t, SlugChar)
  {
    var u := s + "-";
    FilterAppend(u, t, SlugChar);
    FilterAppend(s, "-", SlugChar);
    DashHasNoSlugChars();
    assert Filter(u, SlugChar) == Filter(s, SlugChar);
  }

  lemma TrimKeepsSlugChars(s: string)
    ensures Filter(TrimDashes(s), SlugChar) == Filter(s, SlugChar)
  {
    var t := if s != [] && s[0] == '-' then s[1..] else s;
    if s != [] && s[0] == '-' {
      assert s == [] + "-" + t;
      DropDashKeepsSlugChars([], t);
    }
    assert Filter(t, SlugChar) == Filter(s, SlugChar);
    if t != [] && t[|t| - 1] == '-' {
      assert t == t[..|t| - 1] + "-" + [];
      DropDashKeepsSlugChars(t[..|t| - 1], []);
    }
  }

  /** The slug holds exactly the letters and digits of the lower-cased name, in order. */
  lemma SlugKeepsLettersAndDigits(name: string)
    ensures Filter(Slug(name), SlugChar) == Filter(Lower(name), SlugChar)
  {
    DashedKeepsSlugChars(Lower(name));
    TrimKeepsSlugChars(Dashed(Lower(name)));
  }

  /** The slug is empty exactly when the name has no ASCII letter or digit. */
  lemma SlugEmptyIff(name: string)
    ensures Slug(name) == [] <==> forall i :: 0 <= i < |name| ==> !SlugChar(LowerChar(name[i]))
  {
    var low := Lower(name);
    SlugKeepsLettersAndDigits(name);
    SlugIsSlug(name);
    if Slug(name) == [] {
      forall i | 0 <= i < |name| ensures !SlugChar(LowerChar(name[i])) {
        assert low[i] in low;
      }
    } else {
      assert Slug(name)[0] in Filter(Slug(name), SlugChar);
      var k :| 0 <= k < |low| && low[k] == Slug(name)[0];
    }
  }

  // ---------------------------------------------------------------------
  // POST

  /** `findFirst({ where: { OR: [{ name }, { slug }] } })` finds a row. */
  predicate Taken(categories: seq<Category>, name: string, slug: string)
  {
    exists i :: 0 <= i < |categories| && (categories[i].name == name || categories[i].slug == slug)
  }

  /** A name and slug no row holds keep names and slugs unique. */
  lemma AppendFreshCategory(categories: seq<Category>, c: Category)
    requires CategoriesUnique(categories) && !Taken(categories, c.name, c.slug)
    ensures CategoriesUnique(categories + [c])
  {
  }

  /** Creating a category. A missing name makes the slug computation throw,
      which the handler turns into a 500; a name or slug already in the table
      is refused with 400; otherwise the category is inserted, active, with
      the derived slug. */
  method CreateCategory(db: Database, name: Option<string>, description: Option<string>,
                        image: Option<string>, now: int) returns (r: Reply<Category>)
    requires db.Valid()
    modifies db`categories, db`nextId
    ensures db.Valid()
    ensures name.None? ==> r == Failure(500, FailedToCreate)
    ensures name.Some? && Taken(old(db.categories), name.value, Slug(name.value)) ==> r == Failure(400, DuplicateName)
    ensures r.Success? <==> name.Some? && !Taken(old(db.categories), name.value, Slug(name.value))
    ensures r.Failure? ==> db.categories == old(db.categories) && db.nextId == old(db.nextId)
    ensures r.Success? ==>
      && r.status == 201
      && r.value == Category(old(db.nextId), name.value, description, Slug(name.value), image, true, now)
      && db.categories == old(db.categories) + [r.value]
      && db.nextId == old(db.nextId) + 1
  {
    if name.None? {
      return Failure(500, FailedToCreate);
    }
    var slug := Slug(name.value);
    if Taken(db.categories, name.value, slug) {
      return Failure(400, DuplicateName);
    }
    var id := db.NewId();
    var category := Category(id, name.value, description, slug, image, true, now);
    AppendFreshCategory(db.categories, category);
    db.categories := db.categories + [category];
    r := Success(201, category);
  }

  // ---------------------------------------------------------------------
  // GET

  /** Ascending order of names, character code by character code. */
  predicate NameLe(a: string, b: string)
  {
    a == [] || (b != [] && (a[0] < b[0] || (a[0] == b[0] && NameLe(a[1..], b[1..]))))
  }

  lemma {:induction false} NameLeTotal(a: string, b: string)
    ensures NameLe(a, b) || NameLe(b, a)
  {
    if a != [] && b != [] && a[0] == b[0] {
      NameLeTotal(a[1..], b[1..]);
    }
  }

  lemma {:induction false} NameLeTransitive(a: string, b: string, c: string)
    requires NameLe(a, b) && NameLe(b, c)
    ensures NameLe(a, c)
  {
    if a != [] && a[0] == b[0] && b[0] == c[0] {
      NameLeTransitive(a[1..], b[1..], c[1..]);
    }
  }

  /** `orderBy: { name: "asc" }`. */
  predicate ByName(a: Category, b: Category)
  {
    NameLe(a.name, b.name)
  }

  lemma ByNameIsTotal()
    ensures TotalPreorder(ByName)
  {
    forall a: Category, b: Category ensures ByName(a, b) || ByName(b, a) {
      NameLeTotal(a.name, b.name);
    }
    forall a: Category, b: Category, c: Category | ByName(a, b) && ByName(b, c) ensures ByName(a, c) {
      NameLeTransitive(a.name, b.name, c.name);
    }
  }

  predicate ActiveCategory(c: Category) { c.isActive }

  /** The filter `{ isActive: true }` on a category's products. */
  function ActiveProductOf(categoryId: Id): Product -> bool
  {
    (p: Product) => p.isActive && p.categoryId == categoryId
  }

  /** A category with `productCount`, the number of its active products. */
  datatype CategoryListing = CategoryListing(category: Category, productCount: nat)

  function ProductCount(products: seq<Product>, categoryId: Id): (r: nat)
    ensures r <= |products|
    ensures r == 0 <==> forall p :: p in products ==> !(p.isActive && p.categoryId == categoryId)
  {
    var r := Filter(products, ActiveProductOf(categoryId));
    assert r != [] ==> r[0] in r;
    |r|
  }

  function WithCounts(categories: seq<Category>, products: seq<Product>): (r: seq<CategoryListing>)
    ensures |r| == |categories|
    ensures forall i :: 0 <= i < |r| ==> r[i].category == categories[i]
    ensures forall i :: 0 <= i < |r| ==> r[i].productCount == ProductCount(products, categories[i].id)
  {
    if categories == [] then []
    else [CategoryListing(categories[0], ProductCount(products, categories[0].id))] + WithCounts(categories[1..], products)
  }

  /** The response of GET. */
  function ListCategories(categories: seq<Category>, products: seq<Product>): seq<CategoryListing>
  {
    WithCounts(ActiveByName(categories), products)
  }

  /** The categories GET lists: the active ones, in ascending name order. */
  function ActiveByName(categories: seq<Category>): (r: seq<Category>)
    ensures |r| == |Filter(categories, ActiveCategory)|
    ensures forall c :: c in r <==> c in categories && c.isActive
    ensures forall i, j :: 0 <= i < j < |r| ==> NameLe(r[i].name, r[j].name)
  {
    var active := Filter(categories, ActiveCategory);
    ByNameIsTotal();
    SortBySorted(active, ByName);
    var r := SortBy(active, ByName);
    assert |r| == |active| by {
      assert |multiset(r)| == |multiset(active)|;
    }
    assert forall c :: c in r <==> c in active by {
      forall c ensures c in r <==> c in active {
        assert c in r <==> c in multiset(r);
        assert c in active <==> c in multiset(active);
      }
    }
    r
  }

  /** GET lists every active category once and nothing else, in ascending
      name order, each with its count of active products. */
  lemma ListCategoriesSpec(categories: seq<Category>, products: seq<Product>)
    ensures var r := ListCategories(categories, products);
      && |r| == |Filter(categories, ActiveCategory)|
      && (forall c :: (exists i :: 0 <= i < |r| && r[i].category == c) <==> c in categories && c.isActive)
      && (forall i, j :: 0 <= i < j < |r| ==> NameLe(r[i].category.name, r[j].category.name))
      && (forall i :: 0 <= i < |r| ==> r[i].productCount == ProductCount(products, r[i].category.id))
  {
    var sorted := ActiveByName(categories);
    var r := ListCategories(categories, products);
    assert forall c :: (exists i :: 0 <= i < |r| && r[i].category == c) <==> c in sorted by {
      forall c ensures (exists i :: 0 <= i < |r| && r[i].category == c) <==> c in sorted {
        if c in sorted {
          var i :| 0 <= i < |sorted| && sorted[i] == c;
          assert r[i].category == c;
        }
      }
    }
  }
}
