/** The database behind the app: the `Category` and `Page` tables as
    sequences of rows, the constraints the schema declares, and the row-level
    operations the object-relational layer performs for `save()` and
    `objects.get(...)`. */
module Store {
  import opened Outcome
  import opened Queries

  /** A row of the `Category` table. `id` is 0 for an instance never saved. */
  datatype CategoryRow = CategoryRow(id: nat, name: string, views: int, likes: int, slug: string)

  /** A row of the `Page` table; `category` is the id of the category it
      belongs to (0 while unset). Timestamps are seconds since the epoch. */
  datatype PageRow = PageRow(
    id: nat,
    category: nat,
    title: string,
    url: string,
    views: nat,
    firstVisit: int,
    lastVisit: int)

  /** Both tables in insertion order. Nothing in the modelled code deletes a
      row, so the row with id `k` sits at position `k - 1`. */
  datatype Tables = Tables(categories: seq<CategoryRow>, pages: seq<PageRow>)

  /** The schema's constraints: ids follow insertion order, category names and
      slugs are unique (`unique=True`), and every page refers to an existing
      category (the foreign key). */
  predicate WellFormed(t: Tables) {
    CategoriesWellFormed(t.categories) && PagesWellFormed(t.pages, |t.categories|)
  }

  /** Category ids follow insertion order; names and slugs are unique. */
  predicate CategoriesWellFormed(categories: seq<CategoryRow>) {
    && (forall i :: 0 <= i < |categories| ==> categories[i].id == i + 1)
    && (forall i, j {:trigger Distinct(categories[i], categories[j])} :: 0 <= i < j < |categories| ==>
          Distinct(categories[i], categories[j]))
  }

  /** Two rows that may both be in the table: their names differ and so do
      their slugs. */
  predicate Distinct(a: CategoryRow, b: CategoryRow) {
    a.name != b.name && a.slug != b.slug
  }

  /** Any two categories of a well-formed table differ in name and slug. */
  lemma DistinctAt(categories: seq<CategoryRow>, i: nat, j: nat)
    requires CategoriesWellFormed(categories) && i < |categories| && j < |categories| && i != j
    ensures categories[i].name != categories[j].name && categories[i].slug != categories[j].slug
  {
    if i < j {
      assert Distinct(categories[i], categories[j]);
    } else {
      assert Distinct(categories[j], categories[i]);
    }
  }

  /** Page ids follow insertion order and every page refers to one of the
      `count` categories. */
  predicate PagesWellFormed(pages: seq<PageRow>, count: nat) {
    forall i :: 0 <= i < |pages| ==> pages[i].id == i + 1 && 1 <= pages[i].category <= count
  }

  /** No other category of a well-formed table has the name or the slug of
      the one at position `k`. */
  lemma OthersDiffer(categories: seq<CategoryRow>, k: nat)
    requires CategoriesWellFormed(categories) && k < |categories|
    ensures forall i :: 0 <= i < |categories| && i != k ==>
      categories[i].name != categories[k].name && categories[i].slug != categories[k].slug
  {
    forall i | 0 <= i < |categories| && i != k
      ensures categories[i].name != categories[k].name && categories[i].slug != categories[k].slug
    {
      DistinctAt(categories, i, k);
    }
  }

  /** No category other than the one at position `skip` has the name or the
      slug of `row`. */
  predicate Unique(categories: seq<CategoryRow>, row: CategoryRow, skip: int) {
    forall i :: 0 <= i < |categories| && i != skip ==>
      categories[i].name != row.name && categories[i].slug != row.slug
  }

  /** The tables after a successful write and the id of the written row. */
  datatype Written = Written(tables: Tables, id: nat)

  /** What `save()` does with a category row: an INSERT under the next id when
      the row has none yet, an UPDATE of the row with its id otherwise; a
      clash with another row's name or slug makes the database refuse the
      write with IntegrityError. */
  function WriteCategory(t: Tables, row: CategoryRow): (r: Result<Written>)
    requires row.id <= |t.categories|
    ensures r.Ok? <==> Unique(t.categories, row, row.id - 1)
    ensures r.Err? ==> r.failure == IntegrityError
    ensures r.Ok? ==>
      var c := r.value.tables.categories;
      && r.value.tables.pages == t.pages
      && (row.id == 0 ==> r.value.id == |t.categories| + 1 && |c| == |t.categories| + 1)
      && (row.id != 0 ==> r.value.id == row.id && |c| == |t.categories|)
      && c[r.value.id - 1] == row.(id := r.value.id)
      && (forall k :: 0 <= k < |t.categories| && k != r.value.id - 1 ==> c[k] == t.categories[k])
    ensures WellFormed(t) && r.Ok? ==> WellFormed(r.value.tables)
  {
    if !Unique(t.categories, row, row.id - 1) then Err(IntegrityError)
    else if row.id == 0 then
      var id := |t.categories| + 1;
      Ok(Written(t.(categories := t.categories + [row.(id := id)]), id))
    else
      Ok(Written(t.(categories := t.categories[row.id - 1 := row]), row.id))
  }

  /** What `save()` does with a page row: an INSERT under the next id when
      the row has none yet, an UPDATE otherwise. A page whose category was
      never saved is refused with ValueError before any SQL runs, and one
      whose category does not exist violates the foreign key. */
  function WritePage(t: Tables, row: PageRow): (r: Result<Written>)
    requires row.id <= |t.pages|
    ensures r.Ok? <==> 1 <= row.category <= |t.categories|
    ensures r.Err? ==> r.failure == (if row.category == 0 then ValueError else IntegrityError)
    ensures r.Ok? ==>
      var p := r.value.tables.pages;
      && r.value.tables.categories == t.categories
      && (row.id == 0 ==> r.value.id == |t.pages| + 1 && |p| == |t.pages| + 1)
      && (row.id != 0 ==> r.value.id == row.id && |p| == |t.pages|)
      && p[r.value.id - 1] == row.(id := r.value.id)
      && (forall k :: 0 <= k < |t.pages| && k != r.value.id - 1 ==> p[k] == t.pages[k])
    ensures WellFormed(t) && r.Ok? ==> WellFormed(r.value.tables)
  {
    if row.category == 0 then Err(ValueError)
    else if row.category > |t.categories| then Err(IntegrityError)
    else if row.id == 0 then
      var id := |t.pages| + 1;
      Ok(Written(t.(pages := t.pages + [row.(id := id)]), id))
    else
      Ok(Written(t.(pages := t.pages[row.id - 1 := row]), row.id))
  }

  /** `Category.objects.get(id=id)`. */
  function GetCategory(t: Tables, id: int): (r: Result<CategoryRow>)
    ensures r.Ok? ==> r.value in t.categories && r.value.id == id
    ensures WellFormed(t) && r.Ok? ==> 1 <= r.value.id <= |t.categories|
  {
    GetWhere(t.categories, (c: CategoryRow) => c.id == id)
  }

  /** `Page.objects.get(id=id)`. */
  function GetPage(t: Tables, id: int): (r: Result<PageRow>)
    ensures r.Ok? ==> r.value in t.pages && r.value.id == id
    ensures WellFormed(t) && r.Ok? ==> 1 <= r.value.id <= |t.pages|
  {
    GetWhere(t.pages, (p: PageRow) => p.id == id)
  }

  /** `Category.objects.get(slug=slug)`. */
  function CategoryBySlug(t: Tables, slug: string): (r: Result<CategoryRow>)
    ensures r.Ok? ==> r.value in t.categories && r.value.slug == slug
    ensures WellFormed(t) && r.Ok? ==> 1 <= r.value.id <= |t.categories|
  {
    GetWhere(t.categories, (c: CategoryRow) => c.slug == slug)
  }

  /** `Category.objects.get(name=name)`. */
  function CategoryByName(t: Tables, name: string): (r: Result<CategoryRow>)
    ensures r.Ok? ==> r.value in t.categories && r.value.name == name
    ensures WellFormed(t) && r.Ok? ==> 1 <= r.value.id <= |t.categories|
  {
    GetWhere(t.categories, (c: CategoryRow) => c.name == name)
  }

  /** `Page.objects.filter(category=category)`, in store order. */
  function PagesOf(t: Tables, category: nat): (r: seq<PageRow>)
    ensures forall i :: 0 <= i < |r| ==> r[i] in t.pages && r[i].category == category
    ensures forall i :: 0 <= i < |t.pages| && t.pages[i].category == category ==> t.pages[i] in r
  {
    Filter(t.pages, (p: PageRow) => p.category == category)
  }

  /** In well-formed tables a lookup by id finds the row at position id - 1,
      and fails with DoesNotExist for any other id. */
  lemma GetCategoryById(t: Tables, id: int)
    requires WellFormed(t)
    ensures GetCategory(t, id) ==
      if 1 <= id <= |t.categories| then Ok(t.categories[id - 1]) else Err(DoesNotExist)
  {
    var p := (c: CategoryRow) => c.id == id;
    if 1 <= id <= |t.categories| {
      FilterSingle(t.categories, p, id - 1);
    } else {
      FilterNone(t.categories, p);
    }
  }

  /** The same for pages. */
  lemma GetPageById(t: Tables, id: int)
    requires WellFormed(t)
    ensures GetPage(t, id) ==
      if 1 <= id <= |t.pages| then Ok(t.pages[id - 1]) else Err(DoesNotExist)
  {
    var p := (r: PageRow) => r.id == id;
    if 1 <= id <= |t.pages| {
      FilterSingle(t.pages, p, id - 1);
    } else {
      FilterNone(t.pages, p);
    }
  }

  /** Slugs are unique, so a lookup by slug never finds several rows: it finds
      the category with that slug or fails with DoesNotExist. */
  lemma CategoryBySlugUnique(t: Tables, slug: string)
    requires WellFormed(t)
    ensures CategoryBySlug(t, slug).Ok? <==> exists i :: 0 <= i < |t.categories| && t.categories[i].slug == slug
    ensures CategoryBySlug(t, slug).Err? ==> CategoryBySlug(t, slug).failure == DoesNotExist
  {
    var p := (c: CategoryRow) => c.slug == slug;
    if i :| 0 <= i < |t.categories| && t.categories[i].slug == slug {
      OthersDiffer(t.categories, i);
      FilterSingle(t.categories, p, i);
    } else {
      FilterNone(t.categories, p);
    }
  }

  /** Names are unique, so a lookup by name finds the one category with that
      name or fails with DoesNotExist. */
  lemma CategoryByNameUnique(t: Tables, name: string)
    requires WellFormed(t)
    ensures forall i :: 0 <= i < |t.categories| && t.categories[i].name == name ==>
      CategoryByName(t, name) == Ok(t.categories[i])
    ensures (forall i :: 0 <= i < |t.categories| ==> t.categories[i].name != name) ==>
      CategoryByName(t, name) == Err(DoesNotExist)
  {
    var p := (c: CategoryRow) => c.name == name;
    if i :| 0 <= i < |t.categories| && t.categories[i].name == name {
      OthersDiffer(t.categories, i);
      FilterSingle(t.categories, p, i);
    } else {
      FilterNone(t.categories, p);
    }
  }

  /** The database connection: the current contents of both tables. */
  class Database {
    var tables: Tables

    /** A fresh, empty database. */
    constructor ()
      ensures tables == Tables([], [])
    {
      tables := Tables([], []);
    }
  }
}
