/** The population script: the seed data for nine categories and their
    pages, `add_cat` and `add_page` (each a `get_or_create` followed by a
    `save`), and the nested loop of `populate` that feeds the seed data
    through them in order. */
module Populate {
  import opened Outcome
  import opened Text
  import opened Queries
  import opened Store
  import opened Models

  /** One page of the seed data. */
  datatype PageSeed = PageSeed(title: string, url: string, views: nat)

  /** One category of the seed data with its pages. */
  datatype CategorySeed = CategorySeed(name: string, views: int, likes: int, pages: seq<PageSeed>)

  // ---------------------------------------------------------------------
  // The seed data

  const PythonPages: seq<PageSeed> := [
    PageSeed("Official Python Tutorial", "http://docs.python.org/2/tutorial/", 1024),
    PageSeed("How to think like a Computer Scientist", "http://www.greenteapress.com/thinkpython/", 512),
    PageSeed("Learn Python in 10 Minutes", "http://www.korokithakis.net/tutorials/python/", 64)]

  const DjangoPages: seq<PageSeed> := [
    PageSeed("Official Django Tutorial", "https://docs.djangoproject.com/en/1.9/intro/tutorial01/", 768),
    PageSeed("How to Tango with Django", "http://www.tangowithdjango.com/", 256)]

  /** The list is assigned twice with the same contents; the second
      assignment changes nothing. */
  const OtherPages: seq<PageSeed> := [
    PageSeed("Bottle", "http://bottlepy.org/docs/dev/", 8),
    PageSeed("Flask", "http://flask.pocoo.org", 32)]

  const PascalPages: seq<PageSeed> := [
    PageSeed("Pascal tutorial for beginners", "http://www.pascal-programming.info/index.php", 4),
    PageSeed("Free Pascal", "http://www.freepascal.org/advantage.var", 6)]

  const PrologPages: seq<PageSeed> := [
    PageSeed("SWI-Prolog", "http://www.swi-prolog.org/", 16),
    PageSeed("Visual Prolog", "http://www.visual-prolog.com/default.htm", 12)]

  const PostscriptPages: seq<PageSeed> := [
    PageSeed("Postscript Tutorial", "http://paulbourke.net/dataformats/postscript/", 78),
    PageSeed("Adobe Postscript", "http://www.adobe.com/products/postscript.html", 32)]

  const PhpPages: seq<PageSeed> := [
    PageSeed("PHP", "http://php.net/", 291),
    PageSeed("PHP Tutorial", "http://www.w3schools.com/php/", 60)]

  const ProgrammingPages: seq<PageSeed> := [
    PageSeed("Programming - Wikipedia", "http://en.wikipedia.org/wiki/Programming/", 512)]

  const PerlPages: seq<PageSeed> := [
    PageSeed("The perl programming language", "http://www.perl.org/", 8)]

  /** The `cats` dictionary in the order its entries are written, which is
      the order `items()` visits them. */
  const Seeds: seq<CategorySeed> := [
    CategorySeed("Python", 128, 64, PythonPages),
    CategorySeed("Django", 64, 32, DjangoPages),
    CategorySeed("Other Frameworks", 32, 16, OtherPages),
    CategorySeed("Pascal", 8, 4, PascalPages),
    CategorySeed("Prolog", 4, 2, PrologPages),
    CategorySeed("Perl", 48, 5, PerlPages),
    CategorySeed("PHP", 256, 128, PhpPages),
    CategorySeed("PostScript", 32, 8, PostscriptPages),
    CategorySeed("Programming", 2048, 1024, ProgrammingPages)]

  // ---------------------------------------------------------------------
  // The script at the level of the tables

  /** `add_cat(name, views, likes)`: get or create the category by name, set
      its counts, and save it. It fails only when the name is new and its
      slug is already taken by another category. */
  function CatAdded(t: Tables, name: string, views: int, likes: int): (r: Result<FetchedCategory>)
    requires Consistent(t)
    ensures r.Ok? ==>
      && Consistent(r.value.tables)
      && r.value.tables.pages == t.pages
      && 1 <= r.value.row.id <= |r.value.tables.categories|
      && r.value.tables.categories[r.value.row.id - 1] == r.value.row
      && r.value.row.name == name && r.value.row.views == Abs(views) && r.value.row.likes == likes
    ensures r.Ok? ==>
      && |t.categories| <= |r.value.tables.categories| <= |t.categories| + 1
      && forall k :: 0 <= k < |t.categories| && k != r.value.row.id - 1 ==>
           r.value.tables.categories[k] == t.categories[k]
    ensures r.Err? ==> r.failure == IntegrityError
  {
    CategoryByNameUnique(t, name);
    match CategoryGetOrCreate(t, name)
    case Err(f) => Err(f)
    case Ok(got) =>
      var c := got.row.(views := views, likes := likes);
      match SaveCategory(got.tables, c)
      case Err(f) => Err(f)
      case Ok(w) => Ok(FetchedCategory(w.tables, NormaliseCategory(c).(id := w.id)))
  }

  /** `add_cat` with the name of a stored category updates that category's
      counts in place and changes nothing else. */
  lemma {:induction false} CatAddedExisting(t: Tables, k: nat, views: int, likes: int)
    requires Consistent(t) && k < |t.categories|
    ensures var row := t.categories[k].(views := Abs(views), likes := likes);
      CatAdded(t, t.categories[k].name, views, likes) ==
        Ok(FetchedCategory(t.(categories := t.categories[k := row]), row))
  {
    var name := t.categories[k].name;
    CategoryByNameUnique(t, name);
    assert CategoryByName(t, name) == Ok(t.categories[k]);
    var c := t.categories[k].(views := views, likes := likes);
    assert Normalised(t.categories[k]);
    assert NormaliseCategory(c) == t.categories[k].(views := Abs(views), likes := likes);
    OthersDiffer(t.categories, k);
    assert Unique(t.categories, NormaliseCategory(c), k);
  }

  /** `add_cat` with a new name whose slug is free appends a category with
      the next id, the given counts and the slug of the name. */
  lemma {:induction false} CatAddedNew(t: Tables, name: string, views: int, likes: int)
    requires Consistent(t)
    requires forall k :: 0 <= k < |t.categories| ==> t.categories[k].name != name
    requires forall k :: 0 <= k < |t.categories| ==> t.categories[k].slug != Slugify(name)
    ensures var row := CategoryRow(|t.categories| + 1, name, Abs(views), likes, Slugify(name));
      CatAdded(t, name, views, likes) == Ok(FetchedCategory(t.(categories := t.categories + [row]), row))
  {
    CategoryByNameUnique(t, name);
    var id := |t.categories| + 1;
    var created := CategoryRow(0, name, 0, 0, "");
    var got := NormaliseCategory(created).(id := id);
    var mid := t.(categories := t.categories + [got]);
    assert Unique(t.categories, NormaliseCategory(created), -1);
    assert SaveCategory(t, created) == Ok(Written(mid, id));
    assert CategoryGetOrCreate(t, name) == Ok(FetchedCategory(mid, got));
    var c := got.(views := views, likes := likes);
    var row := CategoryRow(id, name, Abs(views), likes, Slugify(name));
    assert NormaliseCategory(c) == row;
    assert Unique(mid.categories, row, id - 1);
    assert mid.categories[id - 1 := row] == t.categories + [row];
  }

  /** `add_cat` with a new name whose slug another category already has is
      refused, and nothing is written. */
  lemma {:induction false} CatAddedSlugTaken(t: Tables, name: string, views: int, likes: int, k: nat)
    requires Consistent(t)
    requires forall i :: 0 <= i < |t.categories| ==> t.categories[i].name != name
    requires k < |t.categories| && t.categories[k].slug == Slugify(name)
    ensures CatAdded(t, name, views, likes) == Err(IntegrityError)
  {
    CategoryByNameUnique(t, name);
    var created := CategoryRow(0, name, 0, 0, "");
    assert !Unique(t.categories, NormaliseCategory(created), -1);
    assert SaveCategory(t, created) == Err(IntegrityError);
    assert CategoryGetOrCreate(t, name) == Err(IntegrityError);
  }

  /** `add_cat` fails exactly when no category has the name and another
      category already has the slug the name would get. */
  lemma {:induction false} CatAddedFails(t: Tables, name: string, views: int, likes: int)
    requires Consistent(t)
    ensures CatAdded(t, name, views, likes).Err? <==>
      && (forall k :: 0 <= k < |t.categories| ==> t.categories[k].name != name)
      && (exists k :: 0 <= k < |t.categories| && t.categories[k].slug == Slugify(name))
  {
    if k :| 0 <= k < |t.categories| && t.categories[k].name == name {
      CatAddedExisting(t, k, views, likes);
    } else if k :| 0 <= k < |t.categories| && t.categories[k].slug == Slugify(name) {
      CatAddedSlugTaken(t, name, views, likes, k);
    } else {
      CatAddedNew(t, name, views, likes);
    }
  }

  /** `add_page(cat, title, url, views)` at time `now`, for the category
      with id `category`: get or create the page by category and title, set
      its url and view count, and save it. */
  function PageAdded(t: Tables, category: nat, title: string, url: string, views: nat, now: int): (r: Result<FetchedPage>)
    requires Consistent(t)
    ensures r.Ok? ==>
      && Consistent(r.value.tables)
      && r.value.tables.categories == t.categories
      && 1 <= r.value.row.id <= |r.value.tables.pages|
      && r.value.tables.pages[r.value.row.id - 1] == r.value.row
      && r.value.row.category == category && r.value.row.title == title
      && r.value.row.url == url && r.value.row.views == views && r.value.row.lastVisit >= now
    ensures r.Ok? ==>
      && |t.pages| <= |r.value.tables.pages| <= |t.pages| + 1
      && forall k :: 0 <= k < |t.pages| && k != r.value.row.id - 1 ==>
           r.value.tables.pages[k] == t.pages[k]
    ensures r.Ok? <==>
      || PageByKey(t, category, title, None).Ok?
      || (PageByKey(t, category, title, None) == Err(DoesNotExist) && 1 <= category <= |t.categories|)
  {
    match PageGetOrCreate(t, category, title, None, now)
    case Err(f) => Err(f)
    case Ok(got) =>
      var p := got.row.(url := url, views := views);
      match SavePage(got.tables, p, now)
      case Err(f) => Err(f)
      case Ok(w) => Ok(FetchedPage(w.tables, PreparePage(p, now).(id := w.id)))
  }

  /** The row `add_page` leaves for a page that was not stored before:
      created with the next id, stamped with `now` as its first visit and
      (when now is after the epoch) as its last visit, and saved again with
      its url and view count. */
  function SeededPage(seed: PageSeed, category: nat, id: nat, now: int): PageRow {
    PageRow(id, category, seed.title, seed.url, seed.views, now, if Epoch < now then now else Epoch)
  }

  /** A stored page that matches a page of the seed data in every field the
      script sets. */
  predicate Matches(p: PageRow, category: nat, seed: PageSeed) {
    p.category == category && p.title == seed.title && p.url == seed.url && p.views == seed.views
  }

  /** `add_page` for a title the category does not have yet appends the
      page. */
  lemma {:induction false} PageAddedNew(t: Tables, category: nat, seed: PageSeed, now: int)
    requires Consistent(t) && 1 <= category <= |t.categories|
    requires forall k :: 0 <= k < |t.pages| ==> !(t.pages[k].category == category && t.pages[k].title == seed.title)
    ensures var row := SeededPage(seed, category, |t.pages| + 1, now);
      PageAdded(t, category, seed.title, seed.url, seed.views, now) ==
        Ok(FetchedPage(t.(pages := t.pages + [row]), row))
  {
    FilterNone(t.pages, (p: PageRow) => PageKey(p, category, seed.title, None));
    assert PageByKey(t, category, seed.title, None) == Err(DoesNotExist);
    var id := |t.pages| + 1;
    var created := PageRow(0, category, seed.title, "", 0, Epoch, Epoch);
    var got := PreparePage(created, now).(id := id);
    var mid := t.(pages := t.pages + [got]);
    assert SavePage(t, created, now) == Ok(Written(mid, id));
    assert PageGetOrCreate(t, category, seed.title, None, now) == Ok(FetchedPage(mid, got));
    var p := got.(url := seed.url, views := seed.views);
    var row := SeededPage(seed, category, id, now);
    assert PreparePage(p, now) == row;
    assert SavePage(mid, p, now) == Ok(Written(mid.(pages := mid.pages[id - 1 := row]), id));
    assert mid.pages[id - 1 := row] == t.pages + [row];
  }

  /** `add_page` for a title the category has exactly once updates that page
      in place: its url and view count, and its last visit as any save
      does. */
  lemma {:induction false} PageAddedExisting(t: Tables, category: nat, seed: PageSeed, now: int, k: nat)
    requires Consistent(t) && k < |t.pages|
    requires t.pages[k].category == category && t.pages[k].title == seed.title
    requires forall m :: 0 <= m < |t.pages| && m != k ==> !(t.pages[m].category == category && t.pages[m].title == seed.title)
    ensures var row := StampPage(t.pages[k].(url := seed.url, views := seed.views), now);
      PageAdded(t, category, seed.title, seed.url, seed.views, now) ==
        Ok(FetchedPage(t.(pages := t.pages[k := row]), row))
  {
    FilterSingle(t.pages, (p: PageRow) => PageKey(p, category, seed.title, None), k);
    assert PageByKey(t, category, seed.title, None) == Ok(t.pages[k]);
    assert PageGetOrCreate(t, category, seed.title, None, now) == Ok(FetchedPage(t, t.pages[k]));
    var p := t.pages[k].(url := seed.url, views := seed.views);
    assert PreparePage(p, now) == StampPage(p, now);
    assert SavePage(t, p, now) == Ok(Written(t.(pages := t.pages[k := StampPage(p, now)]), k + 1));
  }

  /** The tables after a run of the script, and the failure that ended it
      early, if any. Writes made before a failure stay in the tables. */
  datatype Run = Run(tables: Tables, failure: Option<Failure>)

  /** The inner loop: `add_page` for each page of one category in turn. */
  function PagesAdded(t: Tables, category: nat, pages: seq<PageSeed>, now: int): (r: Run)
    requires Consistent(t)
    ensures Consistent(r.tables) && r.tables.categories == t.categories
    ensures |r.tables.pages| >= |t.pages|
    decreases |pages|
  {
    if pages == [] then Run(t, None)
    else
      match PageAdded(t, category, pages[0].title, pages[0].url, pages[0].views, now)
      case Err(f) => Run(t, Some(f))
      case Ok(p) => PagesAdded(p.tables, category, pages[1..], now)
  }

  /** One pass of the outer loop: `add_cat` for the category, then its
      pages. */
  function SeedAdded(t: Tables, seed: CategorySeed, now: int): (r: Run)
    requires Consistent(t)
    ensures Consistent(r.tables)
    ensures |r.tables.categories| >= |t.categories| && |r.tables.pages| >= |t.pages|
  {
    match CatAdded(t, seed.name, seed.views, seed.likes)
    case Err(f) => Run(t, Some(f))
    case Ok(c) => PagesAdded(c.tables, c.row.id, seed.pages, now)
  }

  /** The outer loop: one pass per category, stopping at the first
      failure. */
  function Populated(t: Tables, seeds: seq<CategorySeed>, now: int): (r: Run)
    requires Consistent(t)
    ensures Consistent(r.tables)
    ensures |r.tables.categories| >= |t.categories| && |r.tables.pages| >= |t.pages|
    decreases |seeds|
  {
    if seeds == [] then Run(t, None)
    else
      var one := SeedAdded(t, seeds[0], now);
      if one.failure.Some? then one else Populated(one.tables, seeds[1..], now)
  }

  // ---------------------------------------------------------------------
  // The script as it runs against the database

  /** `add_cat` on the database, returning the saved model instance. */
  method AddCat(db: Database, name: string, views: int, likes: int) returns (r: Result<Category>)
    requires Consistent(db.tables)
    modifies db
    ensures var a := CatAdded(old(db.tables), name, views, likes);
      && (a.Ok? ==> r.Ok? && fresh(r.value) && r.value.Row() == a.value.row && db.tables == a.value.tables)
      && (a.Err? ==> r == Err(a.failure) && db.tables == old(db.tables))
  {
    ghost var before := db.tables;
    var got := GetOrCreateCategory(db, name);
    match got {
      case Err(f) =>
        return Err(f);
      case Ok(c) =>
        ghost var f := CategoryGetOrCreate(before, name);
        assert f.Ok? && c.Row() == f.value.row && db.tables == f.value.tables;
        c.views := views;
        c.likes := likes;
        assert c.Row() == f.value.row.(views := views, likes := likes);
        var saved := c.Save(db);
        r := match saved case Ok(_) => Ok(c) case Err(f) => Err(f);
    }
  }

  /** `add_page` on the database at time `now`, returning the saved model
      instance. */
  method AddPage(db: Database, cat: Category, title: string, url: string, views: nat, now: int) returns (r: Result<Page>)
    requires Consistent(db.tables)
    modifies db
    ensures var a := PageAdded(old(db.tables), cat.id, title, url, views, now);
      && (a.Ok? ==> r.Ok? && fresh(r.value) && r.value.Row() == a.value.row && db.tables == a.value.tables)
      && (a.Err? ==> r == Err(a.failure) && db.tables == old(db.tables))
  {
    ghost var before := db.tables;
    var got := GetOrCreatePage(db, cat.id, title, None, now);
    match got {
      case Err(f) =>
        return Err(f);
      case Ok(p) =>
        ghost var f := PageGetOrCreate(before, cat.id, title, None, now);
        assert f.Ok? && p.Row() == f.value.row && db.tables == f.value.tables;
        p.url := url;
        p.views := views;
        assert p.Row() == f.value.row.(url := url, views := views);
        var saved := p.Save(db, now);
        r := match saved case Ok(_) => Ok(p) case Err(f) => Err(f);
    }
  }

  /** `populate()` at time `now`: every category of the seed data, each
      followed by its pages. The first failure ends the script and leaves
      the earlier writes in place. */
  method Populate(db: Database, now: int) returns (r: Result<()>)
    requires Consistent(db.tables)
    modifies db
    ensures var run := Populated(old(db.tables), Seeds, now);
      && db.tables == run.tables
      && (r.Ok? <==> run.failure.None?)
      && (r.Err? ==> r.failure == run.failure.value)
  {
    r := AddAll(db, Seeds, now);
  }

  /** The two loops of `populate` over the given categories. */
  method AddAll(db: Database, cats: seq<CategorySeed>, now: int) returns (r: Result<()>)
    requires Consistent(db.tables)
    modifies db
    ensures var run := Populated(old(db.tables), cats, now);
      && db.tables == run.tables
      && (r.Ok? <==> run.failure.None?)
      && (r.Err? ==> r.failure == run.failure.value)
  {
    var i := 0;
    while i < |cats|
      invariant 0 <= i <= |cats|
      invariant Consistent(db.tables)
      invariant Populated(db.tables, cats[i..], now) == Populated(old(db.tables), cats, now)
    {
      assert cats[i..][0] == cats[i] && cats[i..][1..] == cats[i + 1..];
      var one := AddSeed(db, cats[i], now);
      if one.Err? {
        return one;
      }
      i := i + 1;
    }
    r := Ok(());
  }

  /** One pass of the outer loop on the database. */
  method AddSeed(db: Database, seed: CategorySeed, now: int) returns (r: Result<()>)
    requires Consistent(db.tables)
    modifies db
    ensures var run := SeedAdded(old(db.tables), seed, now);
      && db.tables == run.tables
      && (r.Ok? <==> run.failure.None?)
      && (r.Err? ==> r.failure == run.failure.value)
  {
    var added := AddCat(db, seed.name, seed.views, seed.likes);
    if added.Err? {
      return Err(added.failure);
    }
    r := AddPages(db, added.value, seed.pages, now);
  }

  /** The inner loop of `populate`: `add_page` for each page of one
      category. */
  method AddPages(db: Database, cat: Category, pages: seq<PageSeed>, now: int) returns (r: Result<()>)
    requires Consistent(db.tables)
    modifies db
    ensures var run := PagesAdded(old(db.tables), cat.id, pages, now);
      && db.tables == run.tables
      && (r.Ok? <==> run.failure.None?)
      && (r.Err? ==> r.failure == run.failure.value)
  {
    var j := 0;
    while j < |pages|
      invariant 0 <= j <= |pages|
      invariant Consistent(db.tables)
      invariant PagesAdded(db.tables, cat.id, pages[j..], now) == PagesAdded(old(db.tables), cat.id, pages, now)
    {
      var p := pages[j];
      assert pages[j..][0] == p && pages[j..][1..] == pages[j + 1..];
      ghost var beforePage := db.tables;
      var page := AddPage(db, cat, p.title, p.url, p.views, now);
      if page.Err? {
        assert PagesAdded(beforePage, cat.id, pages[j..], now) == Run(beforePage, Some(page.failure));
        return Err(page.failure);
      }
      j := j + 1;
    }
    r := Ok(());
  }
  // ---------------------------------------------------------------------
  // Populating an empty database

  /** The rows the pages of one category get when none of them is stored
      yet, with consecutive ids from `firstId`. */
  function SeededPages(pages: seq<PageSeed>, category: nat, firstId: nat, now: int): seq<PageRow> {
    seq(|pages|, j requires 0 <= j < |pages| => SeededPage(pages[j], category, firstId + j, now))
  }

  /** Each seeded page keeps its category, title, url and view count. */
  lemma {:induction false} SeededPagesFields(pages: seq<PageSeed>, category: nat, firstId: nat, now: int)
    ensures |SeededPages(pages, category, firstId, now)| == |pages|
    ensures forall j :: 0 <= j < |pages| ==>
      Matches(SeededPages(pages, category, firstId, now)[j], category, pages[j])
  {
  }

  lemma {:induction false} SeededPagesCons(pages: seq<PageSeed>, category: nat, firstId: nat, now: int)
    requires pages != []
    ensures SeededPages(pages, category, firstId, now) ==
      [SeededPage(pages[0], category, firstId, now)] + SeededPages(pages[1..], category, firstId + 1, now)
  {
    var r := [SeededPage(pages[0], category, firstId, now)] + SeededPages(pages[1..], category, firstId + 1, now);
    assert forall j :: 1 <= j < |pages| ==> r[j] == SeededPage(pages[1..][j - 1], category, firstId + 1 + (j - 1), now);
  }

  lemma {:induction false} AppendAssoc<T>(a: seq<T>, b: seq<T>, c: seq<T>)
    ensures (a + b) + c == a + (b + c)
  {
  }

  /** The row a category of the seed data gets when its name is new. */
  function SeededCategory(seed: CategorySeed, id: nat): CategoryRow {
    CategoryRow(id, seed.name, Abs(seed.views), seed.likes, Slugify(seed.name))
  }

  function TotalPages(seeds: seq<CategorySeed>): nat {
    if seeds == [] then 0 else |seeds[0].pages| + TotalPages(seeds[1..])
  }

  /** The tables after one new category of the seed data has been added:
      the category under the next id, followed by its pages. */
  function Appended(t: Tables, seed: CategorySeed, now: int): (r: Tables)
    ensures |r.categories| == |t.categories| + 1
    ensures r.categories[|t.categories|] == SeededCategory(seed, |t.categories| + 1)
    ensures forall k :: 0 <= k < |t.categories| ==> r.categories[k] == t.categories[k]
    ensures |r.pages| == |t.pages| + |seed.pages|
    ensures forall k :: 0 <= k < |t.pages| ==> r.pages[k] == t.pages[k]
    ensures forall j :: 0 <= j < |seed.pages| ==> Matches(r.pages[|t.pages| + j], |t.categories| + 1, seed.pages[j])
  {
    var id := |t.categories| + 1;
    SeededPagesFields(seed.pages, id, |t.pages| + 1, now);
    Tables(t.categories + [SeededCategory(seed, id)], t.pages + SeededPages(seed.pages, id, |t.pages| + 1, now))
  }

  /** The tables after seed data that is all new has been added: each
      category appended under the next id, followed by its pages. */
  function Seeded(t: Tables, seeds: seq<CategorySeed>, now: int): (r: Tables)
    ensures |r.categories| == |t.categories| + |seeds|
    ensures |r.pages| == |t.pages| + TotalPages(seeds)
    ensures forall k :: 0 <= k < |t.categories| ==> r.categories[k] == t.categories[k]
    ensures forall k :: 0 <= k < |t.pages| ==> r.pages[k] == t.pages[k]
    decreases |seeds|
  {
    if seeds == [] then t else Seeded(Appended(t, seeds[0], now), seeds[1..], now)
  }

  /** The pages from position `from` on all belong to categories with ids
      above `lo` and at most `hi`. */
  predicate CategoriesBetween(pages: seq<PageRow>, from: nat, lo: nat, hi: nat) {
    forall k :: from <= k < |pages| ==> lo < pages[k].category <= hi
  }

  /** Every page the seed data adds belongs to one of the categories it
      adds. */
  lemma {:induction false} SeededPagesInNewCategories(t: Tables, seeds: seq<CategorySeed>, now: int)
    ensures var r := Seeded(t, seeds, now);
      CategoriesBetween(r.pages, |t.pages|, |t.categories|, |r.categories|)
    decreases |seeds|
  {
    if seeds != [] {
      var id := |t.categories| + 1;
      var next := Appended(t, seeds[0], now);
      SeededPagesInNewCategories(next, seeds[1..], now);
      var r := Seeded(next, seeds[1..], now);
      assert Seeded(t, seeds, now) == r;
      assert CategoriesBetween(r.pages, |next.pages|, id, |r.categories|);
      forall k | |t.pages| <= k < |r.pages| ensures id - 1 < r.pages[k].category <= |r.categories| {
        if k < |next.pages| {
          assert r.pages[k] == next.pages[k];
          assert Matches(next.pages[|t.pages| + (k - |t.pages|)], id, seeds[0].pages[k - |t.pages|]);
        }
      }
    }
  }

  predicate DistinctTitles(pages: seq<PageSeed>) {
    forall i, j :: 0 <= i < j < |pages| ==> pages[i].title != pages[j].title
  }

  /** Seed data none of whose categories is stored yet: the slugs of the
      names differ from each other and from every stored slug, and no
      category lists a title twice. */
  predicate FreshSeeds(t: Tables, seeds: seq<CategorySeed>) {
    && (forall i, j :: 0 <= i < j < |seeds| ==> Slugify(seeds[i].name) != Slugify(seeds[j].name))
    && (forall i, k :: 0 <= i < |seeds| && 0 <= k < |t.categories| ==> t.categories[k].slug != Slugify(seeds[i].name))
    && (forall i :: 0 <= i < |seeds| ==> DistinctTitles(seeds[i].pages))
  }

  /** No page of the category in `t` has any of the titles. */
  predicate TitlesFree(t: Tables, category: nat, pages: seq<PageSeed>) {
    forall k, j :: 0 <= k < |t.pages| && 0 <= j < |pages| && t.pages[k].category == category ==>
      t.pages[k].title != pages[j].title
  }

  lemma {:induction false} TitlesFreeAfter(t: Tables, category: nat, pages: seq<PageSeed>, row: PageRow)
    requires pages != [] && DistinctTitles(pages) && TitlesFree(t, category, pages)
    requires row.title == pages[0].title
    ensures DistinctTitles(pages[1..])
    ensures TitlesFree(t.(pages := t.pages + [row]), category, pages[1..])
  {
    var rest := pages[1..];
    var t1 := t.(pages := t.pages + [row]);
    forall k, j | 0 <= k < |t1.pages| && 0 <= j < |rest| && t1.pages[k].category == category
      ensures t1.pages[k].title != rest[j].title
    {
      assert rest[j] == pages[j + 1];
    }
    forall i, j | 0 <= i < j < |rest| ensures rest[i].title != rest[j].title {
      assert rest[i] == pages[i + 1] && rest[j] == pages[j + 1];
    }
  }

  lemma {:induction false} PagesAddedStepNew(t: Tables, category: nat, pages: seq<PageSeed>, now: int)
    requires Consistent(t) && 1 <= category <= |t.categories|
    requires pages != [] && TitlesFree(t, category, pages)
    ensures var t1 := t.(pages := t.pages + [SeededPage(pages[0], category, |t.pages| + 1, now)]);
      Consistent(t1) && PagesAdded(t, category, pages, now) == PagesAdded(t1, category, pages[1..], now)
  {
    PageAddedNew(t, category, pages[0], now);
  }

  /** The inner loop over pages none of which the category has yet appends
      them all, in order. */
  lemma {:induction false} PagesAddedFresh(t: Tables, category: nat, pages: seq<PageSeed>, now: int)
    requires Consistent(t) && 1 <= category <= |t.categories|
    requires DistinctTitles(pages) && TitlesFree(t, category, pages)
    ensures PagesAdded(t, category, pages, now) ==
      Run(t.(pages := t.pages + SeededPages(pages, category, |t.pages| + 1, now)), None)
    decreases |pages|
  {
    if pages != [] {
      var row := SeededPage(pages[0], category, |t.pages| + 1, now);
      var t1 := t.(pages := t.pages + [row]);
      var rest := pages[1..];
      PagesAddedStepNew(t, category, pages, now);
      TitlesFreeAfter(t, category, pages, row);
      PagesAddedFresh(t1, category, rest, now);
      SeededPagesCons(pages, category, |t.pages| + 1, now);
      AppendAssoc(t.pages, [row], SeededPages(rest, category, |t1.pages| + 1, now));
    }
  }

  /** One pass of the outer loop for a new category with new pages. */
  lemma {:induction false} SeedAddedFresh(t: Tables, seed: CategorySeed, now: int)
    requires Consistent(t) && DistinctTitles(seed.pages)
    requires forall k :: 0 <= k < |t.categories| ==> t.categories[k].slug != Slugify(seed.name)
    ensures var id := |t.categories| + 1;
      SeedAdded(t, seed, now) ==
        Run(Appended(t, seed, now), None)
  {
    var id := |t.categories| + 1;
    forall k | 0 <= k < |t.categories| ensures t.categories[k].name != seed.name {
      assert Normalised(t.categories[k]);
      assert t.categories[k].slug == Slugify(t.categories[k].name);
    }
    CatAddedNew(t, seed.name, seed.views, seed.likes);
    var t1 := t.(categories := t.categories + [SeededCategory(seed, id)]);
    assert CatAdded(t, seed.name, seed.views, seed.likes) == Ok(FetchedCategory(t1, SeededCategory(seed, id)));
    assert TitlesFree(t1, id, seed.pages);
    PagesAddedFresh(t1, id, seed.pages, now);
  }

  lemma {:induction false} FreshSeedsAfter(t: Tables, seeds: seq<CategorySeed>, t2: Tables)
    requires seeds != [] && FreshSeeds(t, seeds)
    requires t2.categories == t.categories + [SeededCategory(seeds[0], |t.categories| + 1)]
    ensures FreshSeeds(t2, seeds[1..])
  {
    var rest := seeds[1..];
    forall i, j | 0 <= i < j < |rest| ensures Slugify(rest[i].name) != Slugify(rest[j].name) {
      assert rest[i] == seeds[i + 1] && rest[j] == seeds[j + 1];
    }
    SlugsFreeAfter(t, seeds, t2);
    forall i | 0 <= i < |rest| ensures DistinctTitles(rest[i].pages) {
      assert rest[i] == seeds[i + 1];
    }
  }

  lemma {:induction false} SlugsFreeAfter(t: Tables, seeds: seq<CategorySeed>, t2: Tables)
    requires seeds != [] && FreshSeeds(t, seeds)
    requires t2.categories == t.categories + [SeededCategory(seeds[0], |t.categories| + 1)]
    ensures forall i, k :: 0 <= i < |seeds| - 1 && 0 <= k < |t2.categories| ==>
      t2.categories[k].slug != Slugify(seeds[1..][i].name)
  {
    forall i, k | 0 <= i < |seeds| - 1 && 0 <= k < |t2.categories|
      ensures t2.categories[k].slug != Slugify(seeds[1..][i].name)
    {
      assert seeds[1..][i] == seeds[i + 1];
      if k < |t.categories| {
        assert t2.categories[k] == t.categories[k];
      } else {
        assert t2.categories[k].slug == Slugify(seeds[0].name);
      }
    }
  }

  /** Populating with seed data that is all new adds every category and every
      page, in order, and fails nowhere. */
  lemma {:induction false} PopulatedFresh(t: Tables, seeds: seq<CategorySeed>, now: int)
    requires Consistent(t) && FreshSeeds(t, seeds)
    ensures Populated(t, seeds, now) == Run(Seeded(t, seeds, now), None)
    decreases |seeds|
  {
    if seeds != [] {
      var seed := seeds[0];
      var id := |t.categories| + 1;
      var t2 := Appended(t, seed, now);
      assert DistinctTitles(seed.pages);
      SeedAddedFresh(t, seed, now);
      assert Populated(t, seeds, now) == Populated(t2, seeds[1..], now);
      FreshSeedsAfter(t, seeds, t2);
      PopulatedFresh(t2, seeds[1..], now);
    }
  }
  /** The slugs of the seed categories' names, in order. */
  const SeedSlugs: seq<string> := [
    "python", "django", "other-frameworks", "pascal", "prolog", "perl", "php", "postscript", "programming"]

  /** The slug of a name that is a single word is the word in lower case;
      `v` spells that out letter by letter. */
  lemma {:induction false} WordSlugOf(w: string, word: string, v: string)
    requires w == word && IsWord(word) && |word| == |v|
    requires forall i :: 0 <= i < |word| ==> LowerChar(word[i]) == v[i]
    ensures Slugify(w) == v
  {
    SlugifyOfWord(w);
    LowerIs(w, v);
  }

  /** The slug of two words separated by a space joins them, in lower case,
      with a hyphen. */
  lemma {:induction false} TwoWordSlugOf(w: string, a: string, b: string, v: string)
    requires IsWord(a) && IsWord(b) && w == a + (" " + b) && v == Lower(a) + ("-" + Lower(b))
    ensures Slugify(w) == v
  {
    SlugifyOfTwoWords(a, b);
  }

  lemma {:induction false} PythonSlug(seeds: seq<CategorySeed>)
    requires seeds == Seeds
    ensures Slugify(seeds[0].name) == SeedSlugs[0]
  {
    WordSlugOf(seeds[0].name, "Python", "python");
  }

  lemma {:induction false} DjangoSlug(seeds: seq<CategorySeed>)
    requires seeds == Seeds
    ensures Slugify(seeds[1].name) == SeedSlugs[1]
  {
    WordSlugOf(seeds[1].name, "Django", "django");
  }

  lemma {:induction false} OtherFrameworksSlug(seeds: seq<CategorySeed>)
    requires seeds == Seeds
    ensures Slugify(seeds[2].name) == SeedSlugs[2]
  {
    LowerIs("Other", "other");
    LowerIs("Frameworks", "frameworks");
    OtherFrameworksText();
    TwoWordSlugOf(seeds[2].name, "Other", "Frameworks", "other-frameworks");
  }

  lemma {:induction false} OtherFrameworksText()
    ensures "Other" + (" " + "Frameworks") == "Other Frameworks"
    ensures "other" + ("-" + "frameworks") == "other-frameworks"
  {
  }

  lemma {:induction false} PascalSlug(seeds: seq<CategorySeed>)
    requires seeds == Seeds
    ensures Slugify(seeds[3].name) == SeedSlugs[3]
  {
    WordSlugOf(seeds[3].name, "Pascal", "pascal");
  }

  lemma {:induction false} PrologSlug(seeds: seq<CategorySeed>)
    requires seeds == Seeds
    ensures Slugify(seeds[4].name) == SeedSlugs[4]
  {
    WordSlugOf(seeds[4].name, "Prolog", "prolog");
  }

  lemma {:induction false} PerlSlug(seeds: seq<CategorySeed>)
    requires seeds == Seeds
    ensures Slugify(seeds[5].name) == SeedSlugs[5]
  {
    WordSlugOf(seeds[5].name, "Perl", "perl");
  }

  lemma {:induction false} PhpSlug(seeds: seq<CategorySeed>)
    requires seeds == Seeds
    ensures Slugify(seeds[6].name) == SeedSlugs[6]
  {
    WordSlugOf(seeds[6].name, "PHP", "php");
  }

  lemma {:induction false} PostScriptSlug(seeds: seq<CategorySeed>)
    requires seeds == Seeds
    ensures Slugify(seeds[7].name) == SeedSlugs[7]
  {
    WordSlugOf(seeds[7].name, "PostScript", "postscript");
  }

  lemma {:induction false} ProgrammingSlug(seeds: seq<CategorySeed>)
    requires seeds == Seeds
    ensures Slugify(seeds[8].name) == SeedSlugs[8]
  {
    WordSlugOf(seeds[8].name, "Programming", "programming");
  }

  /** The slug of each seed category's name. */
  lemma {:induction false} SlugsOfSeeds(seeds: seq<CategorySeed>)
    requires seeds == Seeds
    ensures |seeds| == |SeedSlugs|
    ensures forall i :: 0 <= i < |seeds| ==> Slugify(seeds[i].name) == SeedSlugs[i]
  {
    assert |seeds| == 9;
    forall i | 0 <= i < |seeds| ensures Slugify(seeds[i].name) == SeedSlugs[i] {
      if i == 0 { PythonSlug(seeds); }
      else if i == 1 { DjangoSlug(seeds); }
      else if i == 2 { OtherFrameworksSlug(seeds); }
      else if i == 3 { PascalSlug(seeds); }
      else if i == 4 { PrologSlug(seeds); }
      else if i == 5 { PerlSlug(seeds); }
      else if i == 6 { PhpSlug(seeds); }
      else if i == 7 { PostScriptSlug(seeds); }
      else { ProgrammingSlug(seeds); }
    }
  }

  /** The nine slugs differ from each other. */
  lemma {:induction false} SeedSlugsDistinct()
    ensures forall i, j :: 0 <= i < j < |SeedSlugs| ==> SeedSlugs[i] != SeedSlugs[j]
  {
  }

  /** No seed category lists a title twice. */
  lemma {:induction false} SeedTitlesDistinct(seeds: seq<CategorySeed>)
    requires seeds == Seeds
    ensures forall i :: 0 <= i < |seeds| ==> DistinctTitles(seeds[i].pages)
  {
    assert |seeds| == 9;
    forall i | 0 <= i < |seeds| ensures DistinctTitles(seeds[i].pages) {
      if i == 0 { assert seeds[0].pages == PythonPages; }
      else if i == 1 { assert seeds[1].pages == DjangoPages; }
      else if i == 2 { assert seeds[2].pages == OtherPages; }
      else if i == 3 { assert seeds[3].pages == PascalPages; }
      else if i == 4 { assert seeds[4].pages == PrologPages; }
      else if i == 5 { assert seeds[5].pages == PerlPages; }
      else if i == 6 { assert seeds[6].pages == PhpPages; }
      else if i == 7 { assert seeds[7].pages == PostscriptPages; }
      else { assert seeds[8].pages == ProgrammingPages; }
    }
  }

  /** The seed data is new to a database without categories. */
  lemma {:induction false} SeedsFresh(t: Tables, seeds: seq<CategorySeed>)
    requires seeds == Seeds && t.categories == []
    ensures FreshSeeds(t, seeds)
  {
    SlugsOfSeeds(seeds);
    SeedSlugsDistinct();
    SeedTitlesDistinct(seeds);
  }

  lemma {:induction false} TotalPagesStep(seeds: seq<CategorySeed>, k: nat)
    requires k < |seeds|
    ensures TotalPages(seeds[k..]) == |seeds[k].pages| + TotalPages(seeds[k + 1..])
  {
    assert seeds[k..][1..] == seeds[k + 1..];
  }

  /** The seed data holds seventeen pages. */
  lemma {:induction false} SeedPageCount(seeds: seq<CategorySeed>)
    requires seeds == Seeds
    ensures TotalPages(seeds) == 17
  {
    assert |seeds| == 9 && seeds[9..] == [];
    TotalPagesStep(seeds, 8);
    TotalPagesStep(seeds, 7);
    TotalPagesStep(seeds, 6);
    TotalPagesStep(seeds, 5);
    TotalPagesStep(seeds, 4);
    TotalPagesStep(seeds, 3);
    TotalPagesStep(seeds, 2);
    TotalPagesStep(seeds, 1);
    TotalPagesStep(seeds, 0);
    assert seeds[0..] == seeds;
  }

  /** The seed data fills an empty database with nine categories and
      seventeen pages. */
  lemma {:induction false} SeededEmpty(t: Tables, seeds: seq<CategorySeed>, now: int)
    requires t == Tables([], []) && seeds == Seeds
    ensures |Seeded(t, seeds, now).categories| == 9 && |Seeded(t, seeds, now).pages| == 17
  {
    SeedPageCount(seeds);
  }

  /** On an empty database `populate` adds every category and page of the
      seed data, in order, and fails nowhere. */
  lemma {:induction false} PopulateEmpty(t: Tables, seeds: seq<CategorySeed>, now: int)
    requires t == Tables([], []) && seeds == Seeds
    ensures Populated(t, seeds, now) == Run(Seeded(t, seeds, now), None)
  {
    SeedsFresh(t, seeds);
    PopulatedFresh(t, seeds, now);
  }

  // ---------------------------------------------------------------------
  // Running the script again

  /** The pages in positions `lo` to `hi - 1` saved again at `now`. */
  function StampRange(pages: seq<PageRow>, lo: nat, hi: nat, now: int): (r: seq<PageRow>)
    ensures |r| == |pages|
  {
    seq(|pages|, k requires 0 <= k < |pages| => if lo <= k < hi then StampPage(pages[k], now) else pages[k])
  }

  /** Only the pages in the range are saved again, and saving one moves
      only its last visit. */
  lemma {:induction false} StampRangeAt(pages: seq<PageRow>, lo: nat, hi: nat, now: int)
    ensures forall k :: 0 <= k < |pages| && !(lo <= k < hi) ==> StampRange(pages, lo, hi, now)[k] == pages[k]
    ensures forall k :: lo <= k < hi && k < |pages| ==> StampRange(pages, lo, hi, now)[k] == StampPage(pages[k], now)
  {
  }

  /** The pages of one seed category stored in order from position `p0`
      among the page rows `rows`, and no other page of that category. */
  predicate Block(rows: seq<PageRow>, category: nat, p0: nat, pages: seq<PageSeed>) {
    && p0 + |pages| <= |rows|
    && (forall j :: 0 <= j < |pages| ==> Matches(rows[p0 + j], category, pages[j]))
    && (forall k :: 0 <= k < |rows| && rows[k].category == category ==> p0 <= k < p0 + |pages|)
    && DistinctTitles(pages)
  }

  /** The category of a seed stored at position `c0` with the counts the
      script sets, and its pages in a block from position `p0`. */
  predicate SeedStored(categories: seq<CategoryRow>, rows: seq<PageRow>, c0: nat, p0: nat, seed: CategorySeed) {
    && c0 < |categories|
    && categories[c0].name == seed.name
    && categories[c0].views == Abs(seed.views)
    && categories[c0].likes == seed.likes
    && Block(rows, c0 + 1, p0, seed.pages)
  }

  /** The i-th seed stored at category position `c0 + i`, its pages in a
      block after those of the seeds before it. */
  predicate SeedsStored(categories: seq<CategoryRow>, rows: seq<PageRow>, c0: nat, p0: nat, seeds: seq<CategorySeed>)
    decreases |seeds|
  {
    seeds != [] ==>
      && SeedStored(categories, rows, c0, p0, seeds[0])
      && SeedsStored(categories, rows, c0 + 1, p0 + |seeds[0].pages|, seeds[1..])
  }

  /** A page row with its last visit cleared: all the script determines
      about a stored page. */
  function Content(p: PageRow): PageRow {
    p.(lastVisit := Epoch)
  }

  function Contents(pages: seq<PageRow>): (r: seq<PageRow>)
    ensures |r| == |pages|
  {
    seq(|pages|, k requires 0 <= k < |pages| => Content(pages[k]))
  }

  /** The tables hold what a run with the seed data leaves, last visits
      aside. */
  predicate Layout(t: Tables, c0: nat, p0: nat, seeds: seq<CategorySeed>) {
    SeedsStored(t.categories, Contents(t.pages), c0, p0, seeds)
  }

  /** A block does not depend on last visits. */
  lemma {:induction false} BlockContents(rows: seq<PageRow>, category: nat, p0: nat, pages: seq<PageSeed>)
    ensures Block(Contents(rows), category, p0, pages) <==> Block(rows, category, p0, pages)
  {
    var c := Contents(rows);
    assert forall k :: 0 <= k < |rows| ==> c[k].category == rows[k].category;
    assert forall j :: 0 <= j < |pages| && p0 + j < |rows| ==>
      (Matches(c[p0 + j], category, pages[j]) <==> Matches(rows[p0 + j], category, pages[j]));
  }

  /** The tables hold the first seed and the rest after it exactly when
      they hold all the seeds. */
  lemma {:induction false} LayoutCons(t: Tables, c0: nat, p0: nat, seeds: seq<CategorySeed>)
    requires seeds != []
    ensures Layout(t, c0, p0, seeds) <==>
      SeedStored(t.categories, t.pages, c0, p0, seeds[0]) && Layout(t, c0 + 1, p0 + |seeds[0].pages|, seeds[1..])
  {
    BlockContents(t.pages, c0 + 1, p0, seeds[0].pages);
  }

  /** Two tables that differ at most in the pages' last visits. */
  predicate LastVisitsOnly(t: Tables, u: Tables) {
    u.categories == t.categories && Contents(u.pages) == Contents(t.pages)
  }

  /** Refreshing last visits keeps the tables consistent. */
  lemma {:induction false} LastVisitsKeepConsistent(t: Tables, u: Tables)
    requires LastVisitsOnly(t, u)
    ensures Consistent(t) ==> Consistent(u)
  {
    forall k | 0 <= k < |u.pages| ensures u.pages[k].id == t.pages[k].id && u.pages[k].category == t.pages[k].category {
      assert Contents(u.pages)[k] == Contents(t.pages)[k];
    }
  }

  /** The tables with the pages in positions `lo` to `hi - 1` saved again
      at `now`. */
  function Restamped(t: Tables, lo: nat, hi: nat, now: int): (r: Tables)
    ensures r.categories == t.categories && |r.pages| == |t.pages|
    ensures Consistent(t) ==> Consistent(r)
  {
    var r := t.(pages := StampRange(t.pages, lo, hi, now));
    RestampedLastVisitsOnly(t, lo, hi, now);
    LastVisitsKeepConsistent(t, r);
    r
  }

  /** Saving pages again changes nothing but their last visits. */
  lemma {:induction false} RestampedLastVisitsOnly(t: Tables, lo: nat, hi: nat, now: int)
    ensures LastVisitsOnly(t, t.(pages := StampRange(t.pages, lo, hi, now)))
  {
    var s := StampRange(t.pages, lo, hi, now);
    StampRangeAt(t.pages, lo, hi, now);
    assert Contents(s) == Contents(t.pages) by {
      forall k | 0 <= k < |s| ensures Contents(s)[k] == Contents(t.pages)[k] {
        assert Content(s[k]) == Content(t.pages[k]);
      }
    }
  }

  lemma {:induction false} RestampedNone(t: Tables, lo: nat, now: int)
    ensures Restamped(t, lo, lo, now) == t
  {
    StampRangeAt(t.pages, lo, lo, now);
    assert StampRange(t.pages, lo, lo, now) == t.pages;
  }

  lemma {:induction false} RestampedOne(t: Tables, k: nat, now: int)
    requires k < |t.pages|
    ensures Restamped(t, k, k + 1, now) == t.(pages := t.pages[k := StampPage(t.pages[k], now)])
  {
    StampRangeAt(t.pages, k, k + 1, now);
    assert StampRange(t.pages, k, k + 1, now) == t.pages[k := StampPage(t.pages[k], now)];
  }

  /** Saving two adjacent ranges again is saving their union again. */
  lemma {:induction false} RestampedJoin(t: Tables, lo: nat, mid: nat, hi: nat, now: int)
    requires lo <= mid <= hi
    ensures Restamped(Restamped(t, lo, mid, now), mid, hi, now) == Restamped(t, lo, hi, now)
  {
    var once := StampRange(t.pages, lo, mid, now);
    StampRangeAt(t.pages, lo, mid, now);
    StampRangeAt(once, mid, hi, now);
    StampRangeAt(t.pages, lo, hi, now);
    assert StampRange(once, mid, hi, now) == StampRange(t.pages, lo, hi, now);
  }

  /** Within a block, the page at offset `i` is the only page with its
      key. */
  lemma {:induction false} BlockKeyUnique(t: Tables, category: nat, p0: nat, pages: seq<PageSeed>, i: nat)
    requires i < |pages| && Block(t.pages, category, p0, pages)
    ensures t.pages[p0 + i].category == category && t.pages[p0 + i].title == pages[i].title
    ensures forall m :: 0 <= m < |t.pages| && m != p0 + i ==>
      !(t.pages[m].category == category && t.pages[m].title == pages[i].title)
  {
    assert Matches(t.pages[p0 + i], category, pages[i]);
    forall m | 0 <= m < |t.pages| && m != p0 + i
      ensures !(t.pages[m].category == category && t.pages[m].title == pages[i].title)
    {
      if t.pages[m].category == category {
        assert Matches(t.pages[p0 + (m - p0)], category, pages[m - p0]);
      }
    }
  }

  /** `add_page` for the page at offset `i` of a block saves that page again
      and changes nothing but its last visit. */
  lemma {:induction false} PageAddedAgain(t: Tables, category: nat, p0: nat, pages: seq<PageSeed>, i: nat, j: nat, lo: nat, mid: nat, now: int)
    requires Consistent(t) && i < |pages| && Block(t.pages, category, p0, pages)
    requires j == i + 1 && lo == p0 + i && mid == lo + 1
    ensures PagesAdded(t, category, pages[i..], now) ==
      PagesAdded(Restamped(t, lo, mid, now), category, pages[j..], now)
  {
    var p := t.pages[lo];
    assert Matches(p, category, pages[i]);
    BlockKeyUnique(t, category, p0, pages, i);
    PageAddedExisting(t, category, pages[i], now, lo);
    assert p.(url := pages[i].url, views := pages[i].views) == p;
    RestampedOne(t, lo, now);
    assert pages[i..][0] == pages[i] && pages[i..][1..] == pages[i + 1..];
  }

  /** Refreshing last visits anywhere keeps a block where it is. */
  lemma {:induction false} RestampedBlock(t: Tables, category: nat, p0: nat, pages: seq<PageSeed>, lo: nat, hi: nat, now: int)
    requires Block(t.pages, category, p0, pages)
    ensures Block(Restamped(t, lo, hi, now).pages, category, p0, pages)
  {
    var u := Restamped(t, lo, hi, now);
    RestampedLastVisitsOnly(t, lo, hi, now);
    BlockContents(t.pages, category, p0, pages);
    BlockContents(u.pages, category, p0, pages);
  }

  /** The inner loop over pages the category already holds, in the order
      they are stored, saves each of them again and changes nothing but
      their last visits: from offset `i`, at position `lo`, on. */
  lemma {:induction false} PagesAddedAgain(t: Tables, category: nat, p0: nat, pages: seq<PageSeed>, i: nat, lo: nat, hi: nat, now: int)
    requires Consistent(t) && Block(t.pages, category, p0, pages)
    requires i <= |pages| && lo == p0 + i && hi == p0 + |pages|
    ensures PagesAdded(t, category, pages[i..], now) == Run(Restamped(t, lo, hi, now), None)
    decreases |pages| - i
  {
    if i == |pages| {
      assert pages[i..] == [];
      RestampedNone(t, lo, now);
    } else {
      var j, mid := i + 1, lo + 1;
      RestampedBlock(t, category, p0, pages, lo, mid, now);
      PagesAddedAgain(Restamped(t, lo, mid, now), category, p0, pages, j, mid, hi, now);
      PageAddedAgain(t, category, p0, pages, i, j, lo, mid, now);
      RestampedJoin(t, lo, mid, hi, now);
    }
  }

  /** The inner loop over all the pages of a block saves each again. */
  lemma {:induction false} PagesAddedAgainAll(t: Tables, category: nat, p0: nat, pages: seq<PageSeed>, hi: nat, now: int)
    requires Consistent(t) && Block(t.pages, category, p0, pages) && hi == p0 + |pages|
    ensures PagesAdded(t, category, pages, now) == Run(Restamped(t, p0, hi, now), None)
  {
    PagesAddedAgain(t, category, p0, pages, 0, p0, hi, now);
    assert pages[0..] == pages;
  }

  /** `add_cat` for a category stored with the counts the script sets
      writes the same row back. */
  lemma {:induction false} CatAddedAgain(t: Tables, c0: nat, seed: CategorySeed)
    requires Consistent(t) && c0 < |t.categories|
    requires t.categories[c0].name == seed.name
    requires t.categories[c0].views == Abs(seed.views) && t.categories[c0].likes == seed.likes
    ensures t.categories[c0].id == c0 + 1
    ensures CatAdded(t, seed.name, seed.views, seed.likes) == Ok(FetchedCategory(t, t.categories[c0]))
  {
    CatAddedExisting(t, c0, seed.views, seed.likes);
    var row := t.categories[c0].(views := Abs(seed.views), likes := seed.likes);
    assert row == t.categories[c0];
    assert t.categories[c0 := row] == t.categories;
  }

  /** One pass of the outer loop for a seed already stored changes nothing
      but the last visits of its pages. */
  lemma {:induction false} SeedAddedAgain(t: Tables, c0: nat, p0: nat, seed: CategorySeed, hi: nat, now: int)
    requires Consistent(t) && SeedStored(t.categories, t.pages, c0, p0, seed) && hi == p0 + |seed.pages|
    ensures SeedAdded(t, seed, now) == Run(Restamped(t, p0, hi, now), None)
  {
    CatAddedAgain(t, c0, seed);
    assert SeedAdded(t, seed, now) == PagesAdded(t, c0 + 1, seed.pages, now);
    PagesAddedAgainAll(t, c0 + 1, p0, seed.pages, hi, now);
  }

  lemma {:induction false} PopulatedStep(t: Tables, u: Tables, seeds: seq<CategorySeed>, now: int)
    requires Consistent(t) && Consistent(u) && seeds != []
    requires SeedAdded(t, seeds[0], now) == Run(u, None)
    ensures Populated(t, seeds, now) == Populated(u, seeds[1..], now)
  {
  }

  /** One pass of the outer loop over tables that hold the first seed
      saves its category and pages again. */
  lemma {:induction false} PopulatedFirstAgain(t: Tables, c0: nat, p0: nat, seeds: seq<CategorySeed>, mid: nat, now: int)
    requires Consistent(t) && seeds != [] && SeedStored(t.categories, t.pages, c0, p0, seeds[0])
    requires mid == p0 + |seeds[0].pages|
    ensures Populated(t, seeds, now) == Populated(Restamped(t, p0, mid, now), seeds[1..], now)
  {
    SeedAddedAgain(t, c0, p0, seeds[0], mid, now);
    PopulatedStep(t, Restamped(t, p0, mid, now), seeds, now);
  }

  /** Tables laid out for the seed data hold its first seed, and once that
      seed's pages are saved again, the rest of the seed data after it. */
  lemma {:induction false} LayoutRest(t: Tables, c0: nat, p0: nat, seeds: seq<CategorySeed>, c1: nat, mid: nat, now: int)
    requires seeds != [] && Layout(t, c0, p0, seeds)
    requires c1 == c0 + 1 && mid == p0 + |seeds[0].pages|
    ensures SeedStored(t.categories, t.pages, c0, p0, seeds[0])
    ensures Layout(Restamped(t, p0, mid, now), c1, mid, seeds[1..])
  {
    LayoutCons(t, c0, p0, seeds);
    RestampedLastVisitsOnly(t, p0, mid, now);
  }

  /** Running the script over tables that already hold what it writes
      changes nothing but the last visits of the seeded pages, those in
      positions `p0` to `hi - 1`. */
  lemma {:induction false} PopulatedAgain(t: Tables, c0: nat, p0: nat, seeds: seq<CategorySeed>, now: int, hi: nat)
    requires Consistent(t) && Layout(t, c0, p0, seeds) && hi == p0 + TotalPages(seeds)
    ensures Populated(t, seeds, now) == Run(Restamped(t, p0, hi, now), None)
    decreases |seeds|
  {
    if seeds == [] {
      RestampedNone(t, p0, now);
    } else {
      var c1, mid := c0 + 1, p0 + |seeds[0].pages|;
      LayoutRest(t, c0, p0, seeds, c1, mid, now);
      TotalPagesCons(seeds);
      PopulatedAgain(Restamped(t, p0, mid, now), c1, mid, seeds[1..], now, hi);
      PopulatedFirstAgain(t, c0, p0, seeds, mid, now);
      RestampedJoin(t, p0, mid, hi, now);
    }
  }

  lemma {:induction false} TotalPagesCons(seeds: seq<CategorySeed>)
    requires seeds != []
    ensures TotalPages(seeds) == |seeds[0].pages| + TotalPages(seeds[1..])
  {
  }

  /** A new category of the seed data and its pages are stored where
      `Appended` puts them. */
  lemma {:induction false} AppendedStored(t: Tables, seed: CategorySeed, now: int)
    requires DistinctTitles(seed.pages)
    requires forall k :: 0 <= k < |t.pages| ==> t.pages[k].category <= |t.categories|
    ensures var r := Appended(t, seed, now); SeedStored(r.categories, r.pages, |t.categories|, |t.pages|, seed)
  {
    var r := Appended(t, seed, now);
    var id := |t.categories| + 1;
    forall k | 0 <= k < |r.pages| && !(|t.pages| <= k < |t.pages| + |seed.pages|) ensures r.pages[k].category != id {
      assert r.pages[k] == t.pages[k];
    }
  }

  /** What is stored stays stored when the tables only grow by pages of
      later categories. */
  lemma {:induction false} SeedStoredExtended(a: Tables, r: Tables, c0: nat, p0: nat, seed: CategorySeed)
    requires SeedStored(a.categories, a.pages, c0, p0, seed)
    requires |a.categories| <= |r.categories| && forall k :: 0 <= k < |a.categories| ==> r.categories[k] == a.categories[k]
    requires |a.pages| <= |r.pages| && forall k :: 0 <= k < |a.pages| ==> r.pages[k] == a.pages[k]
    requires CategoriesBetween(r.pages, |a.pages|, c0 + 1, |r.categories|)
    ensures SeedStored(r.categories, r.pages, c0, p0, seed)
  {
    forall j | 0 <= j < |seed.pages| ensures Matches(r.pages[p0 + j], c0 + 1, seed.pages[j]) {
      assert r.pages[p0 + j] == a.pages[p0 + j];
    }
    forall k | 0 <= k < |r.pages| && !(p0 <= k < p0 + |seed.pages|) ensures r.pages[k].category != c0 + 1 {
      if k < |a.pages| {
        assert r.pages[k] == a.pages[k];
      }
    }
  }

  /** The first category of new seed data, and its pages, stay where
      `Appended` puts them. */
  lemma {:induction false} SeededFirstStored(t: Tables, seeds: seq<CategorySeed>, now: int)
    requires seeds != [] && DistinctTitles(seeds[0].pages)
    requires forall k :: 0 <= k < |t.pages| ==> t.pages[k].category <= |t.categories|
    ensures var r := Seeded(t, seeds, now); SeedStored(r.categories, r.pages, |t.categories|, |t.pages|, seeds[0])
  {
    var next := Appended(t, seeds[0], now);
    var r := Seeded(next, seeds[1..], now);
    assert Seeded(t, seeds, now) == r;
    AppendedStored(t, seeds[0], now);
    SeededPagesInNewCategories(next, seeds[1..], now);
    SeedStoredExtended(next, r, |t.categories|, |t.pages|, seeds[0]);
  }

  /** New seed data ends up laid out as the script writes it. */
  lemma {:induction false} SeededLayout(t: Tables, seeds: seq<CategorySeed>, now: int)
    requires forall k :: 0 <= k < |t.pages| ==> t.pages[k].category <= |t.categories|
    requires forall i :: 0 <= i < |seeds| ==> DistinctTitles(seeds[i].pages)
    ensures Layout(Seeded(t, seeds, now), |t.categories|, |t.pages|, seeds)
    decreases |seeds|
  {
    if seeds != [] {
      var next := Appended(t, seeds[0], now);
      var r := Seeded(next, seeds[1..], now);
      assert Seeded(t, seeds, now) == r;
      forall k | 0 <= k < |next.pages| ensures next.pages[k].category <= |next.categories| {
        if k >= |t.pages| {
          assert Matches(next.pages[|t.pages| + (k - |t.pages|)], |t.categories| + 1, seeds[0].pages[k - |t.pages|]);
        }
      }
      forall i | 0 <= i < |seeds| - 1 ensures DistinctTitles(seeds[1..][i].pages) {
        assert seeds[1..][i] == seeds[i + 1];
      }
      SeededLayout(next, seeds[1..], now);
      SeededFirstStored(t, seeds, now);
      LayoutCons(r, |t.categories|, |t.pages|, seeds);
    }
  }

  /** A first run over new seed data leaves consistent tables laid out as
      the script writes them. */
  lemma {:induction false} PopulatedFreshLayout(t: Tables, seeds: seq<CategorySeed>, now: int)
    requires Consistent(t) && FreshSeeds(t, seeds)
    ensures Consistent(Seeded(t, seeds, now)) && Layout(Seeded(t, seeds, now), |t.categories|, |t.pages|, seeds)
  {
    PopulatedFresh(t, seeds, now);
    SeededLayout(t, seeds, now);
  }

  /** Running the script a second time after it succeeded on new seed data
      fails nowhere and only saves the pages of the seed data again, those
      after the pages stored before the first run. */
  lemma {:induction false} RunTwice(t: Tables, seeds: seq<CategorySeed>, now1: int, now2: int)
    requires Consistent(t) && FreshSeeds(t, seeds)
    ensures var once := Populated(t, seeds, now1);
      && once.failure == None
      && Populated(once.tables, seeds, now2) == Run(Restamped(once.tables, |t.pages|, |once.tables.pages|, now2), None)
  {
    var once := Seeded(t, seeds, now1);
    PopulatedFresh(t, seeds, now1);
    PopulatedFreshLayout(t, seeds, now1);
    PopulatedAgain(once, |t.categories|, |t.pages|, seeds, now2, |once.pages|);
  }

  /** Saving pages again leaves the categories and the number of pages as
      they were, refreshes the last visit of each page in the range, and
      changes no other page. */
  lemma {:induction false} RestampedSpec(t: Tables, lo: nat, hi: nat, now: int)
    ensures var r := Restamped(t, lo, hi, now);
      && r.categories == t.categories && |r.pages| == |t.pages|
      && (forall k :: 0 <= k < |t.pages| && !(lo <= k < hi) ==> r.pages[k] == t.pages[k])
      && (forall k :: lo <= k < hi && k < |t.pages| ==> r.pages[k] == StampPage(t.pages[k], now))
  {
    StampRangeAt(t.pages, lo, hi, now);
  }

  /** A run on an empty database leaves the nine categories and seventeen
      pages of the seed data. */
  lemma {:induction false} PopulateEmptyCounts(t: Tables, seeds: seq<CategorySeed>, now: int)
    requires t == Tables([], []) && seeds == Seeds
    ensures var once := Populated(t, seeds, now);
      |once.tables.categories| == 9 && |once.tables.pages| == 17
  {
    PopulateEmpty(t, seeds, now);
    SeededEmpty(t, seeds, now);
  }

  /** Running the script twice on an empty database: the second run fails
      nowhere and only saves every page of the first run again at `now2`. */
  lemma {:induction false} PopulateTwice(t: Tables, seeds: seq<CategorySeed>, now1: int, now2: int)
    requires t == Tables([], []) && seeds == Seeds
    ensures var once := Populated(t, seeds, now1);
      && once.failure == None
      && Populated(once.tables, seeds, now2) == Run(Restamped(once.tables, |t.pages|, |once.tables.pages|, now2), None)
  {
    SeedsFresh(t, seeds);
    RunTwice(t, seeds, now1, now2);
  }
}
