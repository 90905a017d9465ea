/** The `Category` and `Page` models: their field bounds and defaults, the
    normalisation each `save()` applies before writing, and the model
    instances as objects whose `Save` updates their own fields in place and
    then writes them to the database. */
module Models {
  import opened Outcome
  import opened Text
  import opened Queries
  import opened Store

  /** `max_length` of `Category.name` and of `Page.title`. */
  const NameMaxLength: nat := 128
  const TitleMaxLength: nat := 128
  /** `max_length` of `Page.url`, Django's default for a `URLField`. */
  const UrlMaxLength: nat := 200
  /** The default `last_visit` of a page: 1970-01-01 00:00 UTC. */
  const Epoch: int := 0

  function Abs(x: int): (r: nat)
    ensures r == x || r == -x
  {
    if x < 0 then -x else x
  }

  /** A category row as `Category.save` leaves it. */
  predicate Normalised(c: CategoryRow) {
    c.slug == Slugify(c.name) && c.views >= 0
  }

  /** The fields `Category.save` rewrites before writing: the slug is derived
      from the current name and the view count loses its sign. Nothing else
      changes; in particular `likes` is not clamped. */
  function NormaliseCategory(c: CategoryRow): (r: CategoryRow)
    ensures Normalised(r)
    ensures r.views == c.views || r.views == -c.views
    ensures r.id == c.id && r.name == c.name && r.likes == c.likes
  {
    c.(slug := Slugify(c.name), views := Abs(c.views))
  }

  /** Saving twice writes the same fields as saving once. */
  lemma NormaliseCategoryIdempotent(c: CategoryRow)
    ensures NormaliseCategory(NormaliseCategory(c)) == NormaliseCategory(c)
  {
  }

  /** A row that is already normalised is left as it is. */
  lemma NormaliseNormalised(c: CategoryRow)
    requires Normalised(c)
    ensures NormaliseCategory(c) == c
  {
  }

  /** The `last_visit` rule of `Page.save`: a value earlier than now is raised
      to now; a value equal to or later than now is kept. */
  function StampPage(p: PageRow, now: int): (r: PageRow)
    ensures r.lastVisit >= now && r.lastVisit >= p.lastVisit
    ensures r.lastVisit == now || r.lastVisit == p.lastVisit
    ensures r == p.(lastVisit := r.lastVisit)
  {
    if p.lastVisit < now then p.(lastVisit := now) else p
  }

  /** A page still carrying the default epoch `last_visit` gets now on its
      first save (for any now after 1970). */
  lemma StampDefaultLastVisit(p: PageRow, now: int)
    requires p.lastVisit == Epoch && now > Epoch
    ensures StampPage(p, now).lastVisit == now
  {
  }

  /** A `last_visit` in the future survives a save unchanged, so after the
      save it is still later than now. */
  lemma StampKeepsFutureLastVisit(p: PageRow, now: int)
    requires p.lastVisit > now
    ensures StampPage(p, now).lastVisit == p.lastVisit > now
  {
  }

  /** All a page's fields as the write sees them: `last_visit` stamped by
      `Page.save`, then `first_visit` set by `auto_now_add` when the row is
      inserted (and never on later saves). */
  function PreparePage(p: PageRow, now: int): (r: PageRow)
    ensures r.id == p.id && r.category == p.category && r.title == p.title
    ensures r.url == p.url && r.views == p.views
    ensures r.lastVisit == StampPage(p, now).lastVisit
    ensures r.firstVisit == (if p.id == 0 then now else p.firstVisit)
  {
    var q := StampPage(p, now);
    if q.id == 0 then q.(firstVisit := now) else q
  }

  /** Every category row in the tables is normalised, on top of the schema's
      constraints: the state every sequence of saves keeps. */
  predicate Consistent(t: Tables) {
    WellFormed(t) && AllNormalised(t.categories)
  }

  predicate AllNormalised(categories: seq<CategoryRow>) {
    forall i {:trigger Normalised(categories[i])} :: 0 <= i < |categories| ==> Normalised(categories[i])
  }

  /** `Category.save` at the level of the tables. */
  function SaveCategory(t: Tables, c: CategoryRow): (r: Result<Written>)
    requires c.id <= |t.categories|
    ensures r.Ok? ==> 1 <= r.value.id <= |r.value.tables.categories|
    ensures r.Ok? ==>
      var saved := r.value.tables.categories[r.value.id - 1];
      && saved.name == c.name && saved.likes == c.likes
      && saved.slug == Slugify(c.name) && saved.views == Abs(c.views)
    ensures r.Err? ==> r.failure == IntegrityError
    ensures Consistent(t) && r.Ok? ==> Consistent(r.value.tables)
  {
    WriteCategory(t, NormaliseCategory(c))
  }

  /** `Page.save` at the level of the tables. */
  function SavePage(t: Tables, p: PageRow, now: int): (r: Result<Written>)
    requires p.id <= |t.pages|
    ensures r.Ok? ==> 1 <= r.value.id <= |r.value.tables.pages|
    ensures r.Ok? ==>
      var saved := r.value.tables.pages[r.value.id - 1];
      && saved == p.(id := r.value.id, firstVisit := saved.firstVisit, lastVisit := saved.lastVisit)
      && saved.lastVisit >= now && saved.lastVisit >= p.lastVisit
      && (p.id != 0 ==> saved.firstVisit == p.firstVisit)
    ensures r.Ok? <==> 1 <= p.category <= |t.categories|
    ensures r.Ok? ==> r.value.tables.categories == t.categories
    ensures Consistent(t) && r.Ok? ==> Consistent(r.value.tables)
  {
    WritePage(t, PreparePage(p, now))
  }

  /** A row fetched or created by `get_or_create`, with the tables after it. */
  datatype FetchedCategory = FetchedCategory(tables: Tables, row: CategoryRow)
  datatype FetchedPage = FetchedPage(tables: Tables, row: PageRow)

  /** `Category.objects.get_or_create(name=name)`: the category with that
      name, or a new one saved with the field defaults when there is none. */
  function CategoryGetOrCreate(t: Tables, name: string): (r: Result<FetchedCategory>)
    ensures r.Ok? ==> r.value.row.name == name
    ensures Consistent(t) && r.Ok? ==>
      && Consistent(r.value.tables)
      && 1 <= r.value.row.id <= |r.value.tables.categories|
      && r.value.tables.categories[r.value.row.id - 1] == r.value.row
      && r.value.tables.pages == t.pages
  {
    match CategoryByName(t, name)
    case Ok(c) => Ok(FetchedCategory(t, c))
    case Err(f) =>
      if f != DoesNotExist then Err(f)
      else
        var created := CategoryRow(0, name, 0, 0, "");
        match SaveCategory(t, created)
        case Ok(w) => Ok(FetchedCategory(w.tables, NormaliseCategory(created).(id := w.id)))
        case Err(g) => Err(g)
  }

  /** The lookup key of a page `get_or_create`: its category and title, and
      also its url when one is given. */
  predicate PageKey(p: PageRow, category: nat, title: string, url: Option<string>) {
    p.category == category && p.title == title && (url.Some? ==> p.url == url.value)
  }

  /** `Page.objects.get(category=..., title=...[, url=...])`. */
  function PageByKey(t: Tables, category: nat, title: string, url: Option<string>): (r: Result<PageRow>)
    ensures r.Ok? ==> r.value in t.pages && PageKey(r.value, category, title, url)
  {
    GetWhere(t.pages, (p: PageRow) => PageKey(p, category, title, url))
  }

  /** `Page.objects.get_or_create(category=..., title=...[, url=...])` at
      time `now`: the one page with that key, or a new page saved with the
      field defaults when there is none; several pages with the key fail
      with MultipleObjectsReturned. */
  function PageGetOrCreate(t: Tables, category: nat, title: string, url: Option<string>, now: int): (r: Result<FetchedPage>)
    ensures r.Ok? ==> PageKey(r.value.row, category, title, url)
    ensures Consistent(t) && r.Ok? ==>
      && Consistent(r.value.tables)
      && 1 <= r.value.row.id <= |r.value.tables.pages|
      && r.value.tables.pages[r.value.row.id - 1] == r.value.row
      && r.value.tables.categories == t.categories
  {
    match PageByKey(t, category, title, url)
    case Ok(p) => Ok(FetchedPage(t, p))
    case Err(f) =>
      if f != DoesNotExist then Err(f)
      else
        var created := PageRow(0, category, title, if url.Some? then url.value else "", 0, Epoch, Epoch);
        match SavePage(t, created, now)
        case Ok(w) => Ok(FetchedPage(w.tables, PreparePage(created, now).(id := w.id)))
        case Err(g) => Err(g)
  }

  /** A `Category` model instance. */
  class Category {
    var id: nat
    var name: string
    var views: int
    var likes: int
    var slug: string

    function Row(): CategoryRow
      reads this
    {
      CategoryRow(id, name, views, likes, slug)
    }

    /** `Category(name=..., views=..., likes=...)`: an instance not yet
        saved, with an empty slug. */
    constructor (name: string, views: int, likes: int)
      ensures Row() == CategoryRow(0, name, views, likes, "")
    {
      this.id := 0;
      this.name := name;
      this.views := views;
      this.likes := likes;
      this.slug := "";
    }

    /** An instance loaded from a row of the table. */
    constructor Load(row: CategoryRow)
      ensures Row() == row
    {
      id := row.id;
      name := row.name;
      views := row.views;
      likes := row.likes;
      slug := row.slug;
    }

    /** `save()`: recompute the slug, drop the sign of the view count, then
        insert or update the row; an insert gives the instance its id. When
        the database refuses the write, the instance keeps its normalised
        fields and the tables are unchanged. */
    method Save(db: Database) returns (r: Result<()>)
      requires id <= |db.tables.categories|
      modifies this, db
      ensures var w := SaveCategory(old(db.tables), old(Row()));
        && (w.Ok? ==> r == Ok(()) && db.tables == w.value.tables
                      && Row() == NormaliseCategory(old(Row())).(id := w.value.id))
        && (w.Err? ==> r == Err(w.failure) && db.tables == old(db.tables)
                       && Row() == NormaliseCategory(old(Row())))
    {
      ghost var before := Row();
      slug := Slugify(name);
      views := Abs(views);
      assert Row() == NormaliseCategory(before);
      var w := WriteCategory(db.tables, Row());
      assert w == SaveCategory(db.tables, before);
      match w {
        case Ok(written) =>
          db.tables := written.tables;
          id := written.id;
          r := Ok(());
        case Err(f) =>
          r := Err(f);
      }
    }
  }

  /** A `Page` model instance. `firstVisit` is meaningful only once the
      instance has been saved. */
  class Page {
    var id: nat
    var category: nat
    var title: string
    var url: string
    var views: nat
    var firstVisit: int
    var lastVisit: int

    function Row(): PageRow
      reads this
    {
      PageRow(id, category, title, url, views, firstVisit, lastVisit)
    }

    /** `Page(category=..., title=..., url=..., views=..., last_visit=...)`:
        an instance not yet saved. */
    constructor (category: nat, title: string, url: string, views: nat, lastVisit: int)
      ensures Row() == PageRow(0, category, title, url, views, Epoch, lastVisit)
    {
      this.id := 0;
      this.category := category;
      this.title := title;
      this.url := url;
      this.views := views;
      this.firstVisit := Epoch;
      this.lastVisit := lastVisit;
    }

    /** An instance loaded from a row of the table. */
    constructor Load(row: PageRow)
      ensures Row() == row
    {
      id := row.id;
      category := row.category;
      title := row.title;
      url := row.url;
      views := row.views;
      firstVisit := row.firstVisit;
      lastVisit := row.lastVisit;
    }

    /** `save()` at time `now`: raise an earlier `last_visit` to now, set
        `first_visit` when inserting, then insert or update the row. */
    method Save(db: Database, now: int) returns (r: Result<()>)
      requires id <= |db.tables.pages|
      modifies this, db
      ensures var w := SavePage(old(db.tables), old(Row()), now);
        && (w.Ok? ==> r == Ok(()) && db.tables == w.value.tables
                      && Row() == PreparePage(old(Row()), now).(id := w.value.id))
        && (w.Err? ==> r == Err(w.failure) && db.tables == old(db.tables)
                       && Row() == PreparePage(old(Row()), now))
    {
      if lastVisit < now {
        lastVisit := now;
      }
      if id == 0 {
        firstVisit := now;
      }
      var w := WritePage(db.tables, Row());
      match w {
        case Ok(written) =>
          db.tables := written.tables;
          id := written.id;
          r := Ok(());
        case Err(f) =>
          r := Err(f);
      }
    }
  }

  /** `get_or_create` on the category table, handing back a model instance. */
  method GetOrCreateCategory(db: Database, name: string) returns (r: Result<Category>)
    requires Consistent(db.tables)
    modifies db
    ensures var f := CategoryGetOrCreate(old(db.tables), name);
      && (f.Ok? ==> r.Ok? && fresh(r.value) && r.value.Row() == f.value.row && db.tables == f.value.tables)
      && (f.Err? ==> r == Err(f.failure) && db.tables == old(db.tables))
  {
    var found := CategoryByName(db.tables, name);
    if found.Ok? {
      var c := new Category.Load(found.value);
      return Ok(c);
    }
    if found.failure != DoesNotExist {
      return Err(found.failure);
    }
    var c := new Category(name, 0, 0);
    var saved := c.Save(db);
    if saved.Err? {
      return Err(saved.failure);
    }
    r := Ok(c);
  }

  /** `get_or_create` on the page table at time `now`, handing back a model
      instance. */
  method GetOrCreatePage(db: Database, category: nat, title: string, url: Option<string>, now: int) returns (r: Result<Page>)
    requires Consistent(db.tables)
    modifies db
    ensures var f := PageGetOrCreate(old(db.tables), category, title, url, now);
      && (f.Ok? ==> r.Ok? && fresh(r.value) && r.value.Row() == f.value.row && db.tables == f.value.tables)
      && (f.Err? ==> r == Err(f.failure) && db.tables == old(db.tables))
  {
    var found := PageByKey(db.tables, category, title, url);
    if found.Ok? {
      var p := new Page.Load(found.value);
      return Ok(p);
    }
    if found.failure != DoesNotExist {
      return Err(found.failure);
    }
    var p := new Page(category, title, if url.Some? then url.value else "", 0, Epoch);
    var saved := p.Save(db, now);
    if saved.Err? {
      return Err(saved.failure);
    }
    r := Ok(p);
  }
}
