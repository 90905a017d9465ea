/** The request handlers of the app, with the database as a `Database`
    object and each response reduced to what the handler decides: the
    context it renders, where it redirects, the text it answers, or the
    exception that escapes it (a server error). */
module Views {
  import opened Outcome
  import opened Text
  import opened Queries
  import opened Store
  import opened Models
  import opened Visits

  datatype HttpMethod = Get | Post

  /** What a handler sends back. */
  datatype Response =
    | PageList(pages: Option<seq<PageRow>>)  // `rango/page_list.html` with this `pages` entry
    | Redirect(location: string)             // a temporary redirect
    | Body(text: string)                     // a plain `HttpResponse`
    | ServerError(failure: Failure)          // an exception escaped the handler

  /** A response together with the tables after the request. */
  datatype Served = Served(response: Response, tables: Tables)

  // ---------------------------------------------------------------------
  // IndexView

  function Likes(c: CategoryRow): int { c.likes }
  function PageViews(p: PageRow): int { p.views }

  /** `Category.objects.order_by('-likes')[:5]`: at most five categories,
      most liked first, none left out that is liked more than one shown. */
  function TopCategories(t: Tables): (r: seq<CategoryRow>)
    ensures |r| == Min(5, |t.categories|)
    ensures SortedDesc(r, Likes)
    ensures multiset(r) <= multiset(t.categories)
    ensures forall c :: c in multiset(t.categories) - multiset(r) ==>
      forall i :: 0 <= i < |r| ==> c.likes <= r[i].likes
  {
    TopN(t.categories, Likes, 5)
  }

  /** `Page.objects.order_by('-views')[:5]`: at most five pages, most viewed
      first, none left out that is viewed more than one shown. */
  function TopPages(t: Tables): (r: seq<PageRow>)
    ensures |r| == Min(5, |t.pages|)
    ensures SortedDesc(r, PageViews)
    ensures multiset(r) <= multiset(t.pages)
    ensures forall p :: p in multiset(t.pages) - multiset(r) ==>
      forall i :: 0 <= i < |r| ==> p.views <= r[i].views
  {
    TopN(t.pages, PageViews, 5)
  }

  /** The context `IndexView` renders. */
  datatype IndexContext = IndexContext(categories: seq<CategoryRow>, pages: seq<PageRow>, visits: string)

  /** `IndexView.get_context_data` at time `now`. */
  method Index(db: Database, session: Session, now: int) returns (r: Result<IndexContext>)
    modifies session
    ensures session.data == old(session.data)
    ensures r.Ok? <==> StoredVisits(session.data).Ok? && GetServerSideCookie(session.data, "last_visit", Stamp(now)).Stamp?
    ensures r.Ok? ==>
      r.value == IndexContext(TopCategories(db.tables), TopPages(db.tables), Ordinalize(StoredVisits(session.data).value))
  {
    var categoryList := TopCategories(db.tables);
    var pageList := TopPages(db.tables);
    var visits :- VisitorCookieHandler(session, now);
    r := Ok(IndexContext(categoryList, pageList, visits));
  }

  /** With no category the index lists none; with four it lists all four. */
  lemma IndexListsUpToFive(t: Tables)
    ensures t.categories == [] ==> TopCategories(t) == []
    ensures |t.categories| == 4 ==> |TopCategories(t)| == 4 && multiset(TopCategories(t)) == multiset(t.categories)
  {
    if |t.categories| == 4 {
      var r := TopCategories(t);
      var rest := multiset(t.categories) - multiset(r);
      assert |multiset(r)| == |multiset(t.categories)|;
      assert |rest| == 0;
    }
  }

  // ---------------------------------------------------------------------
  // ShowCategoryView

  /** The context of a category page: the category and its pages, or neither
      when no category has the slug. */
  datatype CategoryContext = CategoryContext(category: Option<CategoryRow>, pages: Option<seq<PageRow>>)

  /** `ShowCategoryView.get_context_data`: the category with the slug and its
      pages, most viewed first; DoesNotExist is caught and gives an empty
      context, any other failure escapes. */
  function ShowCategory(t: Tables, slug: string): (r: Result<CategoryContext>)
    ensures r.Ok? ==> (r.value.category.Some? <==> r.value.pages.Some?)
    ensures r.Ok? && r.value.category.Some? ==>
      var c := r.value.category.value;
      && c in t.categories && c.slug == slug
      && SortedDesc(r.value.pages.value, PageViews)
      && multiset(r.value.pages.value) == multiset(PagesOf(t, c.id))
  {
    match CategoryBySlug(t, slug)
    case Ok(c) => Ok(CategoryContext(Some(c), Some(SortByDesc(PagesOf(t, c.id), PageViews))))
    case Err(f) =>
      if f == DoesNotExist then Ok(CategoryContext(None, None)) else Err(f)
  }

  /** Slugs are unique, so the category page never fails: it shows a category
      exactly when one has the slug. */
  lemma ShowCategoryTotal(t: Tables, slug: string)
    requires WellFormed(t)
    ensures ShowCategory(t, slug).Ok?
    ensures ShowCategory(t, slug).value.category.Some? <==>
      exists i :: 0 <= i < |t.categories| && t.categories[i].slug == slug
  {
    CategoryBySlugUnique(t, slug);
  }

  // ---------------------------------------------------------------------
  // AddPageView

  const CategoryUrlPrefix: string := "/rango/category/"

  /** `AddPageView.get_success_url`: the category page of the slug. The url
      is never empty, so the branch raising an error is never taken. */
  function SuccessUrl(slug: string): (url: string)
    ensures |url| == |CategoryUrlPrefix| + |slug| + 1
    ensures StartsWith(url, CategoryUrlPrefix) && url[|url| - 1] == '/'
    ensures url[|CategoryUrlPrefix|..|url| - 1] == slug
  {
    CategoryUrlPrefix + slug + "/"
  }

  /** `AddPageView.form_valid` on the tables, for a validated form holding
      `title`, `url`, `views` and `lastVisit`. */
  function AddPage(t: Tables, title: string, url: string, views: nat, lastVisit: int, slug: string, now: int): (r: Served)
    ensures r.response.ServerError? ==> r.tables == t
    ensures r.response.Redirect? ==> r.response.location == SuccessUrl(slug) && |r.tables.pages| == |t.pages| + 1
  {
    match CategoryBySlug(t, slug)
    case Err(f) => Served(ServerError(f), t)
    case Ok(c) =>
      match SavePage(t, PageRow(0, c.id, title, url, views, now, lastVisit), now)
      case Err(f) => Served(ServerError(f), t)
      case Ok(w) => Served(Redirect(SuccessUrl(slug)), w.tables)
  }

  /** In consistent tables a page added under the slug of the category at
      position `k` is appended with the next id, belongs to that category,
      and carries the form's fields and now as first visit. */
  lemma AddPageAppends(t: Tables, title: string, url: string, views: nat, lastVisit: int, k: nat, now: int)
    requires Consistent(t) && k < |t.categories|
    ensures var slug := t.categories[k].slug;
      AddPage(t, title, url, views, lastVisit, slug, now) == Served(
        Redirect(SuccessUrl(slug)),
        t.(pages := t.pages + [PageRow(|t.pages| + 1, k + 1, title, url, views, now, StampPage(PageRow(0, k + 1, title, url, views, now, lastVisit), now).lastVisit)]))
  {
    var slug := t.categories[k].slug;
    CategoryBySlugUnique(t, slug);
    assert CategoryBySlug(t, slug) == Ok(t.categories[k]);
  }

  /** An unknown slug makes `form_valid` fail with DoesNotExist and add
      nothing. */
  lemma AddPageUnknownSlug(t: Tables, title: string, url: string, views: nat, lastVisit: int, slug: string, now: int)
    requires WellFormed(t)
    requires forall i :: 0 <= i < |t.categories| ==> t.categories[i].slug != slug
    ensures AddPage(t, title, url, views, lastVisit, slug, now) == Served(ServerError(DoesNotExist), t)
  {
    CategoryBySlugUnique(t, slug);
  }

  /** `AddPageView.form_valid`: build the page from the form, attach it to the
      category with the slug, save it, and redirect to the category page. */
  method AddPageFormValid(db: Database, title: string, url: string, views: nat, lastVisit: int, slug: string, now: int)
    returns (r: Response)
    modifies db
    ensures Served(r, db.tables) == AddPage(old(db.tables), title, url, views, lastVisit, slug, now)
  {
    var page := new Page(0, title, url, views, lastVisit);
    var category := CategoryBySlug(db.tables, slug);
    if category.Err? {
      return ServerError(category.failure);
    }
    page.category := category.value.id;
    page.firstVisit := now;
    var saved := page.Save(db, now);
    if saved.Err? {
      return ServerError(saved.failure);
    }
    r := Redirect(SuccessUrl(slug));
  }

  // ---------------------------------------------------------------------
  // PageSearchView

  function TitleContains(query: string): PageRow -> bool {
    (p: PageRow) => IContains(p.title, query)
  }

  /** `Page.objects.filter(title__icontains=query)`: exactly the pages whose
      title contains the query, ignoring case, in store order. */
  function TitleMatches(t: Tables, query: string): (r: seq<PageRow>)
    ensures forall i :: 0 <= i < |r| ==> r[i] in t.pages && IContains(r[i].title, query)
    ensures forall i :: 0 <= i < |t.pages| && IContains(t.pages[i].title, query) ==> t.pages[i] in r
  {
    Filter(t.pages, TitleContains(query))
  }

  /** `PageSearchView.get_queryset`: iterating the filtered query set scans
      the page table in order and appends every match. */
  method GetQueryset(db: Database, query: string) returns (queryset: seq<PageRow>)
    ensures queryset == TitleMatches(db.tables, query)
  {
    var pages := db.tables.pages;
    queryset := [];
    for i := 0 to |pages|
      invariant queryset == Filter(pages[..i], TitleContains(query))
    {
      FilterAppend(pages[..i], pages[i], TitleContains(query));
      assert pages[..i + 1] == pages[..i] + [pages[i]];
      if IContains(pages[i].title, query) {
        queryset := queryset + [pages[i]];
      }
    }
    assert pages[..|pages|] == pages;
  }

  /** `PageSearchView.get_context_data`: the results appear only for a
      non-empty query. */
  method SearchContext(db: Database, query: Option<string>) returns (results: Option<seq<PageRow>>)
    ensures results.Some? <==> query.Some? && query.value != []
    ensures results.Some? ==> results.value == TitleMatches(db.tables, query.value)
  {
    results := None;
    if query.Some? && query.value != [] {
      var found := GetQueryset(db, query.value);
      results := Some(found);
    }
  }

  // ---------------------------------------------------------------------
  // TrackUrlView

  /** The url of a visited page and the tables after the visit was counted. */
  datatype Visit = Visit(url: string, tables: Tables)

  /** The guarded block of `TrackUrlView.get`: look the page up by the id,
      add one view and save it; None when the id is absent or any step
      fails, since the block swallows every exception. */
  function CountVisit(t: Tables, pageId: Option<string>, now: int): (r: Option<Visit>)
  {
    if pageId.None? then None
    else match ParseInt(pageId.value)
      case Err(_) => None
      case Ok(id) =>
        match GetPage(t, id)
        case Err(_) => None
        case Ok(p) => VisitPage(t, p, now)
  }

  /** Adding one view to a page that was found and saving it. */
  function VisitPage(t: Tables, p: PageRow, now: int): (r: Option<Visit>)
  {
    if p.id > |t.pages| then None
    else match SavePage(t, p.(views := p.views + 1), now)
      case Err(_) => None
      case Ok(w) => Some(Visit(p.url, w.tables))
  }

  /** `TrackUrlView.get` on the tables at time `now`. A page found by the id
      gets one more view (and its `last_visit` stamped) and the client is
      sent to its url. Otherwise, or when that url is empty, the fallback
      calls an undefined name and its error handler logs through another
      undefined name, so the request ends in NameError. */
  function Track(t: Tables, pageId: Option<string>, now: int): (r: Served)
    ensures r.response.Redirect? || r.response == ServerError(NameError)
    ensures r.response.Redirect? ==> r.response.location != []
  {
    match CountVisit(t, pageId, now)
    case None => Served(ServerError(NameError), t)
    case Some(v) =>
      if v.url != [] then Served(Redirect(v.url), v.tables) else Served(ServerError(NameError), v.tables)
  }

  /** A page found by its id gets exactly one more view and nothing else in
      the tables changes but its `last_visit`. */
  lemma TrackFoundPage(t: Tables, id: nat, now: int)
    requires Consistent(t) && 1 <= id <= |t.pages|
    ensures var p := t.pages[id - 1];
      var r := Track(t, Some(IntToString(id)), now);
      && r.tables == t.(pages := t.pages[id - 1 := p.(views := p.views + 1, lastVisit := StampPage(p, now).lastVisit)])
      && r.response == (if p.url != [] then Redirect(p.url) else ServerError(NameError))
  {
    IntToStringRoundTrip(id);
    GetPageById(t, id);
  }

  /** A missing, malformed or unknown page id leaves the tables unchanged. */
  lemma TrackUnknownPage(t: Tables, pageId: Option<string>, now: int)
    requires WellFormed(t)
    requires pageId.Some? ==> ParseInt(pageId.value).Err? || !(1 <= ParseInt(pageId.value).value <= |t.pages|)
    ensures Track(t, pageId, now) == Served(ServerError(NameError), t)
  {
    if pageId.Some? && ParseInt(pageId.value).Ok? {
      GetPageById(t, ParseInt(pageId.value).value);
    }
  }

  /** `TrackUrlView.get`: count the visit through the page's own `save`, then
      redirect; any failure while doing so is swallowed. */
  method TrackUrl(db: Database, pageId: Option<string>, now: int) returns (r: Response)
    requires WellFormed(db.tables)
    modifies db
    ensures Served(r, db.tables) == Track(old(db.tables), pageId, now)
  {
    var url: Option<string> := None;
    ghost var before := db.tables;
    if pageId.Some? {
      var id := ParseInt(pageId.value);
      if id.Ok? {
        var found := GetPage(db.tables, id.value);
        if found.Ok? {
          var page := new Page.Load(found.value);
          page.views := page.views + 1;
          assert page.Row() == found.value.(views := found.value.views + 1);
          var saved := page.Save(db, now);
          ghost var w := SavePage(before, found.value.(views := found.value.views + 1), now);
          assert VisitPage(before, found.value, now) == if w.Ok? then Some(Visit(found.value.url, w.value.tables)) else None;
          if saved.Ok? {
            url := Some(page.url);
          }
        }
      }
    }
    assert CountVisit(before, pageId, now) == if url.Some? then Some(Visit(url.value, db.tables)) else None;
    if url.Some? && url.value != [] {
      return Redirect(url.value);
    }
    r := ServerError(NameError);
  }

  // ---------------------------------------------------------------------
  // like_category

  /** The text `like_category` answers. */
  function LikesMessage(likes: int): string {
    IntToString(likes) + " people like this category"
  }

  /** `like_category` on the tables: a GET with a category id adds one like
      to that category and answers with the new count; a GET with an empty
      id answers a count of 0; a GET without the parameter fails with
      KeyError; any other method reaches the answer with `likes` never
      assigned. */
  function Like(t: Tables, m: HttpMethod, categoryId: Option<string>): (r: Served)
    ensures r.response.Body? || r.response.ServerError?
    ensures r.response.ServerError? ==> r.tables == t
    ensures m != Get ==> r == Served(ServerError(UnboundLocalError), t)
  {
    if m != Get then Served(ServerError(UnboundLocalError), t)
    else if categoryId.None? then Served(ServerError(KeyError), t)
    else if categoryId.value == [] then Served(Body(LikesMessage(0)), t)
    else match ParseInt(categoryId.value)
      case Err(f) => Served(ServerError(f), t)
      case Ok(id) =>
        match GetCategory(t, id)
        case Err(f) => Served(ServerError(f), t)
        case Ok(c) =>
          if c.id > |t.categories| then Served(ServerError(DoesNotExist), t)
          else match SaveCategory(t, c.(likes := c.likes + 1))
            case Err(f) => Served(ServerError(f), t)
            case Ok(w) => Served(Body(LikesMessage(c.likes + 1)), w.tables)
  }

  /** Liking the category with id `id` raises its likes by exactly one,
      changes nothing else, and answers with the new count. */
  lemma LikeIncrements(t: Tables, id: nat)
    requires Consistent(t) && 1 <= id <= |t.categories|
    ensures var c := t.categories[id - 1];
      Like(t, Get, Some(IntToString(id))) ==
        Served(Body(LikesMessage(c.likes + 1)), t.(categories := t.categories[id - 1 := c.(likes := c.likes + 1)]))
  {
    var c := t.categories[id - 1];
    IntToStringRoundTrip(id);
    GetCategoryById(t, id);
    assert Normalised(c);
    NormaliseNormalised(c.(likes := c.likes + 1));
    OthersDiffer(t.categories, id - 1);
    assert Unique(t.categories, c.(likes := c.likes + 1), id - 1);
  }

  /** Changing a category's likes keeps the tables consistent. */
  lemma ConsistentWithLikes(t: Tables, id: nat, likes: int)
    requires Consistent(t) && 1 <= id <= |t.categories|
    ensures Consistent(t.(categories := t.categories[id - 1 := t.categories[id - 1].(likes := likes)]))
  {
    var c := t.categories[id - 1];
    var u := t.categories[id - 1 := c.(likes := likes)];
    assert Normalised(c);
    forall i | 0 <= i < |u| ensures Normalised(u[i]) {
      if i != id - 1 {
        assert u[i] == t.categories[i] && Normalised(t.categories[i]);
      }
    }
    forall i, j | 0 <= i < j < |u| ensures Distinct(u[i], u[j]) {
      DistinctAt(t.categories, i, j);
    }
    assert |u| == |t.categories|;
  }

  /** Two likes in a row on a category with 4 likes leave it with 6 and the
      second answer reads "6 people like this category". */
  lemma LikeTwice(t: Tables, id: nat)
    requires Consistent(t) && 1 <= id <= |t.categories| && t.categories[id - 1].likes == 4
    ensures var first := Like(t, Get, Some(IntToString(id)));
      var second := Like(first.tables, Get, Some(IntToString(id)));
      && second.tables.categories[id - 1].likes == 6
      && second.response == Body("6 people like this category")
  {
    var c := t.categories[id - 1];
    LikeIncrements(t, id);
    var t1 := t.(categories := t.categories[id - 1 := c.(likes := 5)]);
    assert Like(t, Get, Some(IntToString(id))).tables == t1;
    ConsistentWithLikes(t, id, 5);
    LikeIncrements(t1, id);
    assert t1.categories[id - 1] == c.(likes := 5);
    LikesMessageOfSix();
  }

  lemma LikesMessageOfSix()
    ensures LikesMessage(6) == "6 people like this category"
  {
    assert IntToString(6) == "6";
    SixPeopleText();
  }

  lemma SixPeopleText()
    ensures "6" + " people like this category" == "6 people like this category"
  {
  }

  /** `like_category`. `likes` is None while unassigned. */
  method LikeCategory(db: Database, m: HttpMethod, categoryId: Option<string>) returns (r: Response)
    requires WellFormed(db.tables)
    modifies db
    ensures Served(r, db.tables) == Like(old(db.tables), m, categoryId)
  {
    var catId: Option<string> := None;
    var likes: Option<int> := None;
    if m == Get {
      if categoryId.None? {
        return ServerError(KeyError);
      }
      catId := categoryId;
      likes := Some(0);
    }
    if catId.Some? && catId.value != [] {
      var id := ParseInt(catId.value);
      if id.Err? {
        return ServerError(id.failure);
      }
      var found := GetCategory(db.tables, id.value);
      if found.Err? {
        return ServerError(found.failure);
      }
      var cat := new Category.Load(found.value);
      likes := Some(cat.likes + 1);
      cat.likes := likes.value;
      var saved := cat.Save(db);
      if saved.Err? {
        return ServerError(saved.failure);
      }
    }
    if likes.None? {
      return ServerError(UnboundLocalError);
    }
    r := Body(LikesMessage(likes.value));
  }

  // ---------------------------------------------------------------------
  // get_category_list and suggest_category

  /** `Category.objects.filter(name__istartswith=prefix)`, in store order. */
  function NamesStartingWith(t: Tables, prefix: string): (r: seq<CategoryRow>)
    ensures forall i :: 0 <= i < |r| ==> r[i] in t.categories && IStartsWith(r[i].name, prefix)
    ensures forall i :: 0 <= i < |t.categories| && IStartsWith(t.categories[i].name, prefix) ==> t.categories[i] in r
  {
    Filter(t.categories, (c: CategoryRow) => IStartsWith(c.name, prefix))
  }

  /** `get_category_list`: nothing for an empty prefix; otherwise the
      categories whose name starts with the prefix, ignoring case, in store
      order, cut to the first `maxResults` when that is positive. */
  function GetCategoryList(t: Tables, maxResults: int, startsWith: string): (r: seq<CategoryRow>)
    ensures startsWith == [] ==> r == []
    ensures startsWith != [] ==> r <= NamesStartingWith(t, startsWith)
    ensures startsWith != [] ==>
      |r| == if maxResults > 0 then Min(maxResults, |NamesStartingWith(t, startsWith)|) else |NamesStartingWith(t, startsWith)|
    ensures forall i :: 0 <= i < |r| ==> r[i] in t.categories && IStartsWith(r[i].name, startsWith)
  {
    var catList := if startsWith != [] then NamesStartingWith(t, startsWith) else [];
    if maxResults > 0 && |catList| > maxResults then catList[..maxResults] else catList
  }

  /** `suggest_category`: at most 8 suggestions for the `suggestion`
      parameter of a GET, which must be present; none for other methods. */
  function SuggestCategory(t: Tables, m: HttpMethod, suggestion: Option<string>): (r: Result<seq<CategoryRow>>)
    ensures r.Err? <==> m == Get && suggestion.None?
    ensures r.Err? ==> r.failure == KeyError
    ensures r.Ok? ==> |r.value| <= 8
    ensures m != Get ==> r == Ok([])
    ensures r.Ok? && m == Get ==> r.value == GetCategoryList(t, 8, suggestion.value)
  {
    var startsWith := if m == Get then suggestion else Some([]);
    if startsWith.None? then Err(KeyError) else Ok(GetCategoryList(t, 8, startsWith.value))
  }

  // ---------------------------------------------------------------------
  // auto_add_page

  /** `auto_add_page` on the tables at time `now`: for a GET with all three
      parameters and a category id, get or create the page with that
      category, title and url, and list the category's pages, most viewed
      first. */
  function AutoAddPage(t: Tables, m: HttpMethod, categoryId: Option<string>, url: Option<string>, title: Option<string>, now: int): (r: Served)
    ensures r.response.PageList? || r.response.ServerError?
    ensures r.response.ServerError? ==> r.tables == t
    ensures m != Get ==> r == Served(PageList(None), t)
  {
    if m != Get then Served(PageList(None), t)
    else if categoryId.None? || url.None? || title.None? then Served(ServerError(KeyError), t)
    else if categoryId.value == [] then Served(PageList(None), t)
    else match ParseInt(categoryId.value)
      case Err(f) => Served(ServerError(f), t)
      case Ok(id) =>
        match GetCategory(t, id)
        case Err(f) => Served(ServerError(f), t)
        case Ok(c) =>
          match PageGetOrCreate(t, c.id, title.value, url, now)
          case Err(f) => Served(ServerError(f), t)
          case Ok(fetched) =>
            Served(PageList(Some(SortByDesc(PagesOf(fetched.tables, c.id), PageViews))), fetched.tables)
  }

  /** When the category exists and no page of it has the title and url, one
      such page is added with no views, and the listing holds exactly the
      category's pages, new one included, most viewed first. */
  lemma AutoAddPageCreates(t: Tables, id: nat, url: string, title: string, now: int)
    requires Consistent(t) && 1 <= id <= |t.categories|
    requires forall i :: 0 <= i < |t.pages| ==> !PageKey(t.pages[i], id, title, Some(url))
    ensures var r := AutoAddPage(t, Get, Some(IntToString(id)), Some(url), Some(title), now);
      && r.tables.categories == t.categories
      && r.tables.pages == t.pages + [PageRow(|t.pages| + 1, id, title, url, 0, now, StampPage(PageRow(0, id, title, url, 0, Epoch, Epoch), now).lastVisit)]
      && r.response.PageList? && r.response.pages.Some?
      && SortedDesc(r.response.pages.value, PageViews)
      && multiset(r.response.pages.value) == multiset(PagesOf(r.tables, id))
  {
    IntToStringRoundTrip(id);
    GetCategoryById(t, id);
    FilterNone(t.pages, (p: PageRow) => PageKey(p, id, title, Some(url)));
    assert PageByKey(t, id, title, Some(url)) == Err(DoesNotExist);
  }

  /** When exactly one page of the category has the title and url, the tables
      are left as they were. */
  lemma AutoAddPageReuses(t: Tables, id: nat, url: string, title: string, k: nat, now: int)
    requires Consistent(t) && 1 <= id <= |t.categories| && k < |t.pages|
    requires PageKey(t.pages[k], id, title, Some(url))
    requires forall i :: 0 <= i < |t.pages| && i != k ==> !PageKey(t.pages[i], id, title, Some(url))
    ensures AutoAddPage(t, Get, Some(IntToString(id)), Some(url), Some(title), now).tables == t
  {
    IntToStringRoundTrip(id);
    GetCategoryById(t, id);
    FilterSingle(t.pages, (p: PageRow) => PageKey(p, id, title, Some(url)), k);
  }

  /** `auto_add_page`. */
  method AutoAddPageView(db: Database, m: HttpMethod, categoryId: Option<string>, url: Option<string>, title: Option<string>, now: int)
    returns (r: Response)
    requires Consistent(db.tables)
    modifies db
    ensures Served(r, db.tables) == AutoAddPage(old(db.tables), m, categoryId, url, title, now)
  {
    if m == Get {
      if categoryId.None? || url.None? || title.None? {
        return ServerError(KeyError);
      }
      if categoryId.value != [] {
        var id := ParseInt(categoryId.value);
        if id.Err? {
          return ServerError(id.failure);
        }
        var category := GetCategory(db.tables, id.value);
        if category.Err? {
          return ServerError(category.failure);
        }
        var page := GetOrCreatePage(db, category.value.id, title.value, url, now);
        if page.Err? {
          return ServerError(page.failure);
        }
        var pages := SortByDesc(PagesOf(db.tables, category.value.id), PageViews);
        return PageList(Some(pages));
      }
    }
    r := PageList(None);
  }
}
