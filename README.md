# Rango, modelled in Dafny

Rango is the sample application of the "Tango with Django" tutorial: a
directory of categories, each holding links to web pages, with likes and view
counters, a visitor counter on the index page, a page search, a category
suggestion box, a click tracker and a search through the Webhose API. This
project models the parts of it that hold logic of their own. The framework is
replaced throughout by small Dafny equivalents:

- The database is a value of two tables (`Store.Tables`), held by a
  `Store.Database` object that handlers update in place. Rows get ids in
  insertion order. The schema's constraints are stated and kept:
  - unique category names and slugs;
  - a page's category must exist.
- The model instances are classes (`Models.Category`, `Models.Page`). Their
  `Save` normalises the instance's own fields and then writes the row:
  - a category's slug is recomputed and its view count loses its sign;
  - a page's `last_visit` is raised to now.
- `PageForm.clean` is a method that rewrites the form's validated data in
  place. The length bounds of the form fields are modelled as validation
  functions.
- The request handlers of `views.py` are modelled in two forms:
  - as functions from the tables and request parameters to a response and the
    new tables;
  - as methods on the `Database` object, each proved to agree with its
    function.

  Exceptions that escape a handler become a `ServerError` response naming
  the Python exception.
- The visitor counter works on a `Visits.Session` object. Its increment
  branch is proved unreachable: `timedelta.seconds` is always below 86400.
  The session is therefore never written, and the page shows the ordinal of
  the stored count.
- `search_query` takes the key file's content and the remote API as
  parameters. The model covers:
  - the key check;
  - percent-encoding of the terms, proved invertible;
  - assembly of the request url;
  - the loop that maps posts to results, stopping at the first post it
    cannot map;
  - the catch-all that returns what was mapped so far.
- The population script runs its nested loops over the seed data through
  `add_cat` and `add_page`. On an empty database it is proved to add nine
  categories and seventeen pages. A second run is proved to fail nowhere and
  to change nothing but the `last_visit` of the seeded pages.

Times are integer seconds since the epoch. The current time is a parameter
`now`, with one value per request or per run of the script. Text is
`seq<char>`. Python's `str.strip`, `str(int)`, `int(str)`, Django's `slugify`
and `inflection.ordinalize` are given ASCII definitions in `Text` and
`Visits`.

## Model

Source paths are relative to the repository root.

| member | source | states |
|---|---|---|
| Store.WriteCategory | tango_with_django/rango/models.py:11-14 | A category write succeeds exactly when no other row has the row's name or slug. Otherwise it fails with IntegrityError. Success inserts under the next id (unsaved row) or replaces the row with that id; no other row and no page changes, and the schema's constraints are kept. |
| Store.WritePage | tango_with_django/rango/models.py:31-37 | A page write succeeds exactly when its category exists. An unsaved category gives ValueError, a missing one IntegrityError. Success inserts or replaces that one row; the categories and other pages are untouched, and the constraints are kept. |
| Store.GetCategory | tango_with_django/rango/views.py:310 | `Category.objects.get(id=...)` returns a stored row with that id. |
| Store.GetPage | tango_with_django/rango/views.py:236 | `Page.objects.get(id=...)` returns a stored row with that id. |
| Store.CategoryBySlug | tango_with_django/rango/views.py:93 | `Category.objects.get(slug=...)` returns a stored row with that slug. |
| Store.CategoryByName | populate_rango.py:154 | A lookup by name returns a stored row with that name. |
| Store.PagesOf | tango_with_django/rango/views.py:94 | `filter(category=...)` holds exactly the stored pages of the category. |
| Store.GetCategoryById | tango_with_django/rango/views.py:310 | In well-formed tables, a lookup by id finds the row at position id - 1, or fails with DoesNotExist when no such row exists. |
| Store.GetPageById | tango_with_django/rango/views.py:236 | The same for pages. |
| Store.CategoryBySlugUnique | tango_with_django/rango/views.py:93 | Slugs are unique, so a lookup by slug succeeds exactly when some category has the slug, and otherwise fails with DoesNotExist, never with MultipleObjectsReturned. |
| Store.CategoryByNameUnique | populate_rango.py:154 | Names are unique, so a lookup by name finds the category with that name, or fails with DoesNotExist when there is none. |
| Queries.Filter | tango_with_django/rango/views.py:203 | `filter` keeps exactly the rows that satisfy the condition: none that fails it, and none left out that satisfies it. |
| Queries.FilterAppend | tango_with_django/rango/views.py:205-206 | Filtering one more row appends that row exactly when it matches; this is the step of the loop that builds the query set. |
| Queries.GetWhere | tango_with_django/rango/views.py:93 | `get` succeeds exactly when one row matches. No match is DoesNotExist; several matches are MultipleObjectsReturned. |
| Queries.SortByDesc | tango_with_django/rango/views.py:94 | `order_by('-field')` is sorted largest first and is a permutation of the rows. |
| Queries.TopN | tango_with_django/rango/views.py:29 | `order_by('-field')[:n]` takes min(n, size) rows, largest first, all from the input. No row left out has a larger key than a row taken. |
| Models.Abs | tango_with_django/rango/models.py:18 | `abs(views)` is the value or its negation, and never negative. |
| Models.NormaliseCategory | tango_with_django/rango/models.py:16-19 | Before the write, `Category.save` sets the slug to the slug of the current name. It drops the sign of `views`. Id, name and `likes` are untouched, so `likes` is not clamped. |
| Models.NormaliseCategoryIdempotent | tango_with_django/rango/models.py:17-18 | Saving a category twice writes the same fields as saving it once. |
| Models.NormaliseNormalised | tango_with_django/rango/models.py:17-18 | A row whose slug already matches its name, with non-negative views, is left as it is. |
| Models.StampPage | tango_with_django/rango/models.py:40-41 | After `Page.save`, `last_visit` is the later of its old value and now. No other field changes. |
| Models.StampDefaultLastVisit | tango_with_django/rango/models.py:36-41 | A page with the default epoch `last_visit` gets now on its first save. |
| Models.StampKeepsFutureLastVisit | tango_with_django/rango/models.py:40-41 | A `last_visit` later than now is kept, so it is still in the future after the save. |
| Models.PreparePage | tango_with_django/rango/models.py:35-42 | The row a page save writes is the page with `last_visit` stamped. `first_visit` becomes now only on insertion (`auto_now_add`). Id, category, title, url and views are as before. |
| Models.SaveCategory | tango_with_django/rango/models.py:16-19 | A successful save stores the name and `likes` as given, the name's slug and `abs(views)`. A refusal is IntegrityError. Consistent tables stay consistent: schema constraints plus every category normalised. |
| Models.SavePage | tango_with_django/rango/models.py:39-42 | The save succeeds exactly when the category exists. The stored row is the page with `last_visit` >= now and >= the old value. `first_visit` is kept on an update. Categories are untouched and consistency is kept. |
| Models.CategoryGetOrCreate | populate_rango.py:154 | `get_or_create(name=...)` returns a row with the name. In consistent tables that row is stored under its id, the tables stay consistent, and pages are untouched. |
| Models.PageByKey | tango_with_django/rango/views.py:347-348 | The page lookup returns a stored page with the category, title and (when given) url. |
| Models.PageGetOrCreate | tango_with_django/rango/views.py:347-348 | `Page.objects.get_or_create` returns a page with the key, stored under its id. The tables stay consistent and the categories are untouched. |
| Models.Category.constructor | tango_with_django/rango/tests.py:18 | `Category(name, views, likes)` is an unsaved instance with an empty slug. |
| Models.Category.Save | tango_with_django/rango/models.py:16-19 | `save()` normalises the instance's own slug and views in place, then writes the row. An insert gives the instance its id. On a refusal the tables are unchanged. |
| Models.Page.Save | tango_with_django/rango/models.py:39-42 | `save()` raises the instance's `last_visit` to now in place and sets `first_visit` on insertion, then writes the row. On a refusal the tables are unchanged. |
| Models.GetOrCreateCategory | populate_rango.py:154 | On the database, `get_or_create` hands back a fresh instance of the row `CategoryGetOrCreate` gives, and leaves its tables. |
| Models.GetOrCreatePage | populate_rango.py:147 | The same for pages, against `PageGetOrCreate`. |
| Forms.CleanText | tango_with_django/rango/forms.py:8-10 | A required `CharField(max_length=m)` accepts exactly the stripped text that is non-empty and at most m long. It reports Required or TooLong otherwise. |
| Forms.CleanCategoryName | tango_with_django/rango/forms.py:8-10 | An accepted category name has 1 to 128 characters, the model's `max_length`. |
| Forms.CleanPageTitle | tango_with_django/rango/forms.py:26-28 | An accepted page title has 1 to 128 characters. |
| Forms.CleanedUrl | tango_with_django/rango/forms.py:44-51 | `clean` puts "http://" in front of a non-empty url not starting with it, and leaves the data as it was in every other case. No other entry changes. |
| Forms.CleanedUrlPrefixed | tango_with_django/rango/forms.py:49-51 | After `clean`, every non-empty url starts with "http://". |
| Forms.CleanedUrlIdempotent | tango_with_django/rango/forms.py:49-51 | Cleaning data that is already clean changes nothing. |
| Forms.CleanedUrlOfHttps | tango_with_django/rango/forms.py:49-50 | An "https://..." url is not recognised and becomes "http://https://...". |
| Forms.PageForm.Clean | tango_with_django/rango/forms.py:42-53 | `clean()` rewrites `cleaned_data` in place as `CleanedUrl` says. It returns the data exactly when it rewrote the url, and nothing otherwise. |
| Visits.GetServerSideCookie | tango_with_django/rango/views.py:66-70 | The result is the stored value when it exists and is truthy, and the default otherwise. |
| Visits.FalsyValueFallsBack | tango_with_django/rango/views.py:68-69 | A stored 0 or empty text falls back to the default. |
| Visits.ToInt | tango_with_django/rango/views.py:48 | `int(...)` of a stored integer is that integer, and of a date-time a ValueError. |
| Visits.ToStamp | tango_with_django/rango/views.py:51-52 | Parsing `last_visit` succeeds exactly for a stored date-time and gives its time. |
| Visits.ElapsedSeconds | tango_with_django/rango/views.py:54 | `timedelta.seconds` lies in [0, 86400) and differs from `now - past` by whole days. |
| Visits.IncrementNeverDue | tango_with_django/rango/views.py:54 | The guard `seconds >= 86400` is false for every pair of times. |
| Visits.RecordVisit | tango_with_django/rango/views.py:56-61 | The unreachable branch would store count + 1. It would leave `last_visit` holding the old cookie value, because the second write replaces the first. Every other session entry is kept. |
| Visits.VisitorCookieHandler | tango_with_django/rango/views.py:44-63 | The handler never changes the session. It shows the ordinal of the stored count, or of 1. It fails only when the stored count is not an integer or the stored `last_visit` is not a date-time. |
| Visits.OrdinalSuffix | tango_with_django/rango/views.py:62 | The suffix `ordinalize` appends is one of "st", "nd", "rd", "th". |
| Visits.Ordinalize | tango_with_django/rango/views.py:62 | The ordinal is the decimal numeral followed by its suffix. |
| Visits.FirstVisitShowsFirst | tango_with_django/rango/views.py:48 | With nothing stored, the count is 1 and the page shows "1st". |
| Visits.OrdinalByLastDigit | tango_with_django/rango/views.py:62 | The suffix follows the last digit (1st, 2nd, 3rd, 4th, 21st, 102nd, -1st). |
| Visits.OrdinalTeens | tango_with_django/rango/views.py:62 | Every number whose magnitude ends in 11, 12 or 13, in any hundred and of either sign, takes "th" despite its last digit. |
| Visits.OrdinalOfTwentyOne | tango_with_django/rango/views.py:62 | A count of 21 shows as "21st". |
| Views.TopCategories | tango_with_django/rango/views.py:29 | The index lists min(5, n) categories, most liked first, all stored. No category left out is liked more than one shown. |
| Views.TopPages | tango_with_django/rango/views.py:31 | The index lists min(5, n) pages, most viewed first, all stored. No page left out is viewed more than one shown. |
| Views.Index | tango_with_django/rango/views.py:24-41 | The index context is the two top-five lists and the visitor ordinal. It fails exactly when the visitor handler does, and leaves the session unchanged. |
| Views.IndexListsUpToFive | tango_with_django/rango/tests.py:39-63 | With no category the index lists none. With four it lists exactly those four. |
| Views.ShowCategory | tango_with_django/rango/views.py:91-102 | The category page shows the category with the slug and exactly its pages, most viewed first. It shows neither when DoesNotExist is caught. |
| Views.ShowCategoryTotal | tango_with_django/rango/views.py:92-97 | In well-formed tables the category page never fails. It shows a category exactly when one has the slug. |
| Views.SuccessUrl | tango_with_django/rango/views.py:166-174 | The success url is "/rango/category/" + slug + "/". It is never empty, so the error branch is dead. |
| Views.AddPage | tango_with_django/rango/views.py:157-164 | `form_valid` either redirects to the category page after adding one page, or fails and leaves the tables unchanged. |
| Views.AddPageAppends | tango_with_django/rango/views.py:157-164 | Under a stored slug, the page is appended with the next id, that category, the form's fields and now as first visit. |
| Views.AddPageUnknownSlug | tango_with_django/rango/views.py:159 | An unknown slug raises DoesNotExist and adds nothing. |
| Views.AddPageFormValid | tango_with_django/rango/views.py:157-164 | On the database, `form_valid` gives the response and tables `AddPage` gives. |
| Views.TitleMatches | tango_with_django/rango/views.py:203 | `filter(title__icontains=q)` holds exactly the pages whose title contains q, ignoring case. |
| Views.GetQueryset | tango_with_django/rango/views.py:202-220 | The loop that copies the query set returns exactly `TitleMatches`, in store order. |
| Views.SearchContext | tango_with_django/rango/views.py:194-200 | Results appear exactly for a non-empty query, and they are its matches. |
| Views.Track | tango_with_django/rango/views.py:231-256 | The tracker either redirects to a non-empty url or ends in NameError. |
| Views.TrackFoundPage | tango_with_django/rango/views.py:233-246 | A stored page gets exactly one more view and its `last_visit` stamped; nothing else changes. The client is redirected to the page's url when it is non-empty. |
| Views.TrackUnknownPage | tango_with_django/rango/views.py:232-256 | A missing, malformed or unknown page id leaves the tables unchanged and ends in NameError. |
| Views.TrackUrl | tango_with_django/rango/views.py:231-256 | On the database, counting the visit through the page's own `save` gives the response and tables `Track` gives. |
| Views.Like | tango_with_django/rango/views.py:304-316 | `like_category` answers with text or fails, and a failure changes nothing. A non-GET request ends in UnboundLocalError. |
| Views.LikeIncrements | tango_with_django/rango/views.py:309-315 | Liking a stored category raises its likes by exactly one and changes nothing else. The answer is "<new count> people like this category". |
| Views.ConsistentWithLikes | tango_with_django/rango/views.py:313-314 | Changing a category's likes keeps the tables consistent. |
| Views.LikeTwice | tango_with_django/rango/views.py:310-315 | Two likes on a category with 4 likes leave it with 6. The second answer is "6 people like this category". |
| Views.LikesMessageOfSix | tango_with_django/rango/views.py:315 | A count of 6 reads "6 people like this category". |
| Views.LikeCategory | tango_with_django/rango/views.py:304-316 | On the database, `like_category` gives the response and tables `Like` gives. |
| Views.NamesStartingWith | tango_with_django/rango/views.py:321 | `filter(name__istartswith=p)` holds exactly the categories whose name starts with p, ignoring case. |
| Views.GetCategoryList | tango_with_django/rango/views.py:318-325 | An empty prefix gives nothing. Otherwise the result is a prefix of the matches, cut to `max_results` when that is positive. |
| Views.SuggestCategory | tango_with_django/rango/views.py:327-333 | Suggestions number at most 8 and are `get_category_list(8, s)`. A GET without the parameter is a KeyError; other methods get none. |
| Views.AutoAddPage | tango_with_django/rango/views.py:336-352 | `auto_add_page` either lists pages or fails; a failure changes nothing. A non-GET request renders without pages. |
| Views.AutoAddPageCreates | tango_with_django/rango/views.py:345-351 | For a stored category without the title and url, exactly one page with no views is appended. The listing is that category's pages, new one included, most viewed first. |
| Views.AutoAddPageReuses | tango_with_django/rango/views.py:347-348 | When the page already exists once, the tables are left as they were. |
| Views.AutoAddPageView | tango_with_django/rango/views.py:336-352 | On the database, `auto_add_page` gives the response and tables `AutoAddPage` gives. |
| Webhose.QuoteByte | tango_with_django/rango/webhose_search.py:37 | A safe byte (letter, digit, `-._~`, `/`) stands for itself. Any other byte becomes "%" and two hex digits holding its value. |
| Webhose.Quote | tango_with_django/rango/webhose_search.py:37 | The quoted text holds only safe characters, "%" and hex digits. |
| Webhose.UnquoteQuote | tango_with_django/rango/webhose_search.py:37 | Decoding the quoted terms gives the terms back, so quoting loses nothing. |
| Webhose.QuoteKeepsQueryIntact | tango_with_django/rango/webhose_search.py:37-43 | The quoted terms contain no space, "&", "=", "#", "?" or "+". |
| Webhose.SearchUrl | tango_with_django/rango/webhose_search.py:35-43 | The url is the root, "?token=" + key, the fixed parameters, and then the quoted terms, in that order. |
| Webhose.SearchUrlRecoversTerms | tango_with_django/rango/webhose_search.py:39-43 | The terms can be read back from the end of the url. |
| Webhose.FirstLine | tango_with_django/rango/webhose_search.py:29 | `readline()` gives a prefix of the file with no line break before its last character. |
| Webhose.ReadKey | tango_with_django/rango/webhose_search.py:26-33 | A missing key file is IOError. An empty stripped first line is KeyError. Otherwise the key is that line, stripped and non-empty. |
| Webhose.ToResult | tango_with_django/rango/webhose_search.py:52-54 | A result carries the post's title and url as they are, null or any other value. Its summary is of the text's kind: the first min(222, length) characters of a string, or elements of a list. |
| Webhose.NullTitleMapped | tango_with_django/rango/webhose_search.py:51-54 | A post with a null title is mapped to a result with a null title; the loop does not stop there. |
| Webhose.CompleteCount | tango_with_django/rango/webhose_search.py:51-54 | The posts before the count are complete (they have a title, a url and a text, and the text is a string or a list), and the post at the count (if any) is not. |
| Webhose.MappedPrefix | tango_with_django/rango/webhose_search.py:51-54 | The loop gives one result per post, in order, up to the first post that lacks a key or whose text cannot be sliced, never more results than posts. |
| Webhose.ResultsOf | tango_with_django/rango/webhose_search.py:44-58 | Any failure in the guarded block is swallowed, leaving the results mapped before it. These are none when the request or decoding failed, or when the reply has no posts. |
| Webhose.AllPostsMapped | tango_with_django/rango/webhose_search.py:51-54 | When every post is complete there is one result per post. |
| Webhose.MapPosts | tango_with_django/rango/webhose_search.py:51-54 | The loop appends `MappedPrefix` and reports whether it stopped early. |
| Webhose.SearchQuery | tango_with_django/rango/webhose_search.py:23-58 | A key error is raised before any request. Otherwise the results are `ResultsOf` the reply to `SearchUrl`. |
| Text.Strip | tango_with_django/rango/webhose_search.py:29 | `strip()` removes only whitespace, from both ends, and leaves text that neither starts nor ends with whitespace. |
| Text.StripSpec | tango_with_django/rango/webhose_search.py:29 | The input is the stripped text with whitespace around it. |
| Text.StripAllSpace | tango_with_django/rango/webhose_search.py:29 | Text of whitespace alone, the ASCII separators 0x1C to 0x1F included, strips to the empty key. |
| Text.Slugify | tango_with_django/rango/models.py:17 | `slugify` gives a well-formed slug: lower-case letters, digits, `_` and `-`, never two hyphens in a row. |
| Text.SlugifyOfSlug | tango_with_django/rango/models.py:17 | A slug is its own slug. |
| Text.SlugifyIdempotent | tango_with_django/rango/models.py:17 | Slugifying twice is slugifying once. |
| Text.SlugifyOfThreeWords | tango_with_django/rango/tests.py:28-30 | Three words separated by spaces slugify to the lower-cased words joined by hyphens. |
| Text.SlugifyExample | tango_with_django/rango/tests.py:28-30 | "Random Category String" slugifies to "random-category-string". |
| Text.ParseInt | tango_with_django/rango/views.py:310 | `int(s)` fails only with ValueError. |
| Text.IntToString | tango_with_django/rango/views.py:315 | `str(n)` is non-empty and starts with a sign or a digit. |
| Text.IntToStringRoundTrip | tango_with_django/rango/views.py:310 | `int(str(n)) == n`. |
| Populate.CatAdded | populate_rango.py:153-158 | `add_cat` leaves one stored category with the name, `likes` as given and `abs(views)`. It grows the table by at most one row, changes no other category or page, and keeps the tables consistent. It fails only with IntegrityError. |
| Populate.CatAddedExisting | populate_rango.py:154-157 | For a stored name, `add_cat` updates that category's counts in place and creates no second category. |
| Populate.CatAddedNew | populate_rango.py:154-157 | For a new name with a free slug, `add_cat` appends a category with the next id. |
| Populate.CatAddedSlugTaken | populate_rango.py:154 | A new name whose slug is taken is refused and nothing is written. |
| Populate.CatAddedFails | populate_rango.py:153-158 | `add_cat` fails exactly when the name is new and its slug is taken. |
| Populate.PageAdded | populate_rango.py:146-151 | `add_page` leaves one page with the category and title, the given url and views, and `last_visit` >= now. Other pages and the categories are unchanged. It succeeds exactly when the page is found, or is absent and the category exists. |
| Populate.PageAddedNew | populate_rango.py:147-150 | For a title the category lacks, `add_page` appends the page with the next id. |
| Populate.PageAddedExisting | populate_rango.py:147-150 | For a title the category has once, `add_page` updates that page in place. |
| Populate.PagesAdded | populate_rango.py:137-138 | The inner loop keeps the tables consistent, keeps the categories and never removes pages. |
| Populate.SeedAdded | populate_rango.py:136-138 | One pass of the outer loop keeps the tables consistent and never removes rows. |
| Populate.Populated | populate_rango.py:135-138 | The whole loop keeps the tables consistent and never removes rows. |
| Populate.AddCat | populate_rango.py:153-158 | On the database, `add_cat` hands back the saved instance and leaves the tables `CatAdded` gives. |
| Populate.AddPage | populate_rango.py:146-151 | On the database, `add_page` hands back the saved instance and leaves the tables `PageAdded` gives. |
| Populate.AddPages | populate_rango.py:137-138 | The inner loop on the database gives the tables and outcome `PagesAdded` gives. |
| Populate.AddSeed | populate_rango.py:136-138 | One outer pass on the database gives what `SeedAdded` gives. |
| Populate.AddAll | populate_rango.py:135-138 | The outer loop on the database gives what `Populated` gives. |
| Populate.Populate | populate_rango.py:10-138 | `populate()` on the database gives what `Populated` gives for the seed data. |
| Populate.Appended | populate_rango.py:136-138 | A new seed category is appended under the next id, followed by its pages. Every one of those pages belongs to it and carries the seed's title, url and views. |
| Populate.Seeded | populate_rango.py:135-138 | New seed data adds one category per seed and all their pages, after the rows already stored. |
| Populate.SeededPagesFields | populate_rango.py:137-138 | Each seeded page keeps its category, title, url and view count. |
| Populate.SeededPagesInNewCategories | populate_rango.py:135-138 | Every page the seed data adds belongs to one of the categories it adds. |
| Populate.PagesAddedFresh | populate_rango.py:137-138 | The inner loop over titles the category lacks appends them all, in order, without failing. |
| Populate.SeedAddedFresh | populate_rango.py:136-138 | One outer pass for a new category appends it and its pages. |
| Populate.PopulatedFresh | populate_rango.py:135-138 | Populating with seed data that is all new adds every category and page, in order, and fails nowhere. |
| Populate.SlugsOfSeeds | populate_rango.py:103-130 | The nine seed names slugify to "python", "django", "other-frameworks", "pascal", "prolog", "perl", "php", "postscript" and "programming". |
| Populate.SeedSlugsDistinct | populate_rango.py:103-130 | The nine slugs differ from each other. |
| Populate.SeedTitlesDistinct | populate_rango.py:14-99 | No seed category lists a title twice. |
| Populate.SeedsFresh | populate_rango.py:103-130 | The seed data is new to a database without categories. |
| Populate.SeedPageCount | populate_rango.py:14-99 | The seed data holds seventeen pages. The repeated `other_pages` list counts once. |
| Populate.SeededEmpty | populate_rango.py:103-138 | Seeding an empty database gives nine categories and seventeen pages. |
| Populate.PopulateEmpty | populate_rango.py:135-138 | On an empty database the script adds every seed category and page, in order, and fails nowhere. |
| Populate.PopulateEmptyCounts | populate_rango.py:135-138 | After one run on an empty database, there are nine categories and seventeen pages. |
| Populate.Restamped | tango_with_django/rango/models.py:40-41 | Saving a range of pages again keeps the categories and the number of pages, and keeps the tables consistent. |
| Populate.RestampedSpec | tango_with_django/rango/models.py:40-41 | Saving a range of pages again stamps exactly those pages' `last_visit` and leaves every other row as it was. |
| Populate.LastVisitsKeepConsistent | tango_with_django/rango/models.py:40-41 | Tables that differ only in last visits are consistent together. |
| Populate.PageAddedAgain | populate_rango.py:147-150 | `add_page` for a page already stored with the same fields only saves it again. |
| Populate.PagesAddedAgain | populate_rango.py:137-138 | The inner loop over pages already stored saves each again and changes nothing but their last visits. |
| Populate.CatAddedAgain | populate_rango.py:154-157 | `add_cat` for a category stored with the script's counts writes the same row back. |
| Populate.SeedAddedAgain | populate_rango.py:136-138 | One outer pass for a seed already stored changes nothing but its pages' last visits. |
| Populate.PopulatedAgain | populate_rango.py:135-138 | Over tables holding what the script writes, a run fails nowhere. It only saves the seeded pages again. |
| Populate.PopulatedFreshLayout | populate_rango.py:135-138 | A first run over new seed data leaves consistent tables laid out as the script writes them. |
| Populate.RunTwice | populate_rango.py:135-138 | After a successful first run on new seed data, a second run fails nowhere. It changes nothing but the last visits of the pages the first run added. |
| Populate.PopulateTwice | populate_rango.py:135-138 | Run twice on an empty database, the script gives the same categories, pages and counters as one run. The second run only stamps every page's `last_visit` again with its own time, raising it when earlier. |

## Left out

- Rendering, templates, URL routing, the `login_required` decorators and the response classes are left out. A response is reduced to the `Views.Response` datatype.
- `AboutView`, `RestrictedView` and the form views' `get`/`form_invalid` plumbing are left out. So are the test cookie and every `print`, including the listing loop at the end of `populate` (`populate_rango.py:142-144`).
- `RegisterProfile`, `profile`, `list_profiles`, `UserProfile`, `UserForm` and `UserProfileForm` are left out. They only save framework forms.
- `AddCategoryView.form_valid` is not modelled beyond `Models.Category.Save`, which it reaches through `form.save`.
- `ShowCategoryView`'s search form and `render_search_response` are left out: they hand the form's query to `search_query` and render the results.
- `Text.Slugify`, `Text.Strip`, `Text.ParseInt`: only ASCII text is modelled. Unicode normalisation, non-ASCII letters and whitespace, and `int()`'s digit-group underscores are not modelled.
- Visits.ToStamp: the session's `last_visit` text and its parsing with `strptime` after cutting seven characters are modelled by the time the text denotes. A stored string is always a ValueError. Time zones and naive/aware comparisons are left out.
- Webhose.SearchQuery: reading `search.key`, `urlopen` and JSON decoding are parameters (the key file's content and a function from url to reply). The reply's `posts` are taken as decoded JSON values; a post that is not an object is given with every key missing, which raises in the same way. The error message printed on failure is left out.
- Webhose.Quote works on the UTF-8 bytes of the terms. The encoding from text to bytes is not modelled.
- Concurrency is not modelled: two requests racing on likes, views or the session counter. Every handler runs alone.
- Each request and each run of the script uses a single `now`. The source reads the clock at every call, so two saves in one run could see different times.
- The seed data is visited in the order the `cats` dictionary is written. That is the order `items()` gives from Python 3.7 on; older interpreters may visit them in another order.
- Store.WriteCategory, Store.WritePage: the column lengths (`name` and `title` 128, the slug's default 50) are not enforced by the store, as on SQLite, the tutorial's database. A backend that checks them would refuse a slug longer than 50 characters, which a name of up to 128 characters can give.
- Store.WriteCategory, Store.WritePage: a new row's id is its position plus one, as on SQLite when no insert has been refused. A backend that draws ids from a sequence spends an id on a refused insert and leaves a gap.
- Views.GetCategoryList, Views.GetQueryset: `filter` without `order_by` has no guaranteed order in SQL. The model returns the matches in insertion order, which is more than the source promises; the set of matches (and for suggestions, at most eight of them) is what it guarantees.
- Django's URL validation of `PageForm.url` (a `URLField`) and the `max_length` of 200 for urls are not enforced by the model.
- Views.TrackUrl: the `permanent` attribute of the redirect view is always false, so only the temporary redirect is modelled.
- Models.StampKeepsFutureLastVisit: the code keeps a `last_visit` in the future, and the model follows it. The repository's test `test_future_first_or_last_visit` (`tango_with_django/rango/tests.py:65-75`) expects such a date to end up no later than now.
- Forms.PageForm.Clean: on every path except the rewrite, `clean` returns `None` (`tango_with_django/rango/forms.py:53` is inside the `if`). The model returns `None` there too. What Django does with that `None` is not modelled.
- Webhose.ToResult: the comment in `webhose_search.py` speaks of 200 characters, but the code and the model cut at 222.
