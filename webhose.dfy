/** The search adapter `WebhoseMixin.search_query`: reading the API key,
    percent-encoding the search terms (section 2.1 of RFC 3986, leaving the
    unreserved characters of section 2.3 and "/" as they are), assembling the
    request url, and turning the posts of the reply into results. The key
    file and the remote API are parameters. */
module Webhose {
  import opened Outcome
  import opened Text
  import Queries

  newtype byte = x: int | 0 <= x < 256

  // ---------------------------------------------------------------------
  // Percent-encoding

  predicate IsAlphaNum(c: char) { IsUpper(c) || IsLower(c) || IsDigit(c) }

  /** The characters `quote` leaves as they are: letters, digits, "-._~"
      and "/". */
  predicate IsSafe(c: char) {
    IsAlphaNum(c) || c == '-' || c == '.' || c == '_' || c == '~' || c == '/'
  }

  /** The upper-case hexadecimal digit of `d`. */
  function HexDigit(d: nat): (c: char)
    requires d < 16
    ensures IsDigit(c) || 'A' <= c <= 'F'
  {
    if d < 10 then ('0' as int + d) as char else ('A' as int + d - 10) as char
  }

  predicate IsHexDigit(c: char) { IsDigit(c) || 'A' <= c <= 'F' }

  function HexValue(c: char): (d: nat)
    requires IsHexDigit(c)
    ensures d < 16
  {
    if IsDigit(c) then c as int - '0' as int else c as int - 'A' as int + 10
  }

  lemma HexValueOfDigit(d: nat)
    requires d < 16
    ensures HexValue(HexDigit(d)) == d
  {
  }

  /** `urllib.parse.quote` of one byte: a safe byte stands for itself, every
      other byte becomes "%" and two upper-case hexadecimal digits. */
  function QuoteByte(b: byte): (r: string)
    ensures |r| == 1 || |r| == 3
    ensures |r| == 1 <==> IsSafe(b as int as char)
    ensures |r| == 1 ==> r[0] == b as int as char
    ensures |r| == 3 ==> r[0] == '%' && IsHexDigit(r[1]) && IsHexDigit(r[2])
    ensures |r| == 3 ==> HexValue(r[1]) * 16 + HexValue(r[2]) == b as int
  {
    var c := b as int as char;
    if IsSafe(c) then [c]
    else
      HexValueOfDigit(b as int / 16);
      HexValueOfDigit(b as int % 16);
      ['%', HexDigit(b as int / 16), HexDigit(b as int % 16)]
  }

  /** `urllib.parse.quote` of the encoded search terms. */
  function Quote(s: seq<byte>): (r: string)
    ensures forall i :: 0 <= i < |r| ==> IsSafe(r[i]) || r[i] == '%' || IsHexDigit(r[i])
  {
    if s == [] then [] else QuoteByte(s[0]) + Quote(s[1..])
  }

  /** Percent-decoding, the inverse of `Quote`; None for text `Quote` never
      produces. */
  function Unquote(s: string): (r: Option<seq<byte>>)
    decreases |s|
  {
    if s == [] then Some([])
    else if s[0] == '%' then
      if |s| >= 3 && IsHexDigit(s[1]) && IsHexDigit(s[2]) then
        var b := HexValue(s[1]) * 16 + HexValue(s[2]);
        match Unquote(s[3..])
        case Some(rest) => Some([b as byte] + rest)
        case None => None
      else None
    else if IsSafe(s[0]) then
      match Unquote(s[1..])
      case Some(rest) => Some([s[0] as int as byte] + rest)
      case None => None
    else None
  }

  /** Decoding the quoted terms gives the terms back: no two byte strings are
      quoted alike. */
  lemma {:induction false} UnquoteQuote(s: seq<byte>)
    ensures Unquote(Quote(s)) == Some(s)
  {
    if s != [] {
      var head := QuoteByte(s[0]);
      var tail := Quote(s[1..]);
      UnquoteQuote(s[1..]);
      assert Quote(s) == head + tail;
      if |head| == 1 {
        assert (head + tail)[1..] == tail;
      } else {
        assert (head + tail)[3..] == tail;
      }
      assert s == [s[0]] + s[1..];
    }
  }

  /** The quoted terms hold no character that ends or splits a query
      parameter or starts a fragment: no space, "&", "=", "#" or "?". */
  lemma QuoteKeepsQueryIntact(s: seq<byte>)
    ensures forall i :: 0 <= i < |Quote(s)| ==>
      Quote(s)[i] !in {' ', '&', '=', '#', '?', '+'}
  {
  }

  // ---------------------------------------------------------------------
  // The request url

  const RootUrl: string := "http://webhose.io/filterWebContent"
  const ResultCount: nat := 8
  /** The fixed query parameters between the token and the quoted terms. */
  const FixedQuery: string := "&format=json&ts=1505823665729&sort=crawled&size=8&q=language%3Aenglish%20"

  /** The request url for the key and the search terms, built from its parts
      in order. */
  function SearchUrl(key: string, terms: seq<byte>): (url: string)
    ensures StartsWith(url, RootUrl + "?token=" + key + FixedQuery)
    ensures url[|RootUrl + "?token=" + key + FixedQuery|..] == Quote(terms)
  {
    var head := RootUrl + "?token=" + key + FixedQuery;
    assert (head + Quote(terms))[..|head|] == head;
    assert (head + Quote(terms))[|head|..] == Quote(terms);
    head + Quote(terms)
  }

  /** The terms can be read back from the end of the url. */
  lemma SearchUrlRecoversTerms(key: string, terms: seq<byte>)
    ensures var url := SearchUrl(key, terms);
      var start := |RootUrl + "?token=" + key + FixedQuery|;
      start <= |url| && Unquote(url[start..]) == Some(terms)
  {
    UnquoteQuote(terms);
  }

  // ---------------------------------------------------------------------
  // The key

  /** `f.readline()`: the text up to and including the first line break. */
  function FirstLine(content: string): (r: string)
    ensures r <= content
    ensures forall i :: 0 <= i < |r| - 1 ==> r[i] != '\n'
  {
    if content == [] then []
    else if content[0] == '\n' then ['\n']
    else [content[0]] + FirstLine(content[1..])
  }

  /** Reading the key from the key file (None when the file cannot be
      opened): the first line stripped of white space. A missing file is an
      IOError; an empty key a KeyError. */
  function ReadKey(keyFile: Option<string>): (r: Result<string>)
    ensures keyFile.None? <==> r == Err(IOError)
    ensures r.Ok? ==> r.value != [] && r.value == Strip(FirstLine(keyFile.value))
    ensures keyFile.Some? && Strip(FirstLine(keyFile.value)) == [] ==> r == Err(KeyError)
  {
    if keyFile.None? then Err(IOError)
    else
      var key := Strip(FirstLine(keyFile.value));
      if key == [] then Err(KeyError) else Ok(key)
  }

  // ---------------------------------------------------------------------
  // The reply

  /** A JSON value as the reply decodes it. Numbers, booleans and objects
      are only ever copied or refused here, so they are kept as their JSON
      text. */
  datatype Value = Null | Str(s: string) | List(items: seq<Value>) | Other(json: string)

  /** A post of the reply: each field is None when the key is missing. A
      post that is not an object has every field missing, since indexing it
      by a key raises just as a missing key does. */
  datatype Post = Post(title: Option<Value>, url: Option<Value>, text: Option<Value>)

  /** What the API gives back for a url: nothing (the request failed), a body
      that is not JSON, or a decoded object with or without a `posts` list. */
  datatype Reply = Unreachable | Malformed | Decoded(posts: Option<seq<Post>>)

  /** One search result: the post's title and url as they were, and the
      sliced text. */
  datatype SearchResult = SearchResult(title: Value, link: Value, summary: Value)

  const SummaryLength: nat := 222

  /** `[:n]` is defined on strings and lists; on anything else it raises. */
  predicate Sliceable(v: Value) { v.Str? || v.List? }

  /** `v[:n]` for a string or a list. */
  function Slice(v: Value, n: nat): (r: Value)
    requires Sliceable(v)
    ensures v.Str? ==> r.Str? && |r.s| == Queries.Min(n, |v.s|) && r.s <= v.s
    ensures v.List? ==> r.List? && |r.items| == Queries.Min(n, |v.items|) && r.items <= v.items
  {
    match v
    case Str(s) => Str(if |s| <= n then s else s[..n])
    case List(items) => List(if |items| <= n then items else items[..n])
  }

  /** A post the loop maps without raising: it has all three keys and its
      text can be sliced. The title and url may be any value, null included. */
  predicate Complete(p: Post) {
    p.title.Some? && p.url.Some? && p.text.Some? && Sliceable(p.text.value)
  }

  /** The result of a complete post: its title, its url as the link, and the
      first 222 elements of its text as the summary. */
  function ToResult(p: Post): (r: SearchResult)
    requires Complete(p)
    ensures r.title == p.title.value && r.link == p.url.value
    ensures r.summary.Str? <==> p.text.value.Str?
    ensures r.summary.Str? ==> |r.summary.s| == Queries.Min(SummaryLength, |p.text.value.s|) && r.summary.s <= p.text.value.s
    ensures r.summary.List? ==> |r.summary.items| == Queries.Min(SummaryLength, |p.text.value.items|) && r.summary.items <= p.text.value.items
  {
    SearchResult(p.title.value, p.url.value, Slice(p.text.value, SummaryLength))
  }

  /** A post whose title is null is still mapped: the result's title is null. */
  lemma NullTitleMapped(url: string, text: string)
    ensures MappedPrefix([Post(Some(Null), Some(Str(url)), Some(Str(text)))]) ==
      [SearchResult(Null, Str(url), Slice(Str(text), SummaryLength))]
  {
  }

  /** The number of leading posts that are complete. */
  function CompleteCount(posts: seq<Post>): (n: nat)
    ensures n <= |posts|
    ensures forall i :: 0 <= i < n ==> Complete(posts[i])
    ensures n < |posts| ==> !Complete(posts[n])
  {
    if posts == [] || !Complete(posts[0]) then 0 else 1 + CompleteCount(posts[1..])
  }

  /** The results the loop has appended when it stops: one per post in
      order, up to the first post that lacks a key or whose text cannot be
      sliced; that post raises and ends the loop. */
  function MappedPrefix(posts: seq<Post>): (r: seq<SearchResult>)
    ensures |r| == CompleteCount(posts) <= |posts|
    ensures forall i :: 0 <= i < |r| ==> r[i] == ToResult(posts[i])
  {
    var n := CompleteCount(posts);
    seq(n, i requires 0 <= i < n => ToResult(posts[i]))
  }

  /** What the search returns for a reply: every failure in the guarded block
      is swallowed, leaving the results appended before it. */
  function ResultsOf(reply: Reply): (r: seq<SearchResult>)
    ensures !(reply.Decoded? && reply.posts.Some?) ==> r == []
    ensures reply.Decoded? && reply.posts.Some? ==>
      var posts := reply.posts.value;
      && |r| <= |posts|
      && (forall i :: 0 <= i < |r| ==> Complete(posts[i]) && r[i] == ToResult(posts[i]))
      && (|r| < |posts| ==> !Complete(posts[|r|]))
  {
    if reply.Decoded? && reply.posts.Some? then MappedPrefix(reply.posts.value) else []
  }

  /** When every post is complete there is one result per post. */
  lemma AllPostsMapped(posts: seq<Post>)
    requires forall i :: 0 <= i < |posts| ==> Complete(posts[i])
    ensures |MappedPrefix(posts)| == |posts|
  {
  }

  /** The loop over the posts of the reply. It stops at the first post it
      cannot map; `failed` tells whether it did. */
  method MapPosts(posts: seq<Post>) returns (results: seq<SearchResult>, failed: bool)
    ensures results == MappedPrefix(posts)
    ensures failed <==> |results| < |posts|
  {
    results := [];
    failed := false;
    var i := 0;
    while i < |posts|
      invariant 0 <= i <= CompleteCount(posts)
      invariant |results| == i
      invariant forall k :: 0 <= k < i ==> results[k] == ToResult(posts[k])
      decreases |posts| - i
    {
      var post := posts[i];
      if !Complete(post) {
        failed := true;
        break;
      }
      results := results + [ToResult(post)];
      i := i + 1;
    }
  }

  /** `search_query` with the key file's content (None when it cannot be
      opened) and the API as a function from request url to reply. */
  method SearchQuery(keyFile: Option<string>, terms: seq<byte>, api: string -> Reply) returns (r: Result<seq<SearchResult>>)
    ensures ReadKey(keyFile).Err? ==> r == Err(ReadKey(keyFile).failure)
    ensures ReadKey(keyFile).Ok? ==> r == Ok(ResultsOf(api(SearchUrl(ReadKey(keyFile).value, terms))))
  {
    var key :- ReadKey(keyFile);
    var url := SearchUrl(key, terms);
    var results: seq<SearchResult> := [];
    var reply := api(url);
    if reply.Decoded? && reply.posts.Some? {
      var failed;
      results, failed := MapPosts(reply.posts.value);
    }
    r := Ok(results);
  }
}
