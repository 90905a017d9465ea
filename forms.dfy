/** The category and page forms: the length bounds of the text fields they
    validate, and `PageForm.clean`, which rewrites the url in the validated
    data in place. */
module Forms {
  import opened Outcome
  import opened Text
  import Models

  /** Why a text field was rejected. */
  datatype FieldError = Required | TooLong

  /** The outcome of validating one field. */
  datatype Validation = Valid(value: string) | Invalid(error: FieldError)

  /** A required `CharField(max_length=m)`: the submitted text, stripped of
      surrounding white space, must be non-empty and at most `m` long. */
  function CleanText(raw: string, maxLength: nat): (r: Validation)
    ensures r.Valid? <==> Strip(raw) != [] && |Strip(raw)| <= maxLength
    ensures r.Valid? ==> r.value == Strip(raw)
    ensures r.Invalid? ==> r.error == (if Strip(raw) == [] then Required else TooLong)
  {
    var value := Strip(raw);
    if value == [] then Invalid(Required)
    else if |value| > maxLength then Invalid(TooLong)
    else Valid(value)
  }

  /** `CategoryForm.name`, bounded by the model's `max_length`. */
  function CleanCategoryName(raw: string): (r: Validation)
    ensures r.Valid? ==> 1 <= |r.value| <= Models.NameMaxLength
  {
    CleanText(raw, Models.NameMaxLength)
  }

  /** `PageForm.title`, bounded by the model's `max_length`. */
  function CleanPageTitle(raw: string): (r: Validation)
    ensures r.Valid? ==> 1 <= |r.value| <= Models.TitleMaxLength
  {
    CleanText(raw, Models.TitleMaxLength)
  }

  /** A value in a form's validated data: the text fields hold strings, the
      hidden view counter an integer. */
  datatype FieldValue = Text(s: string) | Number(n: int)

  const HttpPrefix: string := "http://"

  /** `clean` rewrites the url exactly when the data holds a non-empty url
      that does not start with "http://". */
  predicate NeedsPrefix(data: map<string, FieldValue>) {
    && "url" in data
    && data["url"].Text?
    && data["url"].s != []
    && !StartsWith(data["url"].s, HttpPrefix)
  }

  /** The validated data after `PageForm.clean`: "http://" put in front of a
      url that lacks it, every other entry as it was. */
  function CleanedUrl(data: map<string, FieldValue>): (r: map<string, FieldValue>)
    ensures r.Keys == data.Keys
    ensures forall k :: k in data && k != "url" ==> r[k] == data[k]
    ensures NeedsPrefix(data) ==> r["url"] == Text(HttpPrefix + data["url"].s)
    ensures !NeedsPrefix(data) ==> r == data
  {
    if NeedsPrefix(data) then data["url" := Text(HttpPrefix + data["url"].s)] else data
  }

  /** After cleaning, every non-empty url starts with "http://". */
  lemma CleanedUrlPrefixed(data: map<string, FieldValue>)
    requires "url" in data && data["url"].Text? && data["url"].s != []
    ensures StartsWith(CleanedUrl(data)["url"].s, HttpPrefix)
  {
    if NeedsPrefix(data) {
      assert CleanedUrl(data)["url"].s[..|HttpPrefix|] == HttpPrefix;
    }
  }

  /** Cleaning data that is already clean changes nothing. */
  lemma CleanedUrlIdempotent(data: map<string, FieldValue>)
    ensures CleanedUrl(CleanedUrl(data)) == CleanedUrl(data)
  {
    if NeedsPrefix(data) {
      var u := HttpPrefix + data["url"].s;
      assert u[..|HttpPrefix|] == HttpPrefix;
      assert !NeedsPrefix(CleanedUrl(data));
    }
  }

  /** An "https://" url is not recognised as prefixed and gains a second
      scheme in front of it. */
  lemma CleanedUrlOfHttps(data: map<string, FieldValue>, rest: string)
    requires "url" in data && data["url"] == Text("https://" + rest)
    ensures CleanedUrl(data)["url"] == Text("http://https://" + rest)
  {
    var u := "https://" + rest;
    assert u[4] == 's' && HttpPrefix[4] == ':';
    assert !StartsWith(u, HttpPrefix);
    assert HttpPrefix + u == "http://https://" + rest;
  }

  /** `PageForm` after field validation, holding its validated data. */
  class PageForm {
    var cleanedData: map<string, FieldValue>

    constructor (cleanedData: map<string, FieldValue>)
      ensures this.cleanedData == cleanedData
    {
      this.cleanedData := cleanedData;
    }

    /** `clean()`: prefix the url in the validated data in place. The data
        are returned only when the url was rewritten; on every other path the
        method falls off its end and returns nothing. */
    method Clean() returns (r: Option<map<string, FieldValue>>)
      modifies this
      ensures cleanedData == CleanedUrl(old(cleanedData))
      ensures r.Some? <==> NeedsPrefix(old(cleanedData))
      ensures r.Some? ==> r.value == cleanedData
    {
      if "url" in cleanedData && cleanedData["url"].Text? {
        var url := cleanedData["url"].s;
        if url != [] && !StartsWith(url, HttpPrefix) {
          url := HttpPrefix + url;
          cleanedData := cleanedData["url" := Text(url)];
          return Some(cleanedData);
        }
      }
      r := None;
    }
  }
}
