/** The HTTP client of the feedback endpoints (ai_petition/src/lib/feedbackApi.ts).
    Paths are relative to the shared `api` instance's base URL, which is not
    part of this model. */
module FeedbackApi {
  import opened Options
  import opened Strings

  /** The category union type (lines 10 and 29). */
  datatype Category = Usability | Performance | Features | Design | OtherCategory

  /** The wire spelling of a category. */
  function CategoryName(c: Category): string
  {
    match c
    case Usability => "usability"
    case Performance => "performance"
    case Features => "features"
    case Design => "design"
    case OtherCategory => "other"
  }

  /** The category a string spells, if any. */
  function ParseCategory(s: string): Option<Category>
  {
    if s == "usability" then Some(Usability)
    else if s == "performance" then Some(Performance)
    else if s == "features" then Some(Features)
    else if s == "design" then Some(Design)
    else if s == "other" then Some(OtherCategory)
    else None
  }

  /** Every category reads back from its spelling, and only spellings parse. */
  lemma CategoryRoundTrip(c: Category, s: string)
    ensures ParseCategory(CategoryName(c)) == Some(c)
    ensures ParseCategory(s) == Some(c) ==> s == CategoryName(c)
  {
  }

  /** `Feedback` (lines 4-13). */
  datatype Feedback = Feedback(
    id: string, userId: string, userName: string, message: string,
    rating: int, category: Category, createdAt: string, updatedAt: Option<string>)

  /** `FeedbackFormData` (lines 26-30). */
  datatype FeedbackFormData = FeedbackFormData(message: string, rating: int, category: Category)

  /** `Partial<FeedbackFormData>`: each field may be left out. */
  datatype PartialFormData = PartialFormData(message: Option<string>, rating: Option<int>, category: Option<Category>)

  datatype Verb = GET | POST | PUT | DELETE

  /** A request: verb, path and query, and the JSON body kind it carries. */
  datatype Body = NoBody | FormBody(form: FeedbackFormData) | PartialBody(partial: PartialFormData)
  datatype Request = Request(verb: Verb, url: string, body: Body)

  const CollectionPath := "/feedback"

  // ---------------------------------------------------------------------------
  // getFeedback
  // ---------------------------------------------------------------------------

  /** `if (category && category !== 'all')` (line 52). */
  predicate SendsCategory(category: Option<string>) {
    category.Some? && category.value != "" && category.value != "all"
  }

  /** `if (rating)` (line 56): 0 is omitted. */
  predicate SendsRating(rating: Option<int>) {
    rating.Some? && rating.value != 0
  }

  /** The query parameters `getFeedback` appends, in order. */
  function FeedbackParams(category: Option<string>, rating: Option<int>): seq<(string, string)>
  {
    (if SendsCategory(category) then [("category", category.value)] else []) +
    (if SendsRating(rating) then [("rating", IntToString(rating.value))] else [])
  }

  /** `URLSearchParams.toString()` for values that need no escaping. */
  function Serialize(params: seq<(string, string)>): (s: string)
    ensures s == "" <==> params == []
  {
    if params == [] then ""
    else
      var pair := params[0].0 + "=" + params[0].1;
      assert pair[|params[0].0|] == '=';
      if |params| == 1 then pair else pair + "&" + Serialize(params[1..])
  }

  /** The URL `getFeedback` requests (lines 49-62). */
  function FeedbackUrl(category: Option<string>, rating: Option<int>): string
  {
    var query := Serialize(FeedbackParams(category, rating));
    if query != "" then CollectionPath + "?" + query else CollectionPath
  }

  /** `getFeedback(category, rating)`: builds the URL step by step. */
  method GetFeedback(category: Option<string>, rating: Option<int>) returns (request: Request)
    ensures request == Request(GET, FeedbackUrl(category, rating), NoBody)
  {
    var url := CollectionPath;
    var params: seq<(string, string)> := [];
    if category.Some? && category.value != "" && category.value != "all" {
      params := params + [("category", category.value)];
    }
    if rating.Some? && rating.value != 0 {
      params := params + [("rating", IntToString(rating.value))];
    }
    assert params == FeedbackParams(category, rating);
    var query := Serialize(params);
    if query != "" {
      url := url + "?" + query;
    }
    request := Request(GET, url, NoBody);
  }

  /** Which parameters are sent: category exactly when it is set, non-empty
      and not "all"; rating, as its decimal numeral, exactly when it is set
      and non-zero; category first. */
  lemma FeedbackParamsSpec(category: Option<string>, rating: Option<int>)
    ensures var ps := FeedbackParams(category, rating);
      |ps| <= 2 &&
      (("category", category.GetOr("")) in ps <==> SendsCategory(category)) &&
      ((exists v :: ("rating", v) in ps) <==> SendsRating(rating)) &&
      (SendsRating(rating) ==> ps[|ps| - 1] == ("rating", IntToString(rating.value))) &&
      (SendsCategory(category) ==> ps[0] == ("category", category.value))
  {
    var ps := FeedbackParams(category, rating);
    assert "category" != "rating";
    if SendsRating(rating) {
      assert ("rating", IntToString(rating.value)) in ps;
    }
  }

  lemma CollectionPathNoMark()
    ensures '?' !in CollectionPath
  {
    assert CollectionPath == ['/', 'f', 'e', 'e', 'd', 'b', 'a', 'c', 'k'];
  }

  /** A query string is added exactly when some parameter is sent; without
      one the URL is the bare collection path. */
  lemma FeedbackUrlShape(category: Option<string>, rating: Option<int>)
    ensures var url := FeedbackUrl(category, rating);
      ('?' in url <==> SendsCategory(category) || SendsRating(rating)) &&
      (!SendsCategory(category) && !SendsRating(rating) ==> url == CollectionPath) &&
      StartsWith(url, CollectionPath)
  {
    CollectionPathNoMark();
    var url := FeedbackUrl(category, rating);
    if SendsCategory(category) || SendsRating(rating) {
      assert url[|CollectionPath|] == '?';
    }
  }

  /** With only a category, the query is `category=<name>`. */
  lemma CategoryOnlyUrl(c: Category)
    ensures FeedbackUrl(Some(CategoryName(c)), None) == CollectionPath + "?category=" + CategoryName(c)
  {
    var name := CategoryName(c);
    assert name != "all" && name != "";
    assert FeedbackParams(Some(name), None) == [("category", name)];
  }

  // ---------------------------------------------------------------------------
  // The other endpoints
  // ---------------------------------------------------------------------------

  /** `/feedback/${id}` (lines 77, 83 and 89). */
  function ItemPath(id: string): (path: string)
    ensures StartsWith(path, CollectionPath + "/") && path[|CollectionPath| + 1..] == id
  {
    CollectionPath + "/" + id
  }

  /** `submitFeedback` (lines 40-41). */
  function SubmitFeedback(data: FeedbackFormData): (r: Request)
    ensures r.verb == POST && r.url == CollectionPath && r.body == FormBody(data)
  {
    Request(POST, CollectionPath, FormBody(data))
  }

  /** `getFeedbackStatistics` (lines 70-71). */
  function GetFeedbackStatistics(): (r: Request)
    ensures r.verb == GET && r.url == CollectionPath + "/statistics" && r.body == NoBody
  {
    Request(GET, CollectionPath + "/statistics", NoBody)
  }

  /** `getFeedbackById` (lines 76-77). */
  function GetFeedbackById(id: string): (r: Request)
    ensures r.verb == GET && r.url == ItemPath(id) && r.body == NoBody
  {
    Request(GET, ItemPath(id), NoBody)
  }

  /** `updateFeedback` (lines 82-83). */
  function UpdateFeedback(id: string, data: PartialFormData): (r: Request)
    ensures r.verb == PUT && r.url == ItemPath(id) && r.body == PartialBody(data)
  {
    Request(PUT, ItemPath(id), PartialBody(data))
  }

  /** `deleteFeedback` (lines 88-89). */
  function DeleteFeedback(id: string): (r: Request)
    ensures r.verb == DELETE && r.url == ItemPath(id) && r.body == NoBody
  {
    Request(DELETE, ItemPath(id), NoBody)
  }

  /** The three per-item calls target one path, and different ids different
      paths: the id is recovered from the path. */
  lemma ItemPathsAgree(id: string, other: string, data: PartialFormData)
    ensures GetFeedbackById(id).url == UpdateFeedback(id, data).url == DeleteFeedback(id).url
    ensures ItemPath(id) == ItemPath(other) ==> id == other
  {
  }
}
