/** How the browser client and the Flask routes fit together: what the
    client sends (ai_petition/src/lib/feedbackApi.ts) is what the backend's
    validators and builders (backend/app.py) read. The JSON encoding of the
    bodies and the parsing of the query string are stated here as functions. */
module ClientServer {
  import opened Options
  import opened Strings
  import opened PyValue
  import opened Auth
  import opened FeedbackApi
  import opened RequestValidation
  import opened FeedbackRoutes

  /** Every category the client can name is one the backend accepts, and
      every accepted word is a category the client can name. */
  lemma CategoriesAgree(c: Category, word: string)
    ensures CategoryName(c) in ValidCategories
    ensures word in ValidCategories ==> ParseCategory(word).Some? && CategoryName(ParseCategory(word).value) == word
  {
  }

  /** The JSON object `submitFeedback` posts, as Flask decodes it. */
  function FormJson(d: FeedbackFormData): (data: map<string, Value>)
    ensures data.Keys == {"message", "rating", "category"}
  {
    map["message" := Str(d.message), "rating" := Num(d.rating as real), "category" := Str(CategoryName(d.category))]
  }

  /** A submitted form passes `create_feedback`'s validation exactly when its
      rating is between 1 and 5. */
  lemma SubmittedFormAccepted(d: FeedbackFormData)
    ensures CreateFeedbackVerdict(FormJson(d)) == Proceed <==> 1 <= d.rating <= 5
    ensures !(1 <= d.rating <= 5) ==> CreateFeedbackVerdict(FormJson(d)) == Reject(400, RatingOutOfRange)
  {
    var data := FormJson(d);
    CreateFeedbackProceedIff(data);
    CreateFeedbackRatingFirst(data);
    CategoriesAgree(d.category, "");
  }

  /** The JSON object `updateFeedback` sends: `JSON.stringify` leaves out the
      fields that are undefined. */
  function PartialJson(p: PartialFormData): (data: map<string, Value>)
    ensures "message" in data <==> p.message.Some?
    ensures "rating" in data <==> p.rating.Some?
    ensures "category" in data <==> p.category.Some?
    ensures p.message.Some? ==> data["message"] == Str(p.message.value)
    ensures p.rating.Some? ==> data["rating"] == Num(p.rating.value as real)
    ensures p.category.Some? ==> data["category"] == Str(CategoryName(p.category.value))
  {
    var m: map<string, Value> := if p.message.Some? then map["message" := Str(p.message.value)] else map[];
    var r := if p.rating.Some? then m["rating" := Num(p.rating.value as real)] else m;
    if p.category.Some? then r["category" := Str(CategoryName(p.category.value))] else r
  }

  /** The fields a partial update carries, in the order message, rating, category. */
  function SentFields(p: PartialFormData): seq<string>
  {
    (if p.message.Some? then ["message"] else []) +
    (if p.rating.Some? then ["rating"] else []) +
    (if p.category.Some? then ["category"] else [])
  }

  /** The updatable keys a body carries, one by one. */
  lemma PresentUpdatable(data: map<string, Value>)
    ensures PresentKeys(UpdatableFields, data) ==
      (if "message" in data then ["message"] else []) +
      (if "rating" in data then ["rating"] else []) +
      (if "category" in data then ["category"] else [])
  {
    var m := if "message" in data then ["message"] else [];
    var r := if "rating" in data then ["rating"] else [];
    var c := if "category" in data then ["category"] else [];
    assert UpdatableFields[1..] == ["rating", "category"];
    assert UpdatableFields[1..][1..] == ["category"];
    assert UpdatableFields[1..][1..][1..] == [];
    assert PresentKeys(["category"], data) == c;
    assert PresentKeys(["rating", "category"], data) == r + c;
    assert m + (r + c) == m + r + c;
  }

  /** The backend refuses a client's partial update only for a rating outside
      1..5. */
  lemma PartialUpdateRefusal(p: PartialFormData)
    ensures PendingUpdates(PartialJson(p)).Refused? <==> p.rating.Some? && !(1 <= p.rating.value <= 5)
  {
    var data := PartialJson(p);
    PendingUpdatesSpec(data);
    if p.category.Some? {
      CategoriesAgree(p.category.value, "");
    }
  }

  /** Otherwise it updates exactly the fields the client sent, in order. */
  lemma PartialUpdateKeys(p: PartialFormData)
    requires PendingUpdates(PartialJson(p)).Updates?
    ensures Keys(PendingUpdates(PartialJson(p)).pairs) == SentFields(p)
  {
    var data := PartialJson(p);
    PendingUpdatesSpec(data);
    PresentUpdatable(data);
  }

  /** Every value of a client's partial update is a string or a number, so
      the database driver binds it: the 500 for an unbindable value never
      arises from this client. */
  lemma PartialUpdateBindable(p: PartialFormData)
    requires PendingUpdates(PartialJson(p)).Updates?
    ensures AllBindable(PendingUpdates(PartialJson(p)).pairs)
  {
    var data := PartialJson(p);
    assert forall k :: k in data ==> Bindable(data[k]);
  }

  /** `request.args` for a query string, as a map; Flask's `get` answers the
      first value of a repeated key. */
  function ArgsOf(params: seq<(string, string)>): map<string, string>
  {
    if params == [] then map[] else ArgsOf(params[1..])[params[0].0 := params[0].1]
  }

  /** `request.args.get(key)`. */
  function Arg(args: map<string, string>, key: string): (v: Option<string>)
    ensures v.Some? <==> key in args
    ensures v.Some? ==> v.value == args[key]
  {
    if key in args then Some(args[key]) else None
  }

  /** The decimal numeral of an integer is never empty. */
  lemma NumeralNonEmpty(n: int)
    ensures IntToString(n) != ""
  {
    ParseIntToString(n);
  }

  /** What `get_feedback` reads back from the client's filter URL: the
      category exactly as the client sent it, or nothing, and the same for
      the rating's numeral. */
  lemma ClientArgs(category: Option<string>, rating: Option<int>)
    ensures var args := ArgsOf(FeedbackParams(category, rating));
      Arg(args, "category") == (if SendsCategory(category) then category else None) &&
      Arg(args, "rating") == (if SendsRating(rating) then Some(IntToString(rating.value)) else None)
  {
    var ps := FeedbackParams(category, rating);
    assert "category" != "rating";
    if SendsCategory(category) && SendsRating(rating) {
      assert ps == [("category", category.value), ("rating", IntToString(rating.value))];
      assert ps[1..] == [("rating", IntToString(rating.value))];
      assert ps[1..][1..] == [];
    } else if SendsCategory(category) {
      assert ps == [("category", category.value)];
      assert ps[1..] == [];
    } else if SendsRating(rating) {
      assert ps == [("rating", IntToString(rating.value))];
      assert ps[1..] == [];
    } else {
      assert ps == [];
    }
  }

  /** A filter the client adds is a filter the server applies, and no other:
      the category filter, bound to the same name, exactly when the client
      sent a category, and the rating filter, bound to the same integer,
      exactly when it sent a rating. The server never fails on the client's
      numeral. */
  lemma ServerAppliesClientFilters(user: CurrentUser, category: Option<string>, rating: Option<int>)
    ensures var args := ArgsOf(FeedbackParams(category, rating));
      var f := FeedbackFilters(user, Arg(args, "category"), Arg(args, "rating"));
      f.Some? &&
      ("category = ?" in f.value.clauses <==> SendsCategory(category)) &&
      ("rating = ?" in f.value.clauses <==> SendsRating(rating)) &&
      (SendsRating(rating) ==> Num(rating.value as real) in f.value.params)
    ensures var args := ArgsOf(FeedbackParams(category, rating));
      var f := FeedbackFilters(user, Arg(args, "category"), Arg(args, "rating"));
      f.Some? &&
      (SendsCategory(category) ==> Binds(f.value, "category = ?", Str(category.value))) &&
      (SendsRating(rating) ==> Binds(f.value, "rating = ?", Num(rating.value as real)))
  {
    ClientArgs(category, rating);
    var args := ArgsOf(FeedbackParams(category, rating));
    var c, r := Arg(args, "category"), Arg(args, "rating");
    FilterInclusion(user, c, r);
    if SendsRating(rating) {
      NumeralNonEmpty(rating.value);
      ParseIntToString(rating.value);
    }
  }

  // ---------------------------------------------------------------------------
  // Which route a client call reaches
  // ---------------------------------------------------------------------------

  /** The client's paths are relative to the api base; the Flask routes sit
      under `/api`. */
  const ApiPrefix := "/api"

  /** The feedback routes of backend/app.py, by the function Flask calls. */
  datatype Route =
    | CreateFeedbackRoute
    | ListFeedbackRoute
    | StatisticsRoute
    | FeedbackByIdRoute(id: string)
    | UpdateFeedbackRoute(id: string)
    | DeleteFeedbackRoute(id: string)
    | NoFeedbackRoute

  /** The path of a URL: the text before its query string. */
  function PathOf(url: string): string
  {
    Split(url, "?")[0]
  }

  /** Flask's choice among the feedback rules (app.py:834, 913, 986, 1045,
      1092, 1194), on the path below `/api/feedback`: the static paths
      first, then `<feedback_id>`, which matches one non-empty segment
      without '/'. A path or verb no rule takes gets 404 or 405. */
  function Within(verb: Verb, tail: string): Route
  {
    if tail == "" then
      (if verb == POST then CreateFeedbackRoute else if verb == GET then ListFeedbackRoute else NoFeedbackRoute)
    else if tail == "/statistics" && verb == GET then StatisticsRoute
    else if tail[0] == '/' && tail[1..] != "" && '/' !in tail[1..] then
      match verb
      case GET => FeedbackByIdRoute(tail[1..])
      case PUT => UpdateFeedbackRoute(tail[1..])
      case DELETE => DeleteFeedbackRoute(tail[1..])
      case POST => NoFeedbackRoute
    else NoFeedbackRoute
  }

  /** The feedback route a path reaches, if any. */
  function Dispatch(verb: Verb, path: string): Route
  {
    var collection := ApiPrefix + CollectionPath;
    if StartsWith(path, collection) then Within(verb, path[|collection|..]) else NoFeedbackRoute
  }

  /** The route a client request reaches. */
  function Serve(r: Request): Route
  {
    Dispatch(r.verb, ApiPrefix + PathOf(r.url))
  }

  /** A request for the collection path followed by a '?'-free tail is
      dispatched on that tail. */
  lemma ServeBelowCollection(verb: Verb, tail: string, body: Body)
    requires '?' !in tail
    ensures Serve(Request(verb, CollectionPath + tail, body)) == Within(verb, tail)
  {
    CollectionPathNoMark();
    var url := CollectionPath + tail;
    assert '?' !in url by {
      assert forall k :: 0 <= k < |url| ==> url[k] == if k < |CollectionPath| then CollectionPath[k] else tail[k - |CollectionPath|];
    }
    SplitWithout(url, "?");
    var path := ApiPrefix + url;
    var collection := ApiPrefix + CollectionPath;
    assert path == collection + tail;
    assert path[..|collection|] == collection;
    assert path[|collection|..] == tail;
  }

  /** `submitFeedback` reaches `create_feedback` with the form as its body,
      which passes that route's validation exactly when the rating is
      between 1 and 5. */
  lemma SubmitReachesCreate(d: FeedbackFormData)
    ensures Serve(SubmitFeedback(d)) == CreateFeedbackRoute
    ensures SubmitFeedback(d).verb == POST && SubmitFeedback(d).body == FormBody(d)
    ensures CreateFeedbackVerdict(FormJson(SubmitFeedback(d).body.form)) == Proceed <==> 1 <= d.rating <= 5
  {
    ServeBelowCollection(POST, "", FormBody(d));
    assert CollectionPath + "" == CollectionPath;
    SubmittedFormAccepted(d);
  }

  /** `getFeedbackStatistics` reaches the statistics route, not
      `get_feedback_by_id` with the id "statistics". */
  lemma StatisticsReachesRoute()
    ensures Serve(GetFeedbackStatistics()) == StatisticsRoute
  {
    assert "/statistics" == ['/', 's', 't', 'a', 't', 'i', 's', 't', 'i', 'c', 's'];
    ServeBelowCollection(GET, "/statistics", NoBody);
  }

  /** `getFeedback` reaches `get_feedback` whatever filters it carries. */
  lemma ListReachesRoute(category: Option<string>, rating: Option<int>)
    ensures Serve(Request(GET, FeedbackUrl(category, rating), NoBody)) == ListFeedbackRoute
  {
    CollectionPathNoMark();
    var query := Serialize(FeedbackParams(category, rating));
    var url := FeedbackUrl(category, rating);
    if query != "" {
      assert url == CollectionPath + ("?" + query);
      SplitHeadOf(CollectionPath, "?" + query, '?');
    } else {
      SplitWithout(url, "?");
    }
    assert PathOf(url) == CollectionPath;
    ServeBelowCollection(GET, "", NoBody);
    assert CollectionPath + "" == CollectionPath;
  }

  /** The per-item calls reach the per-item routes with the same id, for an
      id that is one path segment; `getFeedbackById("statistics")` reaches
      the statistics route instead. */
  lemma ItemCallsReachRoutes(id: string, p: PartialFormData)
    ensures id != "" && '/' !in id && '?' !in id ==>
      Serve(FeedbackApi.UpdateFeedback(id, p)) == UpdateFeedbackRoute(id) &&
      Serve(FeedbackApi.DeleteFeedback(id)) == DeleteFeedbackRoute(id) &&
      (id != "statistics" ==> Serve(FeedbackApi.GetFeedbackById(id)) == FeedbackByIdRoute(id))
    ensures Serve(FeedbackApi.GetFeedbackById("statistics")) == StatisticsRoute
  {
    assert "/statistics" == ['/', 's', 't', 'a', 't', 'i', 's', 't', 'i', 'c', 's'];
    assert ItemPath("statistics") == CollectionPath + "/statistics";
    ServeBelowCollection(GET, "/statistics", NoBody);
    if id != "" && '/' !in id && '?' !in id {
      var tail := "/" + id;
      assert ItemPath(id) == CollectionPath + tail;
      assert '?' !in tail;
      assert tail[1..] == id;
      ServeBelowCollection(GET, tail, NoBody);
      ServeBelowCollection(PUT, tail, PartialBody(p));
      ServeBelowCollection(DELETE, tail, NoBody);
    }
  }
}
