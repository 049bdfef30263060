/** Request-body validation of the Flask backend (backend/app.py): the
    required-field loops of `register`, `create_grievance` and
    `create_feedback`, and the rating and category checks shared by the
    feedback routes. A verdict stands for the reply a route sends before it
    touches the database. */
module RequestValidation {
  import opened Options
  import opened Strings
  import opened PyValue

  /** A route's reply before any database work: a JSON error with its status,
      an exception Flask turns into a bare 500, or the go-ahead. */
  datatype Verdict = Reject(status: int, error: string) | Uncaught | Proceed

  // ---------------------------------------------------------------------------
  // The `for field in required_fields` loop
  // ---------------------------------------------------------------------------

  /** The first field, scanning in order, that fails `passes`. */
  function FirstFailing(fields: seq<string>, passes: string -> bool): Option<string>
  {
    if fields == [] then None
    else if !passes(fields[0]) then Some(fields[0])
    else FirstFailing(fields[1..], passes)
  }

  /** `f` is reported exactly when some position holds `f`, `f` fails, and
      every field before that position passes. */
  lemma {:induction false} FirstFailingIff(fields: seq<string>, passes: string -> bool, f: string)
    ensures FirstFailing(fields, passes) == Some(f) <==>
      exists i :: 0 <= i < |fields| && fields[i] == f && !passes(f) &&
        forall j :: 0 <= j < i ==> passes(fields[j])
  {
    if fields != [] {
      FirstFailingIff(fields[1..], passes, f);
      if FirstFailing(fields, passes) == Some(f) {
        if passes(fields[0]) {
          var i :| 0 <= i < |fields[1..]| && fields[1..][i] == f && !passes(f) &&
            forall j :: 0 <= j < i ==> passes(fields[1..][j]);
          assert forall j :: 0 <= j < i + 1 ==> passes(fields[j]) by {
            forall j | 0 <= j < i + 1 ensures passes(fields[j]) {
              if j > 0 { assert fields[j] == fields[1..][j - 1]; }
            }
          }
          assert fields[i + 1] == f;
        } else {
          assert fields[0] == f;
        }
      }
      if exists i :: 0 <= i < |fields| && fields[i] == f && !passes(f) &&
           forall j :: 0 <= j < i ==> passes(fields[j]) {
        var i :| 0 <= i < |fields| && fields[i] == f && !passes(f) &&
          forall j :: 0 <= j < i ==> passes(fields[j]);
        if i > 0 {
          assert passes(fields[0]);
          assert fields[1..][i - 1] == f;
          assert forall j :: 0 <= j < i - 1 ==> passes(fields[1..][j]) by {
            forall j | 0 <= j < i - 1 ensures passes(fields[1..][j]) {
              assert fields[1..][j] == fields[j + 1];
            }
          }
        }
      }
    }
  }

  /** Nothing is reported exactly when every field passes. */
  lemma {:induction false} FirstFailingNoneIff(fields: seq<string>, passes: string -> bool)
    ensures FirstFailing(fields, passes).None? <==> forall i :: 0 <= i < |fields| ==> passes(fields[i])
  {
    if fields != [] {
      FirstFailingNoneIff(fields[1..], passes);
      assert forall i :: 0 < i < |fields| ==> fields[i] == fields[1..][i - 1];
    }
  }

  /** The required-field loop: returns at the first field that fails. */
  method FindFirstFailing(fields: seq<string>, passes: string -> bool) returns (failing: Option<string>)
    ensures failing == FirstFailing(fields, passes)
  {
    var i := 0;
    while i < |fields|
      invariant 0 <= i <= |fields|
      invariant FirstFailing(fields[i..], passes) == FirstFailing(fields, passes)
    {
      assert fields[i..][1..] == fields[i + 1..];
      if !passes(fields[i]) {
        return Some(fields[i]);
      }
      i := i + 1;
    }
    return None;
  }

  // ---------------------------------------------------------------------------
  // register
  // ---------------------------------------------------------------------------

  const RegisterFields: seq<string> := ["name", "email", "password", "role", "department"]

  /** `if not data.get(field)`. */
  predicate IsSupplied(data: map<string, Value>, field: string) {
    Truthy(Get(data, field))
  }

  const PasswordTooShort := "Password must be at least 8 characters long"

  /** The reply of `register` before `db.create_user` (app.py:223-230). */
  function RegisterVerdict(data: map<string, Value>): Verdict
  {
    match FirstFailing(RegisterFields, f => IsSupplied(data, f))
    case Some(f) => Reject(400, f + " is required")
    case None =>
      match Len(Get(data, "password"))
      case None => Uncaught
      case Some(n) => if n < 8 then Reject(400, PasswordTooShort) else Proceed
  }

  /** `register`'s validation, with its loop. */
  method Register(data: map<string, Value>) returns (verdict: Verdict)
    ensures verdict == RegisterVerdict(data)
  {
    var missing := FindFirstFailing(RegisterFields, f => IsSupplied(data, f));
    if missing.Some? {
      return Reject(400, missing.value + " is required");
    }
    var n := Len(Get(data, "password"));
    if n.None? {
      return Uncaught;
    }
    if n.value < 8 {
      return Reject(400, PasswordTooShort);
    }
    return Proceed;
  }

  /** The first field in the order name, email, password, role, department
      that is absent or falsy is the one reported. */
  lemma RegisterReportsFirstMissing(data: map<string, Value>, i: int)
    requires 0 <= i < |RegisterFields|
    requires !IsSupplied(data, RegisterFields[i])
    requires forall j :: 0 <= j < i ==> IsSupplied(data, RegisterFields[j])
    ensures RegisterVerdict(data) == Reject(400, RegisterFields[i] + " is required")
  {
    FirstFailingIff(RegisterFields, f => IsSupplied(data, f), RegisterFields[i]);
  }

  /** Registration goes ahead exactly when all five fields are supplied and the
      password is a string, list or object of length at least 8. */
  lemma RegisterProceedIff(data: map<string, Value>)
    ensures RegisterVerdict(data) == Proceed <==>
      (forall i :: 0 <= i < |RegisterFields| ==> IsSupplied(data, RegisterFields[i])) &&
      Len(Get(data, "password")).Some? && Len(Get(data, "password")).value >= 8
  {
    FirstFailingNoneIff(RegisterFields, f => IsSupplied(data, f));
  }

  /** With every field supplied, a password of fewer than 8 characters (or a
      list or object of fewer than 8 entries, which `len` also measures) is
      refused with the length message. */
  lemma ShortPasswordRefused(data: map<string, Value>)
    requires forall i :: 0 <= i < |RegisterFields| ==> IsSupplied(data, RegisterFields[i])
    ensures Len(Get(data, "password")).Some? && Len(Get(data, "password")).value < 8 ==>
      RegisterVerdict(data) == Reject(400, PasswordTooShort)
    ensures Len(Get(data, "password")).Some? && Len(Get(data, "password")).value >= 8 ==>
      RegisterVerdict(data) == Proceed
  {
    FirstFailingNoneIff(RegisterFields, f => IsSupplied(data, f));
  }

  // ---------------------------------------------------------------------------
  // create_grievance
  // ---------------------------------------------------------------------------

  const GrievanceFields: seq<string> := ["title", "description", "category", "priority"]

  /** The reply of `create_grievance` before the AI and database calls
      (app.py:295-298). */
  function CreateGrievanceVerdict(data: map<string, Value>): Verdict
  {
    match FirstFailing(GrievanceFields, f => IsSupplied(data, f))
    case Some(f) => Reject(400, f + " is required")
    case None => Proceed
  }

  /** `create_grievance`'s validation loop. */
  method CreateGrievance(data: map<string, Value>) returns (verdict: Verdict)
    ensures verdict == CreateGrievanceVerdict(data)
  {
    var missing := FindFirstFailing(GrievanceFields, f => IsSupplied(data, f));
    if missing.Some? {
      return Reject(400, missing.value + " is required");
    }
    return Proceed;
  }

  /** A grievance goes ahead exactly when all four fields are supplied, and
      otherwise the first unsupplied one is reported. */
  lemma CreateGrievanceIff(data: map<string, Value>, i: int)
    requires 0 <= i < |GrievanceFields|
    ensures CreateGrievanceVerdict(data) == Proceed <==>
      forall k :: 0 <= k < |GrievanceFields| ==> IsSupplied(data, GrievanceFields[k])
    ensures (!IsSupplied(data, GrievanceFields[i]) &&
             forall j :: 0 <= j < i ==> IsSupplied(data, GrievanceFields[j])) ==>
      CreateGrievanceVerdict(data) == Reject(400, GrievanceFields[i] + " is required")
  {
    FirstFailingNoneIff(GrievanceFields, f => IsSupplied(data, f));
    FirstFailingIff(GrievanceFields, f => IsSupplied(data, f), GrievanceFields[i]);
  }

  // ---------------------------------------------------------------------------
  // create_feedback and the checks update_feedback shares
  // ---------------------------------------------------------------------------

  const FeedbackFields: seq<string> := ["message", "rating", "category"]

  /** `valid_categories` of the feedback routes. */
  const ValidCategories: seq<string> := ["usability", "performance", "features", "design", "other"]

  const RatingOutOfRange := "Rating must be between 1 and 5"
  const InvalidCategory := "Invalid category. Must be one of: " + Join(ValidCategories, ", ")
  const CreateFailed := "Failed to create feedback"

  /** `data['category'] in valid_categories`: only a string equal to one of the
      five words; no other JSON value equals a Python str. */
  predicate IsValidCategory(v: Value) {
    v.Str? && v.s in ValidCategories
  }

  /** The reply of `create_feedback` before it inserts the row
      (app.py:838-863 and the handler at 903-909). */
  function CreateFeedbackVerdict(data: map<string, Value>): Verdict
  {
    match FirstFailing(FeedbackFields, f => f in data)
    case Some(f) => Reject(400, "Missing required field: " + f)
    case None =>
      match InRange(Get(data, "rating"), 1, 5)
      case Raises => Reject(500, CreateFailed)
      case Fails => Reject(400, RatingOutOfRange)
      case Holds =>
        if IsValidCategory(Get(data, "category")) then Proceed else Reject(400, InvalidCategory)
  }

  /** `create_feedback`'s validation, with its loop. */
  method CreateFeedback(data: map<string, Value>) returns (verdict: Verdict)
    ensures verdict == CreateFeedbackVerdict(data)
  {
    var missing := FindFirstFailing(FeedbackFields, f => f in data);
    if missing.Some? {
      return Reject(400, "Missing required field: " + missing.value);
    }
    FirstFailingNoneIff(FeedbackFields, f => f in data);
    assert FeedbackFields[1] == "rating" && FeedbackFields[2] == "category";
    var rating := InRange(data["rating"], 1, 5);
    if rating == Raises {
      return Reject(500, CreateFailed);
    }
    if rating == Fails {
      return Reject(400, RatingOutOfRange);
    }
    if !IsValidCategory(data["category"]) {
      return Reject(400, InvalidCategory);
    }
    return Proceed;
  }

  /** The first of message, rating, category that is not a key of the body is
      reported; presence is all that is asked, not truthiness. */
  lemma CreateFeedbackReportsFirstMissing(data: map<string, Value>, i: int)
    requires 0 <= i < |FeedbackFields|
    requires FeedbackFields[i] !in data
    requires forall j :: 0 <= j < i ==> FeedbackFields[j] in data
    ensures CreateFeedbackVerdict(data) == Reject(400, "Missing required field: " + FeedbackFields[i])
  {
    FirstFailingIff(FeedbackFields, f => f in data, FeedbackFields[i]);
  }

  /** Feedback goes ahead exactly when the three keys are present, the rating
      is a number or boolean between 1 and 5 inclusive, and the category is
      one of the five words. */
  lemma CreateFeedbackProceedIff(data: map<string, Value>)
    ensures CreateFeedbackVerdict(data) == Proceed <==>
      "message" in data && "rating" in data && "category" in data &&
      NumericValue(data["rating"]).Some? &&
      1.0 <= NumericValue(data["rating"]).value <= 5.0 &&
      IsValidCategory(data["category"])
  {
    FirstFailingNoneIff(FeedbackFields, f => f in data);
    assert FeedbackFields == ["message", "rating", "category"];
  }

  /** With every key present the rating is checked before the category: an
      out-of-range rating is reported whatever the category, and a rating
      that is not a number ends in the 500 reply. */
  lemma CreateFeedbackRatingFirst(data: map<string, Value>)
    requires "message" in data && "rating" in data && "category" in data
    ensures InRange(data["rating"], 1, 5) == Fails ==>
      CreateFeedbackVerdict(data) == Reject(400, RatingOutOfRange)
    ensures InRange(data["rating"], 1, 5) == Raises ==>
      CreateFeedbackVerdict(data) == Reject(500, CreateFailed)
    ensures InRange(data["rating"], 1, 5) == Holds && !IsValidCategory(data["category"]) ==>
      CreateFeedbackVerdict(data) == Reject(400, InvalidCategory)
  {
    FirstFailingNoneIff(FeedbackFields, f => f in data);
    assert FeedbackFields == ["message", "rating", "category"];
  }
}
