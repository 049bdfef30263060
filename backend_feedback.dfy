/** The feedback routes of the Flask backend (backend/app.py:834-1230), all
    wrapped by the second `token_required`: the query `get_feedback` builds,
    the owner-or-privileged permission rule of the per-id routes, and the
    update set and UPDATE statement of `update_feedback`. The `feedback`
    table is modelled as a map from id to row. */
module FeedbackRoutes {
  import opened Options
  import opened Strings
  import opened PyValue
  import opened Auth
  import opened RequestValidation

  /** Roles that may see and change every feedback entry. */
  const PrivilegedRoles: seq<string> := ["admin", "manager"]

  /** A row of the `feedback` table. Message, rating, category and
      `updated_at` hold the JSON value the client sent, which is one the
      database driver can bind (see `Bindable`). */
  datatype FeedbackRow = FeedbackRow(
    id: string, userId: string, userName: string,
    message: Value, rating: Value, category: Value,
    createdAt: string, updatedAt: Value)

  type FeedbackTable = map<string, FeedbackRow>

  /** `SELECT * FROM feedback WHERE id = ?` followed by `fetchone()`. */
  function FindRow(table: FeedbackTable, feedbackId: string): Option<FeedbackRow>
  {
    if feedbackId in table then Some(table[feedbackId]) else None
  }

  // ---------------------------------------------------------------------------
  // Permission rule of get_feedback_by_id, update_feedback, delete_feedback
  // ---------------------------------------------------------------------------

  /** The reply a per-id route gives before acting: 404 for a missing row,
      then 403 unless the user is privileged or the row's owner. */
  function AccessVerdict(user: CurrentUser, stored: Option<FeedbackRow>): (v: Verdict)
    ensures v == Proceed <==>
      stored.Some? && (user.role in PrivilegedRoles || user.id == stored.value.userId)
    ensures stored.None? ==> v == Reject(404, "Feedback not found")
    ensures stored.Some? && v != Proceed ==> v == Reject(403, "Permission denied")
  {
    if stored.None? then Reject(404, "Feedback not found")
    else if user.role !in PrivilegedRoles && user.id != stored.value.userId then Reject(403, "Permission denied")
    else Proceed
  }

  /** A route's reply: an error with its status, or a success body. */
  datatype Reply<T> = Failure(status: int, error: string) | Success(body: T)

  /** The `feedback` object `get_feedback_by_id` replies with (app.py:1071-1081):
      the row's columns under their camel-case names, without `updated_at`. */
  datatype FeedbackView = FeedbackView(
    id: string, userId: string, userName: string,
    message: Value, rating: Value, category: Value, createdAt: string)

  function View(row: FeedbackRow): (v: FeedbackView)
    ensures v.id == row.id && v.userId == row.userId && v.userName == row.userName
    ensures v.message == row.message && v.rating == row.rating && v.category == row.category
    ensures v.createdAt == row.createdAt
  {
    FeedbackView(row.id, row.userId, row.userName, row.message, row.rating, row.category, row.createdAt)
  }

  /** The reply shows every column but `updated_at`: two rows that differ
      only there look the same, and rows that differ elsewhere do not. */
  lemma ViewOmitsUpdatedAt(row: FeedbackRow, other: FeedbackRow)
    ensures View(row) == View(other) <==> row.(updatedAt := other.updatedAt) == other
  {
  }

  /** `get_feedback_by_id` (app.py:1047-1081). */
  function GetFeedbackById(user: CurrentUser, feedbackId: string, table: FeedbackTable): (r: Reply<FeedbackView>)
    ensures r.Success? <==>
      feedbackId in table && (user.role in PrivilegedRoles || user.id == table[feedbackId].userId)
    ensures r.Success? ==> r.body == View(table[feedbackId])
    ensures feedbackId !in table ==> r == Failure(404, "Feedback not found")
    ensures feedbackId in table && user.role !in PrivilegedRoles && user.id != table[feedbackId].userId ==>
      r == Failure(403, "Permission denied")
  {
    var verdict := AccessVerdict(user, FindRow(table, feedbackId));
    if verdict == Proceed then Success(View(table[feedbackId]))
    else Failure(verdict.status, verdict.error)
  }

  const Deleted := "Feedback deleted successfully"

  /** `delete_feedback` (app.py:1195-1220) with the table after the call. */
  function DeleteFeedback(user: CurrentUser, feedbackId: string, table: FeedbackTable): (r: (Reply<string>, FeedbackTable))
    ensures r.0.Success? <==>
      feedbackId in table && (user.role in PrivilegedRoles || user.id == table[feedbackId].userId)
    ensures r.0.Success? ==> r.0.body == Deleted && r.1 == map k | k in table && k != feedbackId :: table[k]
    ensures r.0.Failure? ==> r.1 == table
    ensures feedbackId !in table ==> r.0 == Failure(404, "Feedback not found")
    ensures feedbackId in table && user.role !in PrivilegedRoles && user.id != table[feedbackId].userId ==>
      r.0 == Failure(403, "Permission denied")
  {
    var verdict := AccessVerdict(user, FindRow(table, feedbackId));
    if verdict == Proceed then (Success(Deleted), table - {feedbackId})
    else (Failure(verdict.status, verdict.error), table)
  }

  // ---------------------------------------------------------------------------
  // get_feedback: WHERE clauses and parameters
  // ---------------------------------------------------------------------------

  /** The `where_clauses` and `params` lists, in step. */
  datatype Filters = Filters(clauses: seq<string>, params: seq<Value>) {
    function Then(other: Filters): Filters {
      Filters(clauses + other.clauses, params + other.params)
    }
  }

  const NoFilters := Filters([], [])
  const SelectAll := "SELECT * FROM feedback"
  const OrderByNewest := " ORDER BY created_at DESC"

  /** `if category and category != 'all'`. */
  predicate FiltersCategory(category: Option<string>) {
    category.Some? && category.value != "" && category.value != "all"
  }

  /** `if rating:`. */
  predicate FiltersRating(rating: Option<string>) {
    rating.Some? && rating.value != ""
  }

  /** The `category = ?` step (app.py:927-929). */
  function CategoryFilter(category: Option<string>): Filters
  {
    if FiltersCategory(category) then Filters(["category = ?"], [Str(category.value)]) else NoFilters
  }

  /** The `rating = ?` step (app.py:931-933); None where `int(rating)` raises. */
  function RatingFilter(rating: Option<string>): Option<Filters>
  {
    if !FiltersRating(rating) then Some(NoFilters)
    else match ParseDecimal(rating.value)
      case None => None
      case Some(n) => Some(Filters(["rating = ?"], [Num(n as real)]))
  }

  /** The `user_id = ?` step for roles other than admin and manager (app.py:938-939). */
  function OwnerFilter(user: CurrentUser): Filters
  {
    if user.role !in PrivilegedRoles then Filters(["user_id = ?"], [Str(user.id)]) else NoFilters
  }

  /** The filters `get_feedback` collects (app.py:919-939); None where
      `int(rating)` raises and the route replies 500. */
  function FeedbackFilters(user: CurrentUser, category: Option<string>, rating: Option<string>): Option<Filters>
  {
    match RatingFilter(rating)
    case None => None
    case Some(byRating) => Some(CategoryFilter(category).Then(byRating).Then(OwnerFilter(user)))
  }

  /** The statement text for the given WHERE clauses (app.py:941-946). */
  function SelectSql(clauses: seq<string>): string
  {
    SelectAll + (if clauses == [] then "" else " WHERE " + Join(clauses, " AND ")) + OrderByNewest
  }

  /** A statement and its bound parameters; `int(rating)` is bound as a number. */
  datatype Query = Query(sql: string, params: seq<Value>)

  /** The statement and parameters `get_feedback` executes. */
  function FeedbackQuery(user: CurrentUser, category: Option<string>, rating: Option<string>): Option<Query>
  {
    match FeedbackFilters(user, category, rating)
    case None => None
    case Some(f) => Some(Query(SelectSql(f.clauses), f.params))
  }

  /** `get_feedback`'s query building, appending to the two lists step by step. */
  method BuildFeedbackQuery(user: CurrentUser, category: Option<string>, rating: Option<string>)
    returns (q: Option<Query>)
    ensures q == FeedbackQuery(user, category, rating)
  {
    var params: seq<Value> := [];
    var whereClauses: seq<string> := [];
    if category.Some? && category.value != "" && category.value != "all" {
      whereClauses := whereClauses + ["category = ?"];
      params := params + [Str(category.value)];
    }
    ghost var filters := CategoryFilter(category);
    assert Filters(whereClauses, params) == filters;
    if rating.Some? && rating.value != "" {
      var n := ParseDecimal(rating.value);
      if n.None? {
        return None;
      }
      whereClauses := whereClauses + ["rating = ?"];
      params := params + [Num(n.value as real)];
    }
    filters := filters.Then(RatingFilter(rating).value);
    assert Filters(whereClauses, params) == filters;
    if user.role !in PrivilegedRoles {
      whereClauses := whereClauses + ["user_id = ?"];
      params := params + [Str(user.id)];
    }
    filters := filters.Then(OwnerFilter(user));
    assert Filters(whereClauses, params) == filters;
    var query := SelectAll;
    if whereClauses != [] {
      query := query + " WHERE " + Join(whereClauses, " AND ");
    }
    query := query + OrderByNewest;
    SelectSqlSteps(whereClauses);
    return Some(Query(query, params));
  }

  /** The statement text built by appending to `query` is `SelectSql`. */
  lemma SelectSqlSteps(clauses: seq<string>)
    ensures (if clauses != [] then SelectAll + " WHERE " + Join(clauses, " AND ") else SelectAll) + OrderByNewest ==
      SelectSql(clauses)
  {
    if clauses == [] {
      assert SelectAll + "" == SelectAll;
    }
  }

  /** Every clause holds exactly one `?` and the lists stay in step. */
  predicate WellFormed(f: Filters) {
    |f.clauses| == |f.params| && forall i :: 0 <= i < |f.clauses| ==> CountChar(f.clauses[i], '?') == 1
  }

  /** `column = ?` holds exactly one placeholder. */
  lemma ClausePlaceholder(column: string)
    requires '?' !in column
    ensures CountChar(column + " = ?", '?') == 1
  {
    var eq := " = ";
    assert '?' !in eq;
    assert column + " = ?" == (column + eq) + "?";
    CountCharAppend(column + eq, "?", '?');
    CountCharAbsent(column + eq, '?');
    assert "?"[1..] == "";
  }

  /** The fixed text around the clauses holds no placeholder. */
  lemma FixedTextHasNoPlaceholder()
    ensures CountChar(SelectAll, '?') == 0 && CountChar(OrderByNewest, '?') == 0
    ensures CountChar(" WHERE ", '?') == 0 && '?' !in " AND "
  {
    SelectAllNoMark();
    OrderNoMark();
    WhereNoMark();
    AndNoMark();
  }

  lemma AndNoMark() ensures '?' !in " AND " {
    var and := " AND ";
    assert and[0] != '?' && and[1] != '?' && and[2] != '?' && and[3] != '?' && and[4] != '?';
  }

  lemma SelectAllNoMark() ensures CountChar(SelectAll, '?') == 0 {
    assert '?' !in SelectAll;
    CountCharAbsent(SelectAll, '?');
  }
  lemma OrderNoMark() ensures CountChar(OrderByNewest, '?') == 0 {
    assert '?' !in OrderByNewest;
    CountCharAbsent(OrderByNewest, '?');
  }
  lemma WhereNoMark() ensures CountChar(" WHERE ", '?') == 0 {
    assert '?' !in " WHERE ";
    CountCharAbsent(" WHERE ", '?');
  }

  lemma ThenWellFormed(f: Filters, g: Filters)
    requires WellFormed(f) && WellFormed(g)
    ensures WellFormed(f.Then(g))
  {
    var h := f.Then(g);
    forall i | 0 <= i < |h.clauses| ensures CountChar(h.clauses[i], '?') == 1 {
      if i >= |f.clauses| { assert h.clauses[i] == g.clauses[i - |f.clauses|]; }
    }
  }

  lemma FiltersWellFormed(user: CurrentUser, category: Option<string>, rating: Option<string>)
    requires FeedbackFilters(user, category, rating).Some?
    ensures WellFormed(FeedbackFilters(user, category, rating).value)
  {
    CategoryFilterWellFormed(category);
    RatingFilterWellFormed(rating);
    OwnerFilterWellFormed(user);
    ThenWellFormed(CategoryFilter(category), RatingFilter(rating).value);
    ThenWellFormed(CategoryFilter(category).Then(RatingFilter(rating).value), OwnerFilter(user));
  }

  /** A one-column filter is well formed. */
  lemma ColumnFilterWellFormed(column: string, v: Value)
    requires '?' !in column
    ensures WellFormed(Filters([column + " = ?"], [v]))
  {
    ClausePlaceholder(column);
  }

  lemma CategoryFilterWellFormed(category: Option<string>)
    ensures WellFormed(CategoryFilter(category))
  {
    if FiltersCategory(category) {
      var column := "category";
      assert '?' !in column;
      assert "category = ?" == column + " = ?";
      ColumnFilterWellFormed(column, Str(category.value));
    }
  }

  lemma RatingFilterWellFormed(rating: Option<string>)
    requires RatingFilter(rating).Some?
    ensures WellFormed(RatingFilter(rating).value)
  {
    if FiltersRating(rating) {
      var n := ParseDecimal(rating.value).value;
      var column := "rating";
      assert '?' !in column;
      assert "rating = ?" == column + " = ?";
      ColumnFilterWellFormed(column, Num(n as real));
    }
  }

  lemma OwnerFilterWellFormed(user: CurrentUser)
    ensures WellFormed(OwnerFilter(user))
  {
    if user.role !in PrivilegedRoles {
      var column := "user_id";
      assert '?' !in column;
      assert "user_id = ?" == column + " = ?";
      ColumnFilterWellFormed(column, Str(user.id));
    }
  }

  /** The fixed parts of the statement hold no `?`, so its placeholders are
      those of the clauses. */
  lemma SelectSqlPlaceholders(clauses: seq<string>)
    requires forall i :: 0 <= i < |clauses| ==> CountChar(clauses[i], '?') == 1
    ensures CountChar(SelectSql(clauses), '?') == |clauses|
  {
    FixedTextHasNoPlaceholder();
    var middle := if clauses == [] then "" else " WHERE " + Join(clauses, " AND ");
    assert SelectSql(clauses) == SelectAll + middle + OrderByNewest;
    CountCharAppend(SelectAll + middle, OrderByNewest, '?');
    CountCharAppend(SelectAll, middle, '?');
    if clauses != [] {
      CountCharJoin(clauses, " AND ", '?');
      CountCharAppend(" WHERE ", Join(clauses, " AND "), '?');
    }
  }

  /** The statement has exactly as many `?` placeholders as parameters. */
  lemma PlaceholdersMatchParams(user: CurrentUser, category: Option<string>, rating: Option<string>)
    requires FeedbackQuery(user, category, rating).Some?
    ensures var q := FeedbackQuery(user, category, rating).value;
      CountChar(q.sql, '?') == |q.params|
  {
    FiltersWellFormed(user, category, rating);
    SelectSqlPlaceholders(FeedbackFilters(user, category, rating).value.clauses);
  }

  /** The statement reads the table, ends by ordering newest first, and has a
      WHERE part exactly when there are clauses. */
  lemma SelectSqlShape(clauses: seq<string>)
    ensures StartsWith(SelectSql(clauses), SelectAll)
    ensures EndsWith(SelectSql(clauses), OrderByNewest)
    ensures StartsWith(SelectSql(clauses), SelectAll + " WHERE ") <==> clauses != []
  {
    var sql := SelectSql(clauses);
    var n := |SelectAll|;
    if clauses == [] {
      assert sql == SelectAll + OrderByNewest;
      assert sql[n + 1] == 'O';
      assert (SelectAll + " WHERE ")[n + 1] == 'W';
    } else {
      assert sql == (SelectAll + " WHERE ") + Join(clauses, " AND ") + OrderByNewest;
    }
  }

  /** A WHERE part appears exactly when some filter applies. */
  lemma QueryShape(user: CurrentUser, category: Option<string>, rating: Option<string>)
    requires FeedbackQuery(user, category, rating).Some?
    ensures var q := FeedbackQuery(user, category, rating).value;
      StartsWith(q.sql, SelectAll) && EndsWith(q.sql, OrderByNewest) &&
      (StartsWith(q.sql, SelectAll + " WHERE ") <==>
        FiltersCategory(category) || FiltersRating(rating) || user.role !in PrivilegedRoles)
  {
    SelectSqlShape(FeedbackFilters(user, category, rating).value.clauses);
  }

  /** Which filters appear, with which parameters: a category filter exactly
      for a set category other than "all"; a rating filter exactly for a set
      rating, bound to its integer value; an owner filter bound to the
      user's id exactly for a role other than admin and manager. The route
      fails only for a set rating that is not an integer numeral. */
  lemma FilterInclusion(user: CurrentUser, category: Option<string>, rating: Option<string>)
    ensures FeedbackFilters(user, category, rating).None? <==>
      FiltersRating(rating) && ParseDecimal(rating.value).None?
    ensures FeedbackFilters(user, category, rating).Some? ==>
      var f := FeedbackFilters(user, category, rating).value;
      ("category = ?" in f.clauses <==> FiltersCategory(category)) &&
      ("rating = ?" in f.clauses <==> FiltersRating(rating)) &&
      ("user_id = ?" in f.clauses <==> user.role !in PrivilegedRoles) &&
      (FiltersCategory(category) ==> f.params[0] == Str(category.value)) &&
      (FiltersRating(rating) ==> Num(ParseDecimal(rating.value).value as real) in f.params) &&
      (user.role !in PrivilegedRoles ==> f.params[|f.params| - 1] == Str(user.id))
    ensures FeedbackFilters(user, category, rating).Some? ==>
      var f := FeedbackFilters(user, category, rating).value;
      |f.params| == |f.clauses| &&
      (forall i :: 0 <= i < |f.clauses| ==> f.clauses[i] in FilterClauses) &&
      (FiltersCategory(category) ==> Binds(f, "category = ?", Str(category.value))) &&
      (FiltersRating(rating) ==> Binds(f, "rating = ?", Num(ParseDecimal(rating.value).value as real))) &&
      (user.role !in PrivilegedRoles ==> Binds(f, "user_id = ?", Str(user.id)))
  {
    FilterPresence(user, category, rating);
    if FeedbackFilters(user, category, rating).Some? {
      FilterBindings(user, category, rating);
    }
  }

  /** Which clauses appear, and where the category and owner values sit. */
  lemma FilterPresence(user: CurrentUser, category: Option<string>, rating: Option<string>)
    ensures FeedbackFilters(user, category, rating).None? <==>
      FiltersRating(rating) && ParseDecimal(rating.value).None?
    ensures FeedbackFilters(user, category, rating).Some? ==>
      var f := FeedbackFilters(user, category, rating).value;
      ("category = ?" in f.clauses <==> FiltersCategory(category)) &&
      ("rating = ?" in f.clauses <==> FiltersRating(rating)) &&
      ("user_id = ?" in f.clauses <==> user.role !in PrivilegedRoles) &&
      (FiltersCategory(category) ==> f.params[0] == Str(category.value)) &&
      (FiltersRating(rating) ==> Num(ParseDecimal(rating.value).value as real) in f.params) &&
      (user.role !in PrivilegedRoles ==> f.params[|f.params| - 1] == Str(user.id))
  {
    assert "category = ?"[0] == 'c' && "rating = ?"[0] == 'r' && "user_id = ?"[0] == 'u';
  }

  /** The three clauses `get_feedback` can add. */
  const FilterClauses: seq<string> := ["category = ?", "rating = ?", "user_id = ?"]

  /** Every occurrence of `clause` has `v` as its parameter: the `?` of that
      clause is bound to `v`. */
  predicate Binds(f: Filters, clause: string, v: Value) {
    forall i :: 0 <= i < |f.clauses| && f.clauses[i] == clause ==> i < |f.params| && f.params[i] == v
  }

  /** A binding survives putting two in-step filter lists together. */
  lemma ThenBinds(f: Filters, g: Filters, clause: string, v: Value)
    requires |f.clauses| == |f.params| && Binds(f, clause, v) && Binds(g, clause, v)
    ensures Binds(f.Then(g), clause, v)
  {
    var h := f.Then(g);
    forall i | 0 <= i < |h.clauses| && h.clauses[i] == clause
      ensures i < |h.params| && h.params[i] == v
    {
      if i >= |f.clauses| {
        assert h.clauses[i] == g.clauses[i - |f.clauses|];
      }
    }
  }

  /** The parameter of each clause is its own value. */
  lemma FilterBindings(user: CurrentUser, category: Option<string>, rating: Option<string>)
    requires FeedbackFilters(user, category, rating).Some?
    ensures var f := FeedbackFilters(user, category, rating).value;
      |f.params| == |f.clauses| &&
      (forall i :: 0 <= i < |f.clauses| ==> f.clauses[i] in FilterClauses) &&
      (FiltersCategory(category) ==> Binds(f, "category = ?", Str(category.value))) &&
      (FiltersRating(rating) ==> Binds(f, "rating = ?", Num(ParseDecimal(rating.value).value as real))) &&
      (user.role !in PrivilegedRoles ==> Binds(f, "user_id = ?", Str(user.id)))
  {
    var a, b, c := CategoryFilter(category), RatingFilter(rating).value, OwnerFilter(user);
    var ab := a.Then(b);
    var f := ab.Then(c);
    assert "category = ?" != "rating = ?" && "category = ?" != "user_id = ?" && "rating = ?" != "user_id = ?" by {
      assert "category = ?"[0] == 'c' && "rating = ?"[0] == 'r' && "user_id = ?"[0] == 'u';
    }
    assert forall i :: 0 <= i < |f.clauses| ==> f.clauses[i] in FilterClauses by {
      forall i | 0 <= i < |f.clauses| ensures f.clauses[i] in FilterClauses {
        if i < |ab.clauses| {
          if i >= |a.clauses| { assert f.clauses[i] == b.clauses[i - |a.clauses|]; }
        } else {
          assert f.clauses[i] == c.clauses[i - |ab.clauses|];
        }
      }
    }
    if FiltersCategory(category) {
      var v := Str(category.value);
      ThenBinds(a, b, "category = ?", v);
      ThenBinds(ab, c, "category = ?", v);
    }
    if FiltersRating(rating) {
      var v := Num(ParseDecimal(rating.value).value as real);
      ThenBinds(a, b, "rating = ?", v);
      ThenBinds(ab, c, "rating = ?", v);
    }
    if user.role !in PrivilegedRoles {
      var v := Str(user.id);
      ThenBinds(a, b, "user_id = ?", v);
      ThenBinds(ab, c, "user_id = ?", v);
    }
  }

  /** A privileged user with no filters gets the whole table, newest first. */
  lemma UnfilteredQuery(user: CurrentUser)
    requires user.role in PrivilegedRoles
    ensures FeedbackQuery(user, None, None) == Some(Query(SelectAll + OrderByNewest, []))
  {
    assert SelectSql([]) == SelectAll + OrderByNewest;
  }

  // ---------------------------------------------------------------------------
  // update_feedback
  // ---------------------------------------------------------------------------

  /** The keys a client may change, in the order the route examines them. */
  const UpdatableFields: seq<string> := ["message", "rating", "category"]

  const UpdateFailed := "Failed to update feedback"

  /** `if key in data: updates[key] = data[key]`, on insertion-ordered pairs. */
  function AddIfPresent(pairs: seq<(string, Value)>, key: string, data: map<string, Value>): seq<(string, Value)>
  {
    if key in data then pairs + [(key, data[key])] else pairs
  }

  /** The `updates` dictionary, or the 400/500 reply that ends the route
      before any write. */
  datatype Pending = Refused(status: int, error: string) | Updates(pairs: seq<(string, Value)>)

  /** The updates the route collects from the body (app.py:1121-1146); a
      rating that cannot be compared raises inside the `try`, giving 500. */
  function PendingUpdates(data: map<string, Value>): Pending
  {
    if "rating" in data && InRange(data["rating"], 1, 5) == Raises then Refused(500, UpdateFailed)
    else if "rating" in data && InRange(data["rating"], 1, 5) == Fails then Refused(400, RatingOutOfRange)
    else if "category" in data && !IsValidCategory(data["category"]) then Refused(400, InvalidCategory)
    else Updates(AddIfPresent(AddIfPresent(AddIfPresent([], "message", data), "rating", data), "category", data))
  }

  /** The keys of `fields` that the body carries, in order: the reference the
      update set is checked against. */
  function PresentKeys(fields: seq<string>, data: map<string, Value>): (keys: seq<string>)
    ensures forall k :: k in keys <==> k in fields && k in data
  {
    if fields == [] then []
    else (if fields[0] in data then [fields[0]] else []) + PresentKeys(fields[1..], data)
  }

  function Keys(pairs: seq<(string, Value)>): (keys: seq<string>)
    ensures |keys| == |pairs|
    ensures forall i :: 0 <= i < |pairs| ==> keys[i] == pairs[i].0
  {
    if pairs == [] then [] else [pairs[0].0] + Keys(pairs[1..])
  }

  function Values(pairs: seq<(string, Value)>): (values: seq<Value>)
    ensures |values| == |pairs|
    ensures forall i :: 0 <= i < |pairs| ==> values[i] == pairs[i].1
  {
    if pairs == [] then [] else [pairs[0].1] + Values(pairs[1..])
  }

  /** Each step of collecting the updates adds the key when the body has it. */
  lemma AddIfPresentSpec(pairs: seq<(string, Value)>, key: string, data: map<string, Value>)
    requires forall i :: 0 <= i < |pairs| ==> pairs[i].0 in data && pairs[i].1 == data[pairs[i].0]
    ensures var added := AddIfPresent(pairs, key, data);
      Keys(added) == Keys(pairs) + (if key in data then [key] else []) &&
      forall i :: 0 <= i < |added| ==> added[i].0 in data && added[i].1 == data[added[i].0]
  {
  }

  /** The update set holds exactly the present keys among message, rating and
      category, in that order, each with the body's value; it is refused
      exactly when a present rating is outside 1..5 or not a number, or a
      present category is not one of the five words, and the rating is
      checked first. */
  lemma PendingUpdatesSpec(data: map<string, Value>)
    ensures PendingUpdates(data).Updates? ==>
      var pairs := PendingUpdates(data).pairs;
      Keys(pairs) == PresentKeys(UpdatableFields, data) &&
      forall i :: 0 <= i < |pairs| ==> pairs[i].0 in data && pairs[i].1 == data[pairs[i].0]
    ensures PendingUpdates(data).Refused? <==>
      ("rating" in data && InRange(data["rating"], 1, 5) != Holds) ||
      ("category" in data && !IsValidCategory(data["category"]))
    ensures "rating" in data && InRange(data["rating"], 1, 5) == Raises ==>
      PendingUpdates(data) == Refused(500, UpdateFailed)
    ensures "rating" in data && InRange(data["rating"], 1, 5) == Fails ==>
      PendingUpdates(data) == Refused(400, RatingOutOfRange)
    ensures (("rating" !in data || InRange(data["rating"], 1, 5) == Holds) &&
             "category" in data && !IsValidCategory(data["category"])) ==>
      PendingUpdates(data) == Refused(400, InvalidCategory)
  {
    CollectedUpdates(data);
  }

  /** The three collection steps, taken together. */
  lemma CollectedUpdates(data: map<string, Value>)
    ensures var pairs := AddIfPresent(AddIfPresent(AddIfPresent([], "message", data), "rating", data), "category", data);
      Keys(pairs) == PresentKeys(UpdatableFields, data) &&
      forall i :: 0 <= i < |pairs| ==> pairs[i].0 in data && pairs[i].1 == data[pairs[i].0]
  {
    var p1 := AddIfPresent([], "message", data);
    var p2 := AddIfPresent(p1, "rating", data);
    AddIfPresentSpec([], "message", data);
    AddIfPresentSpec(p1, "rating", data);
    AddIfPresentSpec(p2, "category", data);
    UpdatableKeysPresent(data);
  }

  /** The present updatable keys, written out. */
  lemma UpdatableKeysPresent(data: map<string, Value>)
    ensures PresentKeys(UpdatableFields, data) ==
      (if "message" in data then ["message"] else []) +
      (if "rating" in data then ["rating"] else []) +
      (if "category" in data then ["category"] else [])
  {
    var m := if "message" in data then ["message"] else [];
    var r := if "rating" in data then ["rating"] else [];
    var c := if "category" in data then ["category"] else [];
    assert UpdatableFields[1..] == ["rating", "category"];
    assert UpdatableFields[1..][1..] == ["category"];
    assert UpdatableFields[1..][1..][1..] == [];
    assert PresentKeys(["category"], data) == c;
    assert PresentKeys(["rating", "category"], data) == r + c;
    assert PresentKeys(UpdatableFields, data) == m + (r + c);
  }

  /** The update set is empty exactly when the body has none of the three keys. */
  lemma NoChangesIff(data: map<string, Value>)
    requires PendingUpdates(data).Updates?
    ensures PendingUpdates(data).pairs == [] <==>
      "message" !in data && "rating" !in data && "category" !in data
  {
  }

  /** One assignment of an UPDATE to a row. */
  function Assign(row: FeedbackRow, key: string, v: Value): FeedbackRow
  {
    if key == "message" then row.(message := v)
    else if key == "rating" then row.(rating := v)
    else if key == "category" then row.(category := v)
    else if key == "updated_at" then row.(updatedAt := v)
    else row
  }

  /** The row after an UPDATE assigning `pairs` left to right. */
  function ApplyAssignments(row: FeedbackRow, pairs: seq<(string, Value)>): FeedbackRow
    decreases |pairs|
  {
    if pairs == [] then row
    else Assign(ApplyAssignments(row, pairs[..|pairs| - 1]), pairs[|pairs| - 1].0, pairs[|pairs| - 1].1)
  }

  lemma ApplyAppend(row: FeedbackRow, pairs: seq<(string, Value)>, key: string, v: Value)
    ensures ApplyAssignments(row, pairs + [(key, v)]) == Assign(ApplyAssignments(row, pairs), key, v)
  {
    assert (pairs + [(key, v)])[..|pairs|] == pairs;
  }

  /** The `f"{key} = ?"` list for the update keys. */
  function Assignments(pairs: seq<(string, Value)>): (r: seq<string>)
    ensures |r| == |pairs|
    ensures forall i :: 0 <= i < |pairs| ==> r[i] == pairs[i].0 + " = ?"
  {
    if pairs == [] then [] else [pairs[0].0 + " = ?"] + Assignments(pairs[1..])
  }

  const UpdateHead := "UPDATE feedback SET "
  const WhereId := " WHERE id = ?"

  /** The UPDATE statement and its parameters: `"UPDATE feedback SET "` and the
      assignments joined by ", " and `" WHERE id = ?"`, bound to the values in
      key order and then the id (app.py:1155-1161). */
  function UpdateSql(pairs: seq<(string, Value)>, feedbackId: string): Query
  {
    Query(UpdateHead + Join(Assignments(pairs), ", ") + WhereId, Values(pairs) + [Str(feedbackId)])
  }

  /** What `update_feedback` replies: an error, "No changes made", or the
      executed statement together with the re-read row. */
  datatype UpdateOutcome = UpdateRefused(status: int, error: string) | NoChanges | Updated(statement: Query, row: FeedbackRow)

  /** A value the sqlite3 driver binds to a `?`: None, a boolean, a number or
      a string. A list or an object makes `cursor.execute` raise, which the
      route's `except` turns into a 500 before anything is committed. */
  predicate Bindable(v: Value) {
    !v.Arr? && !v.Obj?
  }

  /** Every value of an update set can be bound. */
  predicate AllBindable(pairs: seq<(string, Value)>) {
    forall i :: 0 <= i < |pairs| ==> Bindable(pairs[i].1)
  }

  /** `update_feedback` (app.py:1094-1192) with the table after the call;
      `now` is `datetime.now().isoformat()`. A missing row gives 404, then a
      user who is neither privileged nor the owner 403; then the refusals of
      the update set; "No changes made" exactly for an empty set; a value the
      driver cannot bind gives 500; otherwise the row is updated. Only an
      update changes the table. */
  function UpdateFeedbackSpec(user: CurrentUser, feedbackId: string, table: FeedbackTable,
                              data: map<string, Value>, now: string): (r: (UpdateOutcome, FeedbackTable))
    ensures !r.0.Updated? ==> r.1 == table
    ensures var v := AccessVerdict(user, FindRow(table, feedbackId));
      v != Proceed ==> r.0 == UpdateRefused(v.status, v.error)
    ensures !r.0.UpdateRefused? ==>
      feedbackId in table && (user.role in PrivilegedRoles || user.id == table[feedbackId].userId)
    ensures var v := AccessVerdict(user, FindRow(table, feedbackId));
      v == Proceed && PendingUpdates(data).Refused? ==>
        r.0 == UpdateRefused(PendingUpdates(data).status, PendingUpdates(data).error)
    ensures r.0 == NoChanges <==>
      AccessVerdict(user, FindRow(table, feedbackId)) == Proceed && PendingUpdates(data) == Updates([])
    ensures r.0.Updated? <==>
      AccessVerdict(user, FindRow(table, feedbackId)) == Proceed && PendingUpdates(data).Updates? &&
      PendingUpdates(data).pairs != [] && AllBindable(PendingUpdates(data).pairs)
    ensures (AccessVerdict(user, FindRow(table, feedbackId)) == Proceed && PendingUpdates(data).Updates? &&
             !AllBindable(PendingUpdates(data).pairs)) ==> r.0 == UpdateRefused(500, UpdateFailed)
  {
    var verdict := AccessVerdict(user, FindRow(table, feedbackId));
    if verdict != Proceed then (UpdateRefused(verdict.status, verdict.error), table)
    else
      match PendingUpdates(data)
      case Refused(status, error) => (UpdateRefused(status, error), table)
      case Updates(pairs) =>
        if pairs == [] then (NoChanges, table)
        else if !AllBindable(pairs) then (UpdateRefused(500, UpdateFailed), table)
        else
          var stamped: seq<(string, Value)> := pairs + [("updated_at", Str(now))];
          var row := ApplyAssignments(table[feedbackId], stamped);
          (Updated(UpdateSql(stamped, feedbackId), row), table[feedbackId := row])
  }

  /** `update_feedback`, building `updates` step by step and returning early. */
  method UpdateFeedback(user: CurrentUser, feedbackId: string, table: FeedbackTable,
                        data: map<string, Value>, now: string)
    returns (outcome: UpdateOutcome, after: FeedbackTable)
    ensures (outcome, after) == UpdateFeedbackSpec(user, feedbackId, table, data, now)
  {
    after := table;
    var verdict := AccessVerdict(user, FindRow(table, feedbackId));
    if verdict != Proceed {
      return UpdateRefused(verdict.status, verdict.error), table;
    }
    var updates: seq<(string, Value)> := [];
    if "message" in data {
      updates := updates + [("message", data["message"])];
    }
    if "rating" in data {
      var inRange := InRange(data["rating"], 1, 5);
      if inRange == Raises {
        return UpdateRefused(500, UpdateFailed), table;
      }
      if inRange == Fails {
        return UpdateRefused(400, RatingOutOfRange), table;
      }
      updates := updates + [("rating", data["rating"])];
    }
    if "category" in data {
      if !IsValidCategory(data["category"]) {
        return UpdateRefused(400, InvalidCategory), table;
      }
      updates := updates + [("category", data["category"])];
    }
    if updates == [] {
      return NoChanges, table;
    }
    if exists i :: 0 <= i < |updates| && !Bindable(updates[i].1) {
      return UpdateRefused(500, UpdateFailed), table;
    }
    updates := updates + [("updated_at", Str(now))];
    var statement := UpdateSql(updates, feedbackId);
    var row := ApplyAssignments(table[feedbackId], updates);
    outcome := Updated(statement, row);
    after := table[feedbackId := row];
  }

  /** An update changes exactly the fields the body carries plus `updated_at`,
      leaves id, owner, author name and creation time alone, and changes no
      other row. */
  lemma UpdatedRowSpec(user: CurrentUser, feedbackId: string, table: FeedbackTable,
                       data: map<string, Value>, now: string)
    requires UpdateFeedbackSpec(user, feedbackId, table, data, now).0.Updated?
    ensures feedbackId in table
    ensures var r := UpdateFeedbackSpec(user, feedbackId, table, data, now);
      var prior := table[feedbackId];
      var updated := r.0.row;
      r.1 == table[feedbackId := updated] &&
      updated.id == prior.id && updated.userId == prior.userId &&
      updated.userName == prior.userName && updated.createdAt == prior.createdAt &&
      updated.message == (if "message" in data then data["message"] else prior.message) &&
      updated.rating == (if "rating" in data then data["rating"] else prior.rating) &&
      updated.category == (if "category" in data then data["category"] else prior.category) &&
      updated.updatedAt == Str(now)
  {
    var verdict := AccessVerdict(user, FindRow(table, feedbackId));
    assert verdict == Proceed;
    var pairs := PendingUpdates(data).pairs;
    assert pairs == AddIfPresent(AddIfPresent(AddIfPresent([], "message", data), "rating", data), "category", data);
    var stamped := pairs + [("updated_at", Str(now))];
    var row := ApplyAssignments(table[feedbackId], stamped);
    assert UpdateFeedbackSpec(user, feedbackId, table, data, now) ==
      (Updated(UpdateSql(stamped, feedbackId), row), table[feedbackId := row]);
    StampedRow(table[feedbackId], data, now);
  }

  /** The row after the collected updates and the timestamp are assigned. */
  lemma StampedRow(row: FeedbackRow, data: map<string, Value>, now: string)
    ensures var pairs := AddIfPresent(AddIfPresent(AddIfPresent([], "message", data), "rating", data), "category", data);
      var updated := ApplyAssignments(row, pairs + [("updated_at", Str(now))]);
      updated.id == row.id && updated.userId == row.userId &&
      updated.userName == row.userName && updated.createdAt == row.createdAt &&
      updated.message == (if "message" in data then data["message"] else row.message) &&
      updated.rating == (if "rating" in data then data["rating"] else row.rating) &&
      updated.category == (if "category" in data then data["category"] else row.category) &&
      updated.updatedAt == Str(now)
  {
    var p1 := AddIfPresent([], "message", data);
    var p2 := AddIfPresent(p1, "rating", data);
    var p3 := AddIfPresent(p2, "category", data);
    if "message" in data { ApplyAppend(row, [], "message", data["message"]); }
    if "rating" in data { ApplyAppend(row, p1, "rating", data["rating"]); }
    if "category" in data { ApplyAppend(row, p2, "category", data["category"]); }
    ApplyAppend(row, p3, "updated_at", Str(now));
  }

  lemma UpdateTextPlaceholders()
    ensures CountChar(UpdateHead, '?') == 0 && CountChar(WhereId, '?') == 1 && '?' !in ", "
  {
    UpdateHeadNoMark();
    WhereIdOneMark();
    CommaNoMark();
  }

  lemma UpdateHeadNoMark() ensures CountChar(UpdateHead, '?') == 0 {
    assert '?' !in UpdateHead;
    CountCharAbsent(UpdateHead, '?');
  }

  lemma WhereIdOneMark() ensures CountChar(WhereId, '?') == 1 {
    var column := " WHERE id";
    assert '?' !in column;
    assert WhereId == column + " = ?";
    ClausePlaceholder(column);
  }

  lemma CommaNoMark() ensures '?' !in ", " {
    var sep := ", ";
    assert sep[0] != '?' && sep[1] != '?';
  }

  /** For placeholder-free keys the UPDATE statement has one placeholder per
      parameter: one per assignment and one for the id. */
  lemma UpdateSqlSpec(pairs: seq<(string, Value)>, feedbackId: string)
    requires forall i :: 0 <= i < |pairs| ==> '?' !in pairs[i].0
    ensures var q := UpdateSql(pairs, feedbackId);
      StartsWith(q.sql, UpdateHead) && EndsWith(q.sql, WhereId) &&
      CountChar(q.sql, '?') == |q.params|
  {
    var body := Join(Assignments(pairs), ", ");
    UpdateBodyPlaceholders(pairs);
    Framed(UpdateHead, body, WhereId);
    UpdateTextPlaceholders();
    CountCharAppend(UpdateHead + body, WhereId, '?');
    CountCharAppend(UpdateHead, body, '?');
  }

  /** A text framed by a head and a tail starts with the one and ends with the other. */
  lemma Framed(head: string, body: string, tail: string)
    ensures StartsWith(head + body + tail, head) && EndsWith(head + body + tail, tail)
  {
    var t := head + body + tail;
    assert t[..|head|] == head;
    assert t[|t| - |tail|..] == tail;
  }

  /** The joined assignments hold one placeholder per key. */
  lemma UpdateBodyPlaceholders(pairs: seq<(string, Value)>)
    requires forall i :: 0 <= i < |pairs| ==> '?' !in pairs[i].0
    ensures CountChar(Join(Assignments(pairs), ", "), '?') == |pairs|
  {
    var assignments := Assignments(pairs);
    forall i | 0 <= i < |pairs|
      ensures CountChar(assignments[i], '?') == 1
    {
      ClausePlaceholder(pairs[i].0);
    }
    CommaNoMark();
    CountCharJoin(assignments, ", ", '?');
  }

  /** The UPDATE statement has one `key = ?` per update key with `updated_at`
      last, as many placeholders as parameters, and parameters that are the
      values in key order followed by the timestamp and the feedback id. */
  lemma UpdateStatementSpec(user: CurrentUser, feedbackId: string, table: FeedbackTable,
                            data: map<string, Value>, now: string)
    requires UpdateFeedbackSpec(user, feedbackId, table, data, now).0.Updated?
    ensures var q := UpdateFeedbackSpec(user, feedbackId, table, data, now).0.statement;
      var pairs := PendingUpdates(data).pairs;
      var stamped := pairs + [("updated_at", Str(now))];
      q.sql == UpdateHead + Join(Assignments(stamped), ", ") + WhereId &&
      Keys(stamped) == PresentKeys(UpdatableFields, data) + ["updated_at"] &&
      StartsWith(q.sql, UpdateHead) && EndsWith(q.sql, WhereId) &&
      CountChar(q.sql, '?') == |q.params| &&
      q.params == Values(pairs) + [Str(now), Str(feedbackId)]
  {
    var pairs := PendingUpdates(data).pairs;
    var stamped := pairs + [("updated_at", Str(now))];
    assert UpdateFeedbackSpec(user, feedbackId, table, data, now).0.statement == UpdateSql(stamped, feedbackId);
    PendingKeysHaveNoMark(data);
    StampedStatement(pairs, now, feedbackId);
    StampedKeys(data, now);
  }

  /** The SET clause assigns the body's updatable keys, in order, then `updated_at`. */
  lemma StampedKeys(data: map<string, Value>, now: string)
    requires PendingUpdates(data).Updates?
    ensures Keys(PendingUpdates(data).pairs + [("updated_at", Str(now))]) ==
      PresentKeys(UpdatableFields, data) + ["updated_at"]
  {
    var pairs := PendingUpdates(data).pairs;
    PendingUpdatesSpec(data);
    assert Keys(pairs + [("updated_at", Str(now))]) == Keys(pairs) + ["updated_at"];
  }

  /** The statement for placeholder-free keys followed by `updated_at`. */
  lemma StampedStatement(pairs: seq<(string, Value)>, now: string, feedbackId: string)
    requires forall i :: 0 <= i < |pairs| ==> '?' !in pairs[i].0
    ensures var q := UpdateSql(pairs + [("updated_at", Str(now))], feedbackId);
      StartsWith(q.sql, UpdateHead) && EndsWith(q.sql, WhereId) &&
      CountChar(q.sql, '?') == |q.params| &&
      q.params == Values(pairs) + [Str(now), Str(feedbackId)]
  {
    var stamped := pairs + [("updated_at", Str(now))];
    UpdatableKeysHaveNoMark("updated_at");
    assert forall i :: 0 <= i < |stamped| ==> '?' !in stamped[i].0 by {
      forall i | 0 <= i < |stamped| ensures '?' !in stamped[i].0 {
        if i < |pairs| { assert stamped[i] == pairs[i]; }
      }
    }
    UpdateSqlSpec(stamped, feedbackId);
    assert Values(stamped) == Values(pairs) + [Str(now)];
  }

  lemma PendingKeysHaveNoMark(data: map<string, Value>)
    requires PendingUpdates(data).Updates?
    ensures forall i :: 0 <= i < |PendingUpdates(data).pairs| ==> '?' !in PendingUpdates(data).pairs[i].0
  {
    PendingUpdatesSpec(data);
    var pairs := PendingUpdates(data).pairs;
    forall i | 0 <= i < |pairs| ensures '?' !in pairs[i].0 {
      assert Keys(pairs)[i] in PresentKeys(UpdatableFields, data);
      UpdatableKeysHaveNoMark(pairs[i].0);
    }
  }

  lemma UpdatableKeysHaveNoMark(key: string)
    requires key in UpdatableFields || key == "updated_at"
    ensures '?' !in key
  {
    if key == "message" {
      assert '?' !in "message";
    } else if key == "rating" {
      assert '?' !in "rating";
    } else if key == "category" {
      assert '?' !in "category";
    } else {
      assert '?' !in "updated_at";
    }
  }
}
