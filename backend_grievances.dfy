/** Grievance handling in the Flask backend (backend/app.py) that works on
    request data alone: the filter and paging parameters of the listing
    routes, the permission rule of `update_grievance`, and the extraction of
    the suggested category and priority from the AI analysis text. These
    routes are wrapped by the first `token_required`, whose user is the
    database record. */
module GrievanceRoutes {
  import opened Options
  import opened Strings
  import opened RequestValidation

  // ---------------------------------------------------------------------------
  // filter_grievances
  // ---------------------------------------------------------------------------

  /** The query parameters `filter_grievances` passes on as filters. */
  const FilterParams: seq<string> := ["status", "category", "priority", "submitted_by", "assigned_to"]

  /** The filter loop (app.py:340-343): a parameter becomes a filter when the
      query string gives it a non-empty value. */
  method CollectFilters(args: map<string, string>) returns (filters: map<string, string>)
    ensures forall k :: k in filters <==> k in FilterParams && k in args && args[k] != ""
    ensures forall k :: k in filters ==> filters[k] == args[k]
  {
    filters := map[];
    var i := 0;
    while i < |FilterParams|
      invariant 0 <= i <= |FilterParams|
      invariant forall k :: k in filters <==> k in FilterParams[..i] && k in args && args[k] != ""
      invariant forall k :: k in filters ==> filters[k] == args[k]
    {
      var param := FilterParams[i];
      if param in args && args[param] != "" {
        filters := filters[param := args[param]];
      }
      assert FilterParams[..i + 1] == FilterParams[..i] + [param];
      i := i + 1;
    }
    assert FilterParams[..i] == FilterParams;
  }

  // ---------------------------------------------------------------------------
  // Paging parameters of get_grievances and filter_grievances
  // ---------------------------------------------------------------------------

  /** `int(request.args.get(name, default))`: the default when the parameter
      is absent, None where `int` raises (Flask then replies 500). */
  function IntParam(args: map<string, string>, name: string, default: int): Option<int>
  {
    if name in args then ParseDecimal(args[name]) else Some(default)
  }

  /** The `(limit, offset)` pair (app.py:330-331, 346-347). */
  function PageWindow(args: map<string, string>): (w: Option<(int, int)>)
    ensures w.Some? <==> IntParam(args, "limit", 50).Some? && IntParam(args, "offset", 0).Some?
    ensures w.Some? ==> w.value == (IntParam(args, "limit", 50).value, IntParam(args, "offset", 0).value)
  {
    match IntParam(args, "limit", 50)
    case None => None
    case Some(limit) =>
      match IntParam(args, "offset", 0)
      case None => None
      case Some(offset) => Some((limit, offset))
  }

  /** Without paging parameters the window is 50 rows from the start, and a
      numeral written for any integer is read back as that integer. */
  lemma PageWindowDefaults(args: map<string, string>, limit: int, offset: int)
    ensures "limit" !in args && "offset" !in args ==> PageWindow(args) == Some((50, 0))
    ensures PageWindow(map["limit" := IntToString(limit), "offset" := IntToString(offset)]) == Some((limit, offset))
  {
    ParseIntToString(limit);
    ParseIntToString(offset);
  }

  // ---------------------------------------------------------------------------
  // update_grievance permission
  // ---------------------------------------------------------------------------

  /** The fields of the database user record the rule reads; `role` is
      None when the record has no such key. */
  datatype StoredUser = StoredUser(id: string, role: Option<string>)

  const StaffRoles: seq<string> := ["admin", "manager", "staff"]

  /** The reply of `update_grievance` before it reads the body (app.py:388-396):
      404 for a missing grievance, then 403 unless the user submitted it or
      holds a staff role, compared after lower-casing. `submittedBy` is the
      grievance's `submitted_by`, None when there is no grievance. */
  function UpdateGrievanceAccess(user: StoredUser, submittedBy: Option<string>): (v: Verdict)
    ensures v == Proceed <==>
      submittedBy.Some? && (user.id == submittedBy.value || ToLower(user.role.GetOr("")) in StaffRoles)
    ensures submittedBy.None? ==> v == Reject(404, "Grievance not found")
    ensures submittedBy.Some? && v != Proceed ==> v == Reject(403, "Unauthorized to update this grievance")
  {
    if submittedBy.None? then Reject(404, "Grievance not found")
    else
      var role := ToLower(user.role.GetOr(""));
      if user.id != submittedBy.value && role !in StaffRoles then Reject(403, "Unauthorized to update this grievance")
      else Proceed
  }

  /** Roles are compared without regard to ASCII case: "Manager" may update
      any grievance, a user without a role only their own. */
  lemma RoleCaseIgnored(id: string, owner: string)
    ensures UpdateGrievanceAccess(StoredUser(id, Some("Manager")), Some(owner)) == Proceed
    ensures UpdateGrievanceAccess(StoredUser(id, None), Some(owner)) == Proceed <==> id == owner
  {
    var lowered := ToLower("Manager");
    assert lowered[0] == 'm' && lowered[1] == 'a' && lowered[2] == 'n' && lowered[3] == 'a';
    assert lowered[4] == 'g' && lowered[5] == 'e' && lowered[6] == 'r';
    assert lowered == "manager";
    assert ToLower("") == "";
  }

  // ---------------------------------------------------------------------------
  // Category and priority in the analysis text
  // ---------------------------------------------------------------------------

  /** The outcome of `next((line.split(': ')[1] for line in lines if
      line.startswith(prefix)), None)`: no such line, the piece after the
      first ": " of the first such line, or IndexError when that line has no
      ": ". */
  datatype Lookup = NotFound | Found(value: string) | Raised

  /** The second `": "`-separated piece of a line, if it has one. */
  function SecondPiece(line: string): Option<string>
  {
    var pieces := Split(line, ": ");
    if |pieces| >= 2 then Some(pieces[1]) else None
  }

  /** The generator with `next`: only the first line with the prefix is looked at. */
  function FirstWithPrefix(lines: seq<string>, prefix: string): (r: Lookup)
    ensures r == NotFound <==> forall i :: 0 <= i < |lines| ==> !StartsWith(lines[i], prefix)
  {
    if lines == [] then NotFound
    else if StartsWith(lines[0], prefix) then
      match SecondPiece(lines[0])
      case None => Raised
      case Some(v) => Found(v)
    else FirstWithPrefix(lines[1..], prefix)
  }

  /** The `category` and `priority` of the analysis reply (app.py:137-142): an
      exception in either lookup sets both to None. */
  function ParseAnalysis(text: string): (Option<string>, Option<string>)
  {
    var lines := Split(text, "\n");
    var category := FirstWithPrefix(lines, "Category:");
    var priority := FirstWithPrefix(lines, "Priority:");
    if category == Raised || priority == Raised then (None, None)
    else (if category.Found? then Some(category.value) else None,
          if priority.Found? then Some(priority.value) else None)
  }

  /** A line `prefix + " " + v`, with `prefix` ending in ':' and `v` free of
      ':', yields `v`. */
  lemma WellFormedLine(name: string, v: string)
    requires ':' !in name && ':' !in v
    ensures SecondPiece(name + ": " + v) == Some(v)
  {
    SplitAfterPiece(name, ": ", v);
    SplitWithout(v, ": ");
  }

  /** The first line with the prefix decides: the lines before it are skipped
      and the ones after it are never examined. */
  lemma {:induction false} FirstLineDecides(before: seq<string>, line: string, after: seq<string>, prefix: string)
    requires forall i :: 0 <= i < |before| ==> !StartsWith(before[i], prefix)
    requires StartsWith(line, prefix)
    ensures FirstWithPrefix(before + [line] + after, prefix) ==
      (if SecondPiece(line).Some? then Found(SecondPiece(line).value) else Raised)
    decreases |before|
  {
    var lines := before + [line] + after;
    if before == [] {
      assert lines[0] == line;
    } else {
      assert lines[0] == before[0];
      assert lines[1..] == before[1..] + [line] + after;
      FirstLineDecides(before[1..], line, after, prefix);
    }
  }

  /** The first line with the prefix, given by its position. */
  lemma FirstAt(lines: seq<string>, i: int, prefix: string)
    requires 0 <= i < |lines| && StartsWith(lines[i], prefix)
    requires forall j :: 0 <= j < i ==> !StartsWith(lines[j], prefix)
    ensures FirstWithPrefix(lines, prefix) ==
      (if SecondPiece(lines[i]).Some? then Found(SecondPiece(lines[i]).value) else Raised)
  {
    assert lines == lines[..i] + [lines[i]] + lines[i + 1..];
    FirstLineDecides(lines[..i], lines[i], lines[i + 1..], prefix);
  }

  /** When the first "Category:" line is `Category: c` and the first
      "Priority:" line is `Priority: p`, with `c` and `p` free of ':', the
      reply carries `c` and `p`. */
  lemma AnalysisFound(text: string, i: int, j: int, c: string, p: string)
    requires ':' !in c && ':' !in p
    requires var lines := Split(text, "\n");
      0 <= i < |lines| && 0 <= j < |lines| &&
      lines[i] == "Category: " + c && lines[j] == "Priority: " + p &&
      (forall k :: 0 <= k < i ==> !StartsWith(lines[k], "Category:")) &&
      (forall k :: 0 <= k < j ==> !StartsWith(lines[k], "Priority:"))
    ensures ParseAnalysis(text) == (Some(c), Some(p))
  {
    var lines := Split(text, "\n");
    assert "Category: " + c == "Category" + ": " + c;
    assert "Priority: " + p == "Priority" + ": " + p;
    assert ':' !in "Category" && ':' !in "Priority";
    WellFormedLine("Category", c);
    WellFormedLine("Priority", p);
    assert lines[i][..9] == "Category:";
    assert lines[j][..9] == "Priority:";
    FirstAt(lines, i, "Category:");
    FirstAt(lines, j, "Priority:");
  }

  /** A "Category:" line without ": " (such as "Category:Billing") raises,
      which discards a well-formed priority as well. */
  lemma MalformedCategoryDiscardsBoth(text: string, i: int)
    requires var lines := Split(text, "\n");
      0 <= i < |lines| && StartsWith(lines[i], "Category:") && SecondPiece(lines[i]).None? &&
      (forall j :: 0 <= j < i ==> !StartsWith(lines[j], "Category:"))
    ensures ParseAnalysis(text) == (None, None)
  {
    FirstAt(Split(text, "\n"), i, "Category:");
  }
}
