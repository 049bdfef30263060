/** The client for the hosted `feedback` table and the `get_feedback_stats`
    procedure (ai_petition/src/service/supabaseFeedbackService.ts). The store
    itself is a parameter: each call receives what the store answered. */
module SupabaseService {
  import opened Options
  import opened Cards

  /** What a store call yields: data, an `error` object, or a thrown exception. */
  datatype StoreResult<T> = Ok(data: T) | Err(message: string) | Thrown

  /** A row of the `feedback` table. The text columns are nullable; the
      timestamp is already parsed into an instant. */
  datatype StoredRow = StoredRow(
    id: string, user_name: string, rating: int,
    pros: Option<string>, cons: Option<string>, comment: Option<string>,
    created_at: Instant)

  /** `value || ""` for a nullable text column: null and "" both give "". */
  function TextOrEmpty(value: Option<string>): (s: string)
    ensures value.Some? ==> s == value.value
    ensures value.None? ==> s == ""
  {
    match value
    case None => ""
    case Some(t) => if t != "" then t else ""
  }

  /** `convertToFeedbackItem` (lines 6-14). */
  function ConvertToFeedbackItem(row: StoredRow): (item: FeedbackItem)
    ensures item.id == row.id && item.userName == row.user_name && item.rating == row.rating
    ensures item.createdAt == row.created_at
    ensures item.pros == TextOrEmpty(row.pros) && item.cons == TextOrEmpty(row.cons)
    ensures item.comment == TextOrEmpty(row.comment)
  {
    FeedbackItem(row.id, row.user_name, row.rating,
      TextOrEmpty(row.pros), TextOrEmpty(row.cons), TextOrEmpty(row.comment), row.created_at)
  }

  /** `rows.map(convertToFeedbackItem)`. */
  function ConvertAll(rows: seq<StoredRow>): (items: seq<FeedbackItem>)
    ensures |items| == |rows|
    ensures forall i :: 0 <= i < |rows| ==> items[i] == ConvertToFeedbackItem(rows[i])
  {
    if rows == [] then [] else [ConvertToFeedbackItem(rows[0])] + ConvertAll(rows[1..])
  }

  /** `getAllFeedback` (lines 17-34) for what the ordered select answered;
      `None` data is a null `data`. */
  function GetAllFeedback(answer: StoreResult<Option<seq<StoredRow>>>): (items: seq<FeedbackItem>)
    ensures !answer.Ok? ==> items == []
    ensures answer.Ok? && answer.data.None? ==> items == []
    ensures answer.Ok? && answer.data.Some? ==> items == ConvertAll(answer.data.value)
  {
    match answer
    case Ok(data) => ConvertAll(data.GetOr([]))
    case Err(_) => []
    case Thrown => []
  }

  /** The fields a caller passes to `addFeedback`: a `FeedbackItem` without
      `id` and `createdAt`. */
  datatype NewFeedback = NewFeedback(userName: string, rating: int, pros: string, cons: string, comment: string)

  /** The object inserted into the table: these five columns and no others. */
  datatype InsertRow = InsertRow(user_name: string, rating: int, pros: string, cons: string, comment: string)

  /** The insert object of `addFeedback` (lines 41-47). */
  function InsertPayload(f: NewFeedback): (r: InsertRow)
    ensures r.user_name == f.userName && r.rating == f.rating
    ensures r.pros == f.pros && r.cons == f.cons && r.comment == f.comment
  {
    InsertRow(f.userName, f.rating, f.pros, f.cons, f.comment)
  }

  /** The row the table stores for an insert, once it has given it an id and
      a creation time. */
  function StoredFromInsert(r: InsertRow, id: string, createdAt: Instant): StoredRow
  {
    StoredRow(id, r.user_name, r.rating, Some(r.pros), Some(r.cons), Some(r.comment), createdAt)
  }

  /** `addFeedback` (lines 37-60): `store` answers the insert-select-single
      call for the payload it is given. A store error or exception yields
      null; the function itself never throws. */
  function AddFeedback(f: NewFeedback, store: InsertRow -> StoreResult<StoredRow>): (r: Option<FeedbackItem>)
    ensures r.Some? <==> store(InsertPayload(f)).Ok?
    ensures r.Some? ==> r.value == ConvertToFeedbackItem(store(InsertPayload(f)).data)
  {
    match store(InsertPayload(f))
    case Ok(row) => Some(ConvertToFeedbackItem(row))
    case Err(_) => None
    case Thrown => None
  }

  /** Inserting and converting the stored row back gives the caller's fields,
      with the id and time the table chose. */
  lemma InsertRoundTrip(f: NewFeedback, id: string, createdAt: Instant)
    ensures ConvertToFeedbackItem(StoredFromInsert(InsertPayload(f), id, createdAt)) ==
      FeedbackItem(id, f.userName, f.rating, f.pros, f.cons, f.comment, createdAt)
  {
  }

  /** A store that keeps what it was sent returns the caller's record. */
  lemma AddFeedbackRoundTrip(f: NewFeedback, id: string, createdAt: Instant,
                             store: InsertRow -> StoreResult<StoredRow>)
    requires forall r :: store(r) == Ok(StoredFromInsert(r, id, createdAt))
    ensures AddFeedback(f, store) == Some(FeedbackItem(id, f.userName, f.rating, f.pros, f.cons, f.comment, createdAt))
  {
    InsertRoundTrip(f, id, createdAt);
  }

  /** `deleteFeedback` (lines 64-76): true exactly when the store reports no
      error. */
  function DeleteFeedback(answer: StoreResult<()>): (ok: bool)
    ensures ok <==> answer.Ok?
  {
    match answer
    case Ok(_) => true
    case Err(_) => false
    case Thrown => false
  }

  /** The statistics record the page displays. */
  datatype Stats = Stats(totalCount: int, averageRating: real, ratingCounts: seq<int>)

  /** The zero statistics (lines 85-89 and 95-99). */
  const ZeroStats := Stats(0, 0.0, [0, 0, 0, 0, 0])

  /** `getFeedbackStats` (lines 79-100). */
  function GetFeedbackStats(answer: StoreResult<Stats>): (s: Stats)
    ensures answer.Ok? ==> s == answer.data
    ensures !answer.Ok? ==> s == ZeroStats
  {
    match answer
    case Ok(data) => data
    case Err(_) => ZeroStats
    case Thrown => ZeroStats
  }
}
