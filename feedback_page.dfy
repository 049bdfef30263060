/** The feedback page (ai_petition/src/components/pages/Feedback.tsx): the
    summary statistics, the two tabs, and the mutation that sends a new entry
    to the store. The react-query cache appears only as the set of query keys
    the page invalidates. */
module Pages {
  import opened Options
  import opened Cards
  import opened SupabaseService
  import Forms

  // ---------------------------------------------------------------------------
  // Statistics
  // ---------------------------------------------------------------------------

  /** The statistics shown before the query answers (line 25). */
  const DefaultStats := Stats(0, 0.0, [0, 0, 0, 0, 0])

  /** Before the first answer the page shows the same values the client
      returns on a failed call. */
  lemma DefaultIsZero()
    ensures DefaultStats == ZeroStats
  {
  }

  /** Division with remainder by a positive divisor. */
  lemma DivRem(a: int, d: int)
    requires d >= 1
    ensures a == (a / d) * d + a % d && 0 <= a % d < d
  {
  }

  /** `calculatePercentage(count)` (lines 57-63): `Math.round(count / total * 100)`
      in exact arithmetic, i.e. the integer p with p - 1/2 <= 100 * count / total
      < p + 1/2, halves rounding up; 0 when there are no reviews. */
  function CalculatePercentage(count: int, total: int): (p: int)
    ensures total <= 0 ==> p == 0
    ensures total > 0 ==> total * (2 * p - 1) <= 200 * count < total * (2 * p + 1)
  {
    if total > 0 then
      var p := (200 * count + total) / (2 * total);
      DivRem(200 * count + total, 2 * total);
      assert total * (2 * p - 1) == p * (2 * total) - total;
      assert total * (2 * p + 1) == p * (2 * total) + total;
      p
    else 0
  }

  /** A product with a positive factor is negative only if the other is. */
  lemma NegativeFactor(t: int, x: int)
    requires t > 0 && t * x < 0
    ensures x < 0
  {
  }

  /** The rounding characterisation has one solution, so it decides the result. */
  lemma PercentageUnique(count: int, total: int, p: int)
    requires total > 0 && total * (2 * p - 1) <= 200 * count < total * (2 * p + 1)
    ensures CalculatePercentage(count, total) == p
  {
    var q := CalculatePercentage(count, total);
    assert total * (2 * (q - p - 1)) == total * (2 * q - 1) - total * (2 * p + 1);
    NegativeFactor(total, 2 * (q - p - 1));
    assert total * (2 * (p - q - 1)) == total * (2 * p - 1) - total * (2 * q + 1);
    NegativeFactor(total, 2 * (p - q - 1));
  }

  /** A count between 0 and the total gives a percentage between 0 and 100. */
  lemma PercentageBounds(count: int, total: int)
    requires 0 <= count <= total
    ensures 0 <= CalculatePercentage(count, total) <= 100
  {
    if total > 0 {
      var p := CalculatePercentage(count, total);
      assert total * (-(2 * p + 1)) == -(total * (2 * p + 1));
      NegativeFactor(total, -(2 * p + 1));
      assert total * (2 * p - 202) == total * (2 * p - 1) - 201 * total;
      NegativeFactor(total, 2 * p - 202);
    }
  }

  /** No count is 0%, every review in one bar is 100%. */
  lemma PercentageEnds(total: int)
    requires total > 0
    ensures CalculatePercentage(0, total) == 0
    ensures CalculatePercentage(total, total) == 100
  {
    PercentageUnique(0, total, 0);
    PercentageUnique(total, total, 100);
  }

  /** One bar of the rating distribution. The percentage is None where the
      page would show NaN: a rating whose count is missing from
      `ratingCounts` while there are reviews. */
  datatype Bar = Bar(rating: int, percent: Option<int>)

  function BarFor(stats: Stats, rating: int): (b: Bar)
    ensures b.rating == rating
    ensures stats.totalCount <= 0 ==> b.percent == Some(0)
    ensures stats.totalCount > 0 && 1 <= rating <= |stats.ratingCounts| ==>
      b.percent == Some(CalculatePercentage(stats.ratingCounts[rating - 1], stats.totalCount))
  {
    if stats.totalCount <= 0 then Bar(rating, Some(0))
    else if 1 <= rating <= |stats.ratingCounts|
    then Bar(rating, Some(CalculatePercentage(stats.ratingCounts[rating - 1], stats.totalCount)))
    else Bar(rating, None)
  }

  /** The distribution bars (lines 101-110): ratings 5 down to 1. */
  function DistributionBars(stats: Stats): (bars: seq<Bar>)
    ensures |bars| == 5
    ensures forall i :: 0 <= i < 5 ==> bars[i] == BarFor(stats, 5 - i)
  {
    [BarFor(stats, 5), BarFor(stats, 4), BarFor(stats, 3), BarFor(stats, 2), BarFor(stats, 1)]
  }

  /** Counts that are each within the total give bars between 0% and 100%. */
  lemma BarsWithinRange(stats: Stats)
    requires |stats.ratingCounts| == 5
    requires forall i :: 0 <= i < 5 ==> 0 <= stats.ratingCounts[i] <= stats.totalCount
    ensures forall i :: 0 <= i < 5 ==>
      DistributionBars(stats)[i].percent.Some? &&
      0 <= DistributionBars(stats)[i].percent.value <= 100
  {
    forall i | 0 <= i < 5
      ensures DistributionBars(stats)[i].percent.Some? &&
        0 <= DistributionBars(stats)[i].percent.value <= 100
    {
      PercentageBounds(stats.ratingCounts[4 - i], stats.totalCount);
    }
  }

  // ---------------------------------------------------------------------------
  // Submitting
  // ---------------------------------------------------------------------------

  /** `handleFeedbackSubmit`'s destructuring (lines 49-52): drop `id` and
      `createdAt`. */
  function StripIds(item: FeedbackItem): (f: NewFeedback)
    ensures f.userName == item.userName && f.rating == item.rating
    ensures f.pros == item.pros && f.cons == item.cons && f.comment == item.comment
  {
    NewFeedback(item.userName, item.rating, item.pros, item.cons, item.comment)
  }

  /** Stripping loses only the two fields: given back, the item is whole. */
  lemma StripIdsRoundTrip(item: FeedbackItem)
    ensures var f := StripIds(item);
      FeedbackItem(item.id, f.userName, f.rating, f.pros, f.cons, f.comment, item.createdAt) == item
  {
  }

  /** What the form hands over, once stripped, is exactly what was typed. */
  lemma FormDraftReachesStore(d: Forms.Draft, freshId: string, now: Instant)
    requires Forms.Validate(d, freshId, now).Submit?
    ensures StripIds(Forms.Validate(d, freshId, now).item) ==
      NewFeedback(d.userName, d.rating, d.pros, d.cons, d.comment)
  {
  }

  /** The two tabs. */
  datatype Tab = ViewTab | SubmitTab

  /** A toast. */
  datatype Notice = SuccessNotice(text: string) | ErrorNotice(text: string)

  const FeedbackKey := "feedback"
  const StatsKey := "feedbackStats"
  const Submitted := "Feedback submitted successfully!"
  const SubmitFailed := "Failed to submit feedback. Please try again."

  class FeedbackPage {
    var activeTab: Tab
    /** The two query results, with their defaults until the store answers. */
    var feedbackItems: seq<FeedbackItem>
    var stats: Stats
    /** The query keys whose fetch is due: both at mount, then those
        invalidated since the last refetch. */
    var invalidated: set<string>
    var notices: seq<Notice>
    /** What the mutation sent to `addFeedback`, oldest first. */
    var sent: seq<NewFeedback>
    /** The mutations started by `mutate` whose promise has not settled yet. */
    var inFlight: seq<NewFeedback>

    /** Every mutation still in flight was one that was sent. */
    predicate Valid()
      reads this
    {
      forall x :: x in inFlight ==> x in sent
    }

    /** Mounting (lines 15-28): the defaults are shown and both `useQuery`
        calls start their first fetch, which the next `Refetch` completes. */
    constructor()
      ensures activeTab == ViewTab && feedbackItems == [] && stats == DefaultStats
      ensures invalidated == {FeedbackKey, StatsKey}
      ensures notices == [] && sent == [] && inFlight == []
      ensures Valid()
    {
      activeTab := ViewTab;
      feedbackItems := [];
      stats := DefaultStats;
      invalidated := {FeedbackKey, StatsKey};
      notices := [];
      sent := [];
      inFlight := [];
    }

    /** A click on a tab trigger (`onValueChange`, line 117). */
    method SetTab(t: Tab)
      modifies this
      ensures activeTab == t
      ensures feedbackItems == old(feedbackItems) && stats == old(stats)
      ensures invalidated == old(invalidated) && notices == old(notices) && sent == old(sent)
      ensures inFlight == old(inFlight)
    {
      activeTab := t;
    }

    /** The mutation's `onSuccess` (lines 33-43). */
    method OnSuccess()
      modifies this
      ensures invalidated == old(invalidated) + {FeedbackKey, StatsKey}
      ensures notices == old(notices) + [SuccessNotice(Submitted)]
      ensures activeTab == ViewTab
      ensures feedbackItems == old(feedbackItems) && stats == old(stats) && sent == old(sent)
      ensures inFlight == old(inFlight)
    {
      invalidated := invalidated + {FeedbackKey};
      invalidated := invalidated + {StatsKey};
      notices := notices + [SuccessNotice(Submitted)];
      activeTab := ViewTab;
    }

    /** The mutation's `onError` (lines 44-46), for a rejected `mutationFn`. */
    method OnError()
      modifies this
      ensures notices == old(notices) + [ErrorNotice(SubmitFailed)]
      ensures activeTab == old(activeTab) && invalidated == old(invalidated)
      ensures feedbackItems == old(feedbackItems) && stats == old(stats) && sent == old(sent)
      ensures inFlight == old(inFlight)
    {
      notices := notices + [ErrorNotice(SubmitFailed)];
    }

    /** `handleFeedbackSubmit` (lines 49-52): `mutate` starts the mutation
        with the item minus its id and creation time and returns at once;
        nothing else changes until the mutation settles. */
    method HandleFeedbackSubmit(item: FeedbackItem)
      requires Valid()
      modifies this
      ensures Valid()
      ensures sent == old(sent) + [StripIds(item)]
      ensures inFlight == old(inFlight) + [StripIds(item)]
      ensures activeTab == old(activeTab) && invalidated == old(invalidated) && notices == old(notices)
      ensures feedbackItems == old(feedbackItems) && stats == old(stats)
    {
      var data := StripIds(item);
      sent := sent + [data];
      inFlight := inFlight + [data];
    }

    /** One started mutation settles, in whatever order the store answers
        them. `addFeedback` answers null instead of throwing, so its promise
        always resolves and `onSuccess` runs whatever the store answered,
        overriding any tab chosen since the submit. */
    method SettleMutation(i: int, store: InsertRow -> StoreResult<StoredRow>)
      returns (added: Option<FeedbackItem>)
      requires Valid() && 0 <= i < |inFlight|
      modifies this
      ensures Valid()
      ensures added == AddFeedback(old(inFlight)[i], store)
      ensures inFlight == old(inFlight)[..i] + old(inFlight)[i + 1..]
      ensures invalidated == old(invalidated) + {FeedbackKey, StatsKey}
      ensures notices == old(notices) + [SuccessNotice(Submitted)]
      ensures activeTab == ViewTab
      ensures feedbackItems == old(feedbackItems) && stats == old(stats) && sent == old(sent)
    {
      var data := inFlight[i];
      inFlight := inFlight[..i] + inFlight[i + 1..];
      assert forall x :: x in inFlight ==> x in old(inFlight);
      added := AddFeedback(data, store);
      OnSuccess();
    }

    /** The fetch of the due queries: each takes what the client function
        makes of the store's answer. */
    method Refetch(rows: StoreResult<Option<seq<StoredRow>>>, summary: StoreResult<Stats>)
      modifies this
      ensures FeedbackKey in old(invalidated) ==> feedbackItems == GetAllFeedback(rows)
      ensures FeedbackKey !in old(invalidated) ==> feedbackItems == old(feedbackItems)
      ensures StatsKey in old(invalidated) ==> stats == GetFeedbackStats(summary)
      ensures StatsKey !in old(invalidated) ==> stats == old(stats)
      ensures invalidated == {}
      ensures activeTab == old(activeTab) && notices == old(notices) && sent == old(sent)
      ensures inFlight == old(inFlight)
    {
      if FeedbackKey in invalidated {
        feedbackItems := GetAllFeedback(rows);
      }
      if StatsKey in invalidated {
        stats := GetFeedbackStats(summary);
      }
      invalidated := {};
    }
  }

  /** A freshly mounted page, once its first fetches complete, shows what the
      store holds: the converted rows and the store's statistics. */
  method MountAndLoad(rows: StoreResult<Option<seq<StoredRow>>>, summary: StoreResult<Stats>)
    returns (page: FeedbackPage)
    ensures fresh(page) && page.Valid()
    ensures page.feedbackItems == GetAllFeedback(rows) && page.stats == GetFeedbackStats(summary)
    ensures page.activeTab == ViewTab && page.invalidated == {} && page.notices == []
  {
    page := new FeedbackPage();
    page.Refetch(rows, summary);
  }
}
