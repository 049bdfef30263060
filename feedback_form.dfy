/** The feedback entry form (ai_petition/src/components/ui/FeedbackForm.tsx):
    five controlled fields, a submitting flag, toast notices and the parent's
    `onSubmit` callback. */
module Forms {
  import opened Options
  import opened Strings
  import opened Cards

  const NameRequired := "Please enter your name"
  const RatingRequired := "Please select a rating"

  /** The values of the form's fields at the moment it is submitted. */
  datatype Draft = Draft(userName: string, rating: int, pros: string, cons: string, comment: string)

  /** What a submit does: refuse with a notice, or hand an item to the parent. */
  datatype SubmitOutcome = NameMissing | RatingMissing | Submit(item: FeedbackItem)

  /** The checks of `handleSubmit` (FeedbackForm.tsx:27-35), in order, and the
      item it builds (40-48) with a fresh id and the current time. The name is
      checked trimmed but stored as typed. */
  function Validate(d: Draft, freshId: string, now: Instant): (o: SubmitOutcome)
    ensures o.NameMissing? <==> Trim(d.userName) == ""
    ensures o.RatingMissing? <==> Trim(d.userName) != "" && d.rating == 0
    ensures o.Submit? ==> o.item == FeedbackItem(freshId, d.userName, d.rating, d.pros, d.cons, d.comment, now)
  {
    if Trim(d.userName) == "" then NameMissing
    else if d.rating == 0 then RatingMissing
    else Submit(FeedbackItem(freshId, d.userName, d.rating, d.pros, d.cons, d.comment, now))
  }

  /** A draft is submitted exactly when its name holds a character that is
      not white space and a star has been chosen. */
  lemma SubmitIff(d: Draft, freshId: string, now: Instant)
    ensures Validate(d, freshId, now).Submit? <==> !AllJsSpace(d.userName) && d.rating != 0
  {
    TrimEmptyIff(d.userName);
  }

  /** A name made only of white space (or empty) is refused with the name
      notice whatever the rating and the other fields; any other name passes
      the name check. */
  lemma BlankNameRefused(d: Draft, freshId: string, now: Instant)
    ensures AllJsSpace(d.userName) ==> Validate(d, freshId, now) == NameMissing
    ensures !AllJsSpace(d.userName) ==> Validate(d, freshId, now) != NameMissing
  {
    TrimEmptyIff(d.userName);
  }

  /** The label next to the stars (line 82). */
  function RatingLabel(rating: int): (caption: string)
    ensures rating <= 0 ==> caption == "Select rating"
    ensures rating > 0 ==> caption == IntToString(rating) + (if rating != 1 then " stars" else " star")
  {
    if rating > 0 then IntToString(rating) + " star" + (if rating != 1 then "s" else "") else "Select rating"
  }

  /** A chosen rating is read back from the label's leading numeral, which
      is followed by " star" for a rating of 1 and by " stars" otherwise. */
  lemma RatingLabelReadsBack(rating: int)
    ensures rating <= 0 ==> RatingLabel(rating) == "Select rating"
    ensures rating > 0 ==>
      var caption := RatingLabel(rating);
      var suffix := if rating == 1 then " star" else " stars";
      |caption| > |suffix| &&
      ParseDecimal(caption[..|caption| - |suffix|]) == Some(rating) &&
      caption[|caption| - |suffix|..] == suffix
  {
    if rating > 0 {
      var numeral := IntToString(rating);
      var suffix := if rating == 1 then " star" else " stars";
      assert RatingLabel(rating) == numeral + suffix;
      ParseIntToString(rating);
      LabelParts(numeral, suffix);
    }
  }

  /** A non-empty numeral followed by a suffix splits back into the two. */
  lemma LabelParts(numeral: string, suffix: string)
    requires numeral != ""
    ensures var c := numeral + suffix;
      |c| > |suffix| && c[..|c| - |suffix|] == numeral && c[|c| - |suffix|..] == suffix
  {
  }

  /** The form component. `notices` records the error toasts and `submitted`
      the items passed to `onSubmit`. */
  class FeedbackForm {
    var userName: string
    var rating: int
    var pros: string
    var cons: string
    var comment: string
    var isSubmitting: bool
    var notices: seq<string>
    var submitted: seq<FeedbackItem>

    /** The rating is 0 (none chosen) or a star, and no submit is in
        progress between two events. */
    predicate Valid()
      reads this
    {
      0 <= rating <= 5 && !isSubmitting
    }

    /** The current field values. */
    function Current(): Draft
      reads this
    {
      Draft(userName, rating, pros, cons, comment)
    }

    /** The initial `useState` values (lines 17-22). */
    constructor()
      ensures Valid()
      ensures Current() == Draft("", 0, "", "", "")
      ensures !isSubmitting && notices == [] && submitted == []
    {
      userName, rating, pros, cons, comment := "", 0, "", "", "";
      isSubmitting := false;
      notices, submitted := [], [];
    }

    /** Typing in the name box. */
    method SetUserName(s: string)
      modifies this
      ensures Current() == old(Current()).(userName := s)
      ensures isSubmitting == old(isSubmitting) && notices == old(notices) && submitted == old(submitted)
    {
      userName := s;
    }

    /** A click on a star of the embedded widget (`setRating(index)`). */
    method SetRating(index: int)
      requires Valid() && 1 <= index <= 5
      modifies this
      ensures Valid()
      ensures Current() == old(Current()).(rating := index)
      ensures isSubmitting == old(isSubmitting) && notices == old(notices) && submitted == old(submitted)
    {
      rating := index;
    }

    method SetPros(s: string)
      modifies this
      ensures Current() == old(Current()).(pros := s)
      ensures isSubmitting == old(isSubmitting) && notices == old(notices) && submitted == old(submitted)
    {
      pros := s;
    }

    method SetCons(s: string)
      modifies this
      ensures Current() == old(Current()).(cons := s)
      ensures isSubmitting == old(isSubmitting) && notices == old(notices) && submitted == old(submitted)
    {
      cons := s;
    }

    method SetComment(s: string)
      modifies this
      ensures Current() == old(Current()).(comment := s)
      ensures isSubmitting == old(isSubmitting) && notices == old(notices) && submitted == old(submitted)
    {
      comment := s;
    }

    /** `handleSubmit` (lines 24-53): one notice on a refused draft, one call of
      `onSubmit` otherwise. The fields are not cleared afterwards, and the
      submitting flag, raised and lowered within the same handler, ends
      lowered. */
    method HandleSubmit(freshId: string, now: Instant)
      requires Valid()
      modifies this
      ensures Valid() && Current() == old(Current()) && !isSubmitting
      ensures Validate(old(Current()), freshId, now) == NameMissing ==>
        notices == old(notices) + [NameRequired] && submitted == old(submitted)
      ensures Validate(old(Current()), freshId, now) == RatingMissing ==>
        notices == old(notices) + [RatingRequired] && submitted == old(submitted)
      ensures Validate(old(Current()), freshId, now).Submit? ==>
        notices == old(notices) && submitted == old(submitted) + [Validate(old(Current()), freshId, now).item]
    {
      if Trim(userName) == "" {
        notices := notices + [NameRequired];
        return;
      }
      if rating == 0 {
        notices := notices + [RatingRequired];
        return;
      }
      isSubmitting := true;
      var item := FeedbackItem(freshId, userName, rating, pros, cons, comment, now);
      submitted := submitted + [item];
      isSubmitting := false;
    }
  }
}
