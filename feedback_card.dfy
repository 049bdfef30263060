/** One feedback entry and its card (ai_petition/src/components/ui/FeedbackCard.tsx). */
module Cards {
  import StarRatings

  /** A point in time, as milliseconds since the epoch (a JavaScript `Date`). */
  type Instant = int

  /** `FeedbackItem`: exactly these seven fields. */
  datatype FeedbackItem = FeedbackItem(
    id: string, userName: string, rating: int,
    pros: string, cons: string, comment: string,
    createdAt: Instant)

  /** A titled text block of the card body. */
  datatype Section = Section(heading: string, text: string)

  /** What a card shows: the author, the posting time (shown relative to now),
      the read-only stars and the body sections in order. */
  datatype CardView = CardView(title: string, postedAt: Instant, stars: seq<bool>, sections: seq<Section>)

  const ProsHeading := "Pros"
  const ConsHeading := "Cons"
  const CommentHeading := "Additional Comments"

  /** `{text && (<section>)}`: a section only for a non-empty text. */
  function SectionIf(heading: string, text: string): seq<Section>
  {
    if text != "" then [Section(heading, text)] else []
  }

  /** The card for an item. Its stars are those of a read-only widget, whose
      hover position stays 0. */
  function RenderCard(item: FeedbackItem): (v: CardView)
    ensures v.title == item.userName && v.postedAt == item.createdAt
    ensures v.stars == StarRatings.LitStars(item.rating, 0)
    ensures Section(ProsHeading, item.pros) in v.sections <==> item.pros != ""
    ensures Section(ConsHeading, item.cons) in v.sections <==> item.cons != ""
    ensures Section(CommentHeading, item.comment) in v.sections <==> item.comment != ""
    ensures forall s :: s in v.sections ==> (s.text != "" &&
      s in [Section(ProsHeading, item.pros), Section(ConsHeading, item.cons), Section(CommentHeading, item.comment)])
  {
    assert ProsHeading != ConsHeading && ProsHeading != CommentHeading && ConsHeading != CommentHeading;
    CardView(item.userName, item.createdAt, StarRatings.LitStars(item.rating, 0),
      SectionIf(ProsHeading, item.pros) + SectionIf(ConsHeading, item.cons) + SectionIf(CommentHeading, item.comment))
  }

  /** The position of a heading in the card body. */
  function Rank(heading: string): int
  {
    if heading == ProsHeading then 0 else if heading == ConsHeading then 1 else 2
  }

  /** Whatever sections are present, they come in the order Pros, Cons,
      Additional Comments: a section listed before another has the lower rank,
      so no heading appears twice. */
  lemma SectionOrder(item: FeedbackItem)
    ensures var sections := RenderCard(item).sections;
      |sections| <= 3 &&
      forall i, j :: 0 <= i < j < |sections| ==> Rank(sections[i].heading) < Rank(sections[j].heading)
  {
    assert ProsHeading != ConsHeading && ProsHeading != CommentHeading && ConsHeading != CommentHeading;
    var a := SectionIf(ProsHeading, item.pros);
    var b := SectionIf(ConsHeading, item.cons);
    var c := SectionIf(CommentHeading, item.comment);
    var sections := a + b + c;
    assert RenderCard(item).sections == sections;
    forall i, j | 0 <= i < j < |sections|
      ensures Rank(sections[i].heading) < Rank(sections[j].heading)
    {
      assert forall k :: 0 <= k < |a| ==> Rank(a[k].heading) == 0;
      assert forall k :: 0 <= k < |b| ==> Rank(b[k].heading) == 1;
      assert forall k :: 0 <= k < |c| ==> Rank(c[k].heading) == 2;
    }
  }

  /** Star i of a card is lit exactly when i is at most the item's rating. */
  lemma CardStarsShowRating(item: FeedbackItem, i: int)
    requires 0 <= i < |StarRatings.Positions|
    ensures RenderCard(item).stars[i] <==> i + 1 <= item.rating
  {
  }
}
