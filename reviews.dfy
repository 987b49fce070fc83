/**
 * The reviews block of the product page
 * (src/components/products/ProductReviews.tsx): the headline and the
 * per-star distribution bars, the panel offered to the visitor, and the
 * review form whose submit is refused without a rating.
 */
module ProductReviews {
  import opened Domain
  import opened Seqs

  /** Reviews with exactly this rating, counted one review at a time. */
  function RatingCount(reviews: seq<Review>, star: int): (n: nat)
    ensures n <= |reviews|
  {
    if reviews == [] then 0 else (if reviews[0].rating == star then 1 else 0) + RatingCount(reviews[1..], star)
  }

  /** The count is `reviews.filter(r => r.rating === star).length`. */
  lemma {:induction false} RatingCountIsFilterLength(reviews: seq<Review>, star: int)
    ensures RatingCount(reviews, star) == Count(reviews, (r: Review) => r.rating == star)
    decreases |reviews|
  {
    if reviews != [] {
      RatingCountIsFilterLength(reviews[1..], star);
    }
  }

  lemma RatingCountNil(star: int)
    ensures RatingCount([], star) == 0
  {
  }

  lemma RatingCountCons(r: Review, rest: seq<Review>, star: int)
    ensures RatingCount([r] + rest, star) == (if r.rating == star then 1 else 0) + RatingCount(rest, star)
  {
    assert ([r] + rest)[1..] == rest;
  }

  /** One distribution bar: the star, how many reviews gave it, and the bar's width in percent. */
  datatype Bar = Bar(star: int, count: nat, pct: real)

  /** The bar for one star; `total` is the review count, and no reviews give width 0. */
  function BarFor(reviews: seq<Review>, total: int, star: int): (b: Bar)
    ensures b.star == star && b.count == RatingCount(reviews, star)
    ensures total == 0 ==> b.pct == 0.0
  {
    var c := RatingCount(reviews, star);
    Bar(star, c, if total != 0 then (c as real / total as real) * 100.0 else 0.0)
  }

  /** A share in percent, scaled back by the total, is the count in percent. */
  lemma PercentScales(pct: real, c: real, n: real)
    requires n != 0.0 && pct == (c / n) * 100.0
    ensures pct * n == c * 100.0
  {
    assert (c / n) * n == c;
    assert pct * n == ((c / n) * n) * 100.0;
  }

  /** A bar's width is its count as a percentage of the total. */
  lemma BarWidth(reviews: seq<Review>, total: int, star: int)
    requires total != 0
    ensures BarFor(reviews, total, star).pct * (total as real) == (RatingCount(reviews, star) as real) * 100.0
  {
    PercentScales(BarFor(reviews, total, star).pct, RatingCount(reviews, star) as real, total as real);
  }

  /** `distribution`: `[5, 4, 3, 2, 1].map(...)`, one bar per star from five down to one. */
  function Distribution(reviews: seq<Review>, total: int): (d: seq<Bar>)
    ensures |d| == 5
    ensures forall i :: 0 <= i < 5 ==> d[i].star == 5 - i && d[i].count == RatingCount(reviews, 5 - i)
  {
    seq(5, i => BarFor(reviews, total, 5 - i))
  }

  lemma DistributionBars(reviews: seq<Review>, total: int)
    ensures Distribution(reviews, total) == [BarFor(reviews, total, 5), BarFor(reviews, total, 4), BarFor(reviews, total, 3),
                                             BarFor(reviews, total, 2), BarFor(reviews, total, 1)]
  {
    var d := Distribution(reviews, total);
    assert d[0] == BarFor(reviews, total, 5) && d[1] == BarFor(reviews, total, 4) && d[2] == BarFor(reviews, total, 3);
    assert d[3] == BarFor(reviews, total, 2) && d[4] == BarFor(reviews, total, 1);
  }

  function CountSum(d: seq<Bar>): int
  {
    if d == [] then 0 else d[0].count + CountSum(d[1..])
  }

  function PctSum(d: seq<Bar>): real
  {
    if d == [] then 0.0 else d[0].pct + PctSum(d[1..])
  }

  predicate RatingsInRange(reviews: seq<Review>)
  {
    forall i :: 0 <= i < |reviews| ==> 1 <= reviews[i].rating <= 5
  }

  /** Sum of the five bars' counts, written over the five stars. */
  function StarTotal(reviews: seq<Review>): int
  {
    RatingCount(reviews, 5) + RatingCount(reviews, 4) + RatingCount(reviews, 3)
    + RatingCount(reviews, 2) + RatingCount(reviews, 1)
  }

  lemma CountSumFive(a: Bar, b: Bar, c: Bar, d: Bar, e: Bar)
    ensures CountSum([a, b, c, d, e]) == a.count + b.count + c.count + d.count + e.count
  {
    assert [a, b, c, d, e][1..] == [b, c, d, e];
    assert [b, c, d, e][1..] == [c, d, e];
    assert [c, d, e][1..] == [d, e];
    assert [d, e][1..] == [e];
    assert [e][1..] == [];
    assert CountSum([e]) == e.count;
    assert CountSum([d, e]) == d.count + e.count;
    assert CountSum([c, d, e]) == c.count + d.count + e.count;
  }

  lemma DistributionCountSum(reviews: seq<Review>, total: int)
    ensures CountSum(Distribution(reviews, total)) == StarTotal(reviews)
  {
    DistributionBars(reviews, total);
    CountSumFive(BarFor(reviews, total, 5), BarFor(reviews, total, 4), BarFor(reviews, total, 3),
                 BarFor(reviews, total, 2), BarFor(reviews, total, 1));
  }

  /** With every rating between 1 and 5, each review lands in exactly one bar. */
  lemma {:induction false} StarTotalIsLength(reviews: seq<Review>)
    requires RatingsInRange(reviews)
    ensures StarTotal(reviews) == |reviews|
    decreases |reviews|
  {
    if reviews == [] {
      RatingCountNil(5); RatingCountNil(4); RatingCountNil(3); RatingCountNil(2); RatingCountNil(1);
    } else {
      var r, rest := reviews[0], reviews[1..];
      assert reviews == [r] + rest;
      assert RatingsInRange(rest) by {
        assert forall i :: 0 <= i < |rest| ==> rest[i] == reviews[i + 1];
      }
      StarTotalIsLength(rest);
      RatingCountCons(r, rest, 5); RatingCountCons(r, rest, 4); RatingCountCons(r, rest, 3);
      RatingCountCons(r, rest, 2); RatingCountCons(r, rest, 1);
    }
  }

  /** The bar counts add up to the number of reviews when all ratings are 1 to 5. */
  lemma DistributionCoversReviews(reviews: seq<Review>, total: int)
    requires RatingsInRange(reviews)
    ensures CountSum(Distribution(reviews, total)) == |reviews|
  {
    DistributionCountSum(reviews, total);
    StarTotalIsLength(reviews);
  }

  lemma FractionAtMostOne(c: real, n: real)
    requires 0.0 <= c <= n && n > 0.0
    ensures 0.0 <= c / n <= 1.0
  {
    assert c / n * n == c;
  }

  /** When the count is the number of reviews, every bar is between 0 and 100 percent wide. */
  lemma PctBounds(reviews: seq<Review>, star: int)
    ensures 0.0 <= BarFor(reviews, |reviews|, star).pct <= 100.0
  {
    if |reviews| != 0 {
      var c := RatingCount(reviews, star) as real;
      FractionAtMostOne(c, |reviews| as real);
    }
  }

  lemma PctSumFive(a: Bar, b: Bar, c: Bar, d: Bar, e: Bar)
    ensures PctSum([a, b, c, d, e]) == a.pct + b.pct + c.pct + d.pct + e.pct
  {
    assert [a, b, c, d, e][1..] == [b, c, d, e];
    assert [b, c, d, e][1..] == [c, d, e];
    assert [c, d, e][1..] == [d, e];
    assert [d, e][1..] == [e];
    assert [e][1..] == [];
    assert PctSum([e]) == e.pct;
    assert PctSum([d, e]) == d.pct + e.pct;
    assert PctSum([c, d, e]) == c.pct + d.pct + e.pct;
  }

  lemma FractionsAddUp(c5: real, c4: real, c3: real, c2: real, c1: real, n: real)
    requires n > 0.0 && c5 + c4 + c3 + c2 + c1 == n
    ensures (c5 / n) * 100.0 + (c4 / n) * 100.0 + (c3 / n) * 100.0 + (c2 / n) * 100.0 + (c1 / n) * 100.0 == 100.0
  {
    assert c5 / n + c4 / n + c3 / n + c2 / n + c1 / n == (c5 + c4 + c3 + c2 + c1) / n;
  }

  /** With at least one review, all rated 1 to 5, and the count equal to the number of reviews, the bars fill 100 percent. */
  lemma DistributionPctSum(reviews: seq<Review>)
    requires RatingsInRange(reviews) && |reviews| > 0
    ensures PctSum(Distribution(reviews, |reviews|)) == 100.0
  {
    var n := |reviews|;
    DistributionBars(reviews, n);
    PctSumFive(BarFor(reviews, n, 5), BarFor(reviews, n, 4), BarFor(reviews, n, 3),
               BarFor(reviews, n, 2), BarFor(reviews, n, 1));
    StarTotalIsLength(reviews);
    FractionsAddUp(RatingCount(reviews, 5) as real, RatingCount(reviews, 4) as real, RatingCount(reviews, 3) as real,
                   RatingCount(reviews, 2) as real, RatingCount(reviews, 1) as real, n as real);
  }

  /** The headline number: a dash for no reviews, the average otherwise. */
  datatype Headline = Dash | Average(value: real)

  function HeadlineOf(count: int, average: real): (h: Headline)
    ensures h == Dash <==> count == 0
    ensures h.Average? ==> h.value == average
  {
    if count == 0 then Dash else Average(average)
  }

  /**
   * When the count is the number of reviews, all rated 1 to 5, the headline
   * is a dash exactly when every bar is empty.
   */
  lemma DashIffEmptyBars(reviews: seq<Review>, average: real)
    requires RatingsInRange(reviews)
    ensures HeadlineOf(|reviews|, average) == Dash <==>
      forall i :: 0 <= i < 5 ==> Distribution(reviews, |reviews|)[i].count == 0
  {
    var d := Distribution(reviews, |reviews|);
    DistributionCountSum(reviews, |reviews|);
    StarTotalIsLength(reviews);
    if forall i :: 0 <= i < 5 ==> d[i].count == 0 {
      assert d[0].count == 0 && d[1].count == 0 && d[2].count == 0 && d[3].count == 0 && d[4].count == 0;
      assert StarTotal(reviews) == 0;
    }
  }

  /** What the visitor is offered under the summary. */
  datatype Panel = SignInPrompt | OwnRating(rating: int) | WriteButton | Form

  function PanelOf(signedIn: bool, userReview: Option<Review>, showForm: bool): (p: Panel)
    ensures p == SignInPrompt <==> !signedIn
    ensures p == Form <==> signedIn && showForm
    ensures p.OwnRating? <==> signedIn && userReview.Some? && !showForm
    ensures p.OwnRating? ==> p.rating == userReview.value.rating
    ensures p == WriteButton <==> signedIn && userReview.None? && !showForm
  {
    if !signedIn then SignInPrompt
    else if userReview.Some? && !showForm then OwnRating(userReview.value.rating)
    else if !showForm then WriteButton
    else Form
  }

  /** The submit button is off while saving and while no star is chosen. */
  function SubmitDisabled(saving: bool, selectedRating: int): (r: bool)
    ensures !r <==> !saving && selectedRating != 0
  {
    saving || selectedRating == 0
  }

  datatype Toast = ToastWarning(title: string) | ToastError(title: string, description: string) | ToastSuccess(title: string)

  /** `submitReview(rating, comment)`. */
  datatype Submission = Submission(rating: int, comment: string)

  class ReviewForm {
    var selectedRating: int
    var comment: string
    var saving: bool
    var showForm: bool

    /**
     * The form starts from the visitor's own review when there is one.
     * `useState` reads its initial values once, at mount: `userReview` is the
     * review known then, and one that loads later does not fill the form in
     * (only "Editar", `OpenEdit`, does).
     */
    constructor (userReview: Option<Review>)
      ensures selectedRating == (if userReview.Some? then userReview.value.rating else 0)
      ensures comment == (if userReview.Some? && userReview.value.comment.Some? then userReview.value.comment.value else "")
      ensures !saving && !showForm
    {
      selectedRating := if userReview.Some? then userReview.value.rating else 0;
      comment := if userReview.Some? && userReview.value.comment.Some? then userReview.value.comment.value else "";
      saving, showForm := false, false;
    }

    /** "Editar": reload the own review into the form and open it. */
    method OpenEdit(own: Review)
      modifies this
      ensures selectedRating == own.rating
      ensures comment == (if own.comment.Some? then own.comment.value else "")
      ensures showForm && saving == old(saving)
    {
      selectedRating := own.rating;
      comment := if own.comment.Some? then own.comment.value else "";
      showForm := true;
    }

    /** "Escribir una reseña". */
    method OpenWrite()
      modifies this
      ensures showForm
      ensures selectedRating == old(selectedRating) && comment == old(comment) && saving == old(saving)
    {
      showForm := true;
    }

    /** "Cancelar". */
    method Cancel()
      modifies this
      ensures !showForm
      ensures selectedRating == old(selectedRating) && comment == old(comment) && saving == old(saving)
    {
      showForm := false;
    }

    /** A click on the interactive stars. */
    method Rate(star: int)
      modifies this
      ensures selectedRating == star
      ensures comment == old(comment) && saving == old(saving) && showForm == old(showForm)
    {
      selectedRating := star;
    }

    /**
     * `handleSubmit`: with no star chosen, warn and send nothing; otherwise
     * send the rating and comment, and close the form only on success.
     */
    method Submit(hasUserReview: bool, error: Option<string>) returns (sent: Option<Submission>, toast: Toast)
      modifies this
      ensures old(selectedRating) == 0 ==>
        sent == None && toast == ToastWarning("Selecciona una calificación")
        && showForm == old(showForm) && saving == old(saving)
      ensures old(selectedRating) != 0 ==>
        && sent == Some(Submission(old(selectedRating), old(comment)))
        && !saving
        && (error.Some? ==> toast == ToastError("Error al guardar", error.value) && showForm == old(showForm))
        && (error.None? ==>
              toast == ToastSuccess(if hasUserReview then "Reseña actualizada" else "¡Gracias por tu reseña!")
              && !showForm)
      ensures sent.Some? <==> !SubmitDisabled(false, old(selectedRating))
      ensures selectedRating == old(selectedRating) && comment == old(comment)
    {
      if selectedRating == 0 {
        return None, ToastWarning("Selecciona una calificación");
      }
      saving := true;
      sent := Some(Submission(selectedRating, comment));
      saving := false;
      if error.Some? {
        toast := ToastError("Error al guardar", error.value);
      } else {
        toast := ToastSuccess(if hasUserReview then "Reseña actualizada" else "¡Gracias por tu reseña!");
        showForm := false;
      }
    }
  }
}
