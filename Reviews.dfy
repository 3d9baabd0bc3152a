/**
 * The user's reviews page: completed bookings read from storage, the star
 * widget, and review submission, which appends to the displayed list and
 * writes the same list back to storage.
 */
module Reviews {
  import opened Wrappers

  /** A booking record as the page reads it from storage; its status is a free string. */
  datatype StoredBooking = StoredBooking(id: int, provider: string, service: string, status: string)

  datatype Review = Review(id: int, provider: string, service: string, rating: int, comment: string, date: string)

  /** `bookings.filter(b => b.status === "completed")` */
  function Completed(bs: seq<StoredBooking>): (r: seq<StoredBooking>)
    ensures |r| <= |bs|
    ensures forall i :: 0 <= i < |r| ==> r[i].status == "completed" && r[i] in bs
    ensures forall i :: 0 <= i < |bs| && bs[i].status == "completed" ==> bs[i] in r
  {
    if bs == [] then []
    else (if bs[0].status == "completed" then [bs[0]] else []) + Completed(bs[1..])
  }

  /** The filter keeps the original order: filtering a concatenation concatenates the filtered parts. */
  lemma {:induction false} CompletedAppend(a: seq<StoredBooking>, b: seq<StoredBooking>)
    ensures Completed(a + b) == Completed(a) + Completed(b)
  {
    if a == [] {
      assert a + b == b;
    } else {
      assert (a + b)[1..] == a[1..] + b;
      CompletedAppend(a[1..], b);
    }
  }

  /** "Write Review" is offered exactly when some stored booking is completed. */
  predicate WriteReviewOffered(bs: seq<StoredBooking>) {
    |Completed(bs)| > 0
  }

  lemma WriteReviewOfferedIff(bs: seq<StoredBooking>)
    ensures WriteReviewOffered(bs) <==> exists i :: 0 <= i < |bs| && bs[i].status == "completed"
  {
    if WriteReviewOffered(bs) {
      assert Completed(bs)[0] in bs;
    }
  }

  /** Star `k` is drawn filled when `k` does not exceed the rating. */
  predicate StarFilled(k: int, rating: int) {
    k <= rating
  }

  /** The number of filled stars among 1..k. */
  function FilledAmong(k: nat, rating: int): (n: nat)
    ensures n <= k
  {
    if k == 0 then 0 else FilledAmong(k - 1, rating) + (if StarFilled(k, rating) then 1 else 0)
  }

  /** Of the five stars, exactly `rating` are filled when the rating is 0..5. */
  lemma {:induction false} FilledCount(k: nat, rating: int)
    requires 0 <= rating <= k
    ensures FilledAmong(k, rating) == rating
  {
    if k > rating {
      FilledCount(k - 1, rating);
    }
    else if k > 0 {
      FilledPrefix(k - 1, rating);
    }
  }

  /** Below the rating, every star is filled. */
  lemma {:induction false} FilledPrefix(k: nat, rating: int)
    requires k <= rating
    ensures FilledAmong(k, rating) == k
  {
    if k > 0 {
      FilledPrefix(k - 1, rating);
    }
  }

  datatype SubmitOutcome = RatingMissing | NoBookingSelected | Submitted

  class ReviewsPage {
    var reviews: seq<Review>
    /** The "userReviews" storage entry. */
    var storedReviews: seq<Review>
    var completedBookings: seq<StoredBooking>
    var selectedBooking: Option<StoredBooking>
    var rating: int
    var comment: string

    /** The displayed list is the stored one, and the rating is one the stars can set. */
    ghost predicate Valid()
      reads this
    {
      reviews == storedReviews && 0 <= rating <= 5
    }

    /** The mount effect: load the stored reviews and keep the completed bookings. */
    constructor (storedReviews: seq<Review>, storedBookings: seq<StoredBooking>)
      ensures Valid()
      ensures reviews == storedReviews && this.storedReviews == storedReviews
      ensures completedBookings == Completed(storedBookings)
      ensures selectedBooking == None && rating == 0 && comment == ""
    {
      reviews := storedReviews;
      this.storedReviews := storedReviews;
      completedBookings := Completed(storedBookings);
      selectedBooking := None;
      rating := 0;
      comment := "";
    }

    method SelectBooking(b: StoredBooking)
      modifies this`selectedBooking
      ensures selectedBooking == Some(b)
    {
      selectedBooking := Some(b);
    }

    method EditComment(text: string)
      modifies this`comment
      ensures comment == text
    {
      comment := text;
    }

    /** A click on star `star`: only the interactive widget sets the rating. */
    method ClickStar(star: int, interactive: bool)
      requires Valid()
      requires 1 <= star <= 5
      modifies this`rating
      ensures Valid()
      ensures rating == if interactive then star else old(rating)
    {
      if interactive {
        rating := star;
      }
    }

    /**
     * `handleSubmitReview`: a zero rating is refused; a missing selection
     * throws while the review is being built, before anything changes;
     * otherwise the review is appended, stored, and the form is reset.
     * `now` and `isoDate` stand for `Date.now()` and the ISO timestamp.
     */
    method SubmitReview(now: int, isoDate: string) returns (outcome: SubmitOutcome)
      requires Valid()
      modifies this`reviews, this`storedReviews, this`selectedBooking, this`rating, this`comment
      ensures Valid()
      ensures outcome == RatingMissing <==> old(rating) == 0
      ensures outcome == NoBookingSelected <==> old(rating) != 0 && old(selectedBooking).None?
      ensures outcome != Submitted ==>
                && reviews == old(reviews) && storedReviews == old(storedReviews)
                && selectedBooking == old(selectedBooking) && rating == old(rating) && comment == old(comment)
      ensures outcome == Submitted ==>
                var b := old(selectedBooking).value;
                && reviews == old(reviews) + [Review(now, b.provider, b.service, old(rating), old(comment), isoDate)]
                && 1 <= reviews[|reviews| - 1].rating <= 5
                && selectedBooking == None && rating == 0 && comment == ""
    {
      if rating == 0 {
        return RatingMissing;
      }
      if selectedBooking.None? {
        return NoBookingSelected;
      }
      var review := Review(now, selectedBooking.value.provider, selectedBooking.value.service, rating, comment, isoDate);
      var updated := reviews + [review];
      reviews := updated;
      storedReviews := updated;
      selectedBooking := None;
      rating := 0;
      comment := "";
      outcome := Submitted;
    }
  }
}
