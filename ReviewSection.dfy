/** The review section of a car: three reviews per page, a "has this user reviewed already"
    flag, the submit guard (only a user who booked the car and has not reviewed it yet), and the
    state of an edit in progress. */
module ReviewSection {
  import opened Wrappers
  import opened Records
  import JsArray

  const ItemsPerPage := 3
  const AnonymousAuthor := "Anonymous"

  /** `(currentPage - 1) * itemsPerPage`. */
  function StartIndex(page: int): int {
    (page - 1) * ItemsPerPage
  }

  /** The reviews shown on `page`: `reviews.slice(startIndex, startIndex + itemsPerPage)`. */
  function DisplayedReviews(reviews: seq<Review>, page: int): (r: seq<Review>)
    ensures |r| <= ItemsPerPage
    ensures page >= 1 ==>
      r == reviews[Min(StartIndex(page), |reviews|)..Min(StartIndex(page) + ItemsPerPage, |reviews|)]
  {
    JsArray.Slice(reviews, StartIndex(page), StartIndex(page) + ItemsPerPage)
  }

  /** `Math.ceil(reviews.length / itemsPerPage)`: the fewest pages that hold all the reviews. */
  function TotalPages(count: nat): (pages: nat)
    ensures pages * ItemsPerPage >= count
    ensures pages > 0 ==> (pages - 1) * ItemsPerPage < count
  {
    (count + ItemsPerPage - 1) / ItemsPerPage
  }

  /** Pages 1..m laid end to end. */
  function PagesThrough(reviews: seq<Review>, m: nat): seq<Review> {
    if m == 0 then [] else PagesThrough(reviews, m - 1) + DisplayedReviews(reviews, m)
  }

  /** The first m pages are exactly the first `3m` reviews (or all of them). */
  lemma {:induction false} PagesThroughIsPrefix(reviews: seq<Review>, m: nat)
    ensures PagesThrough(reviews, m) == reviews[..Min(m * ItemsPerPage, |reviews|)]
  {
    if m > 0 {
      PagesThroughIsPrefix(reviews, m - 1);
      var a := Min((m - 1) * ItemsPerPage, |reviews|);
      var b := Min(m * ItemsPerPage, |reviews|);
      assert DisplayedReviews(reviews, m) == reviews[a..b];
      assert reviews[..a] + reviews[a..b] == reviews[..b];
    }
  }

  /** Pages 1..totalPages, in order, are the whole list: every review is on some page, in its
      original position, and on no other. */
  lemma PagesCoverAllReviews(reviews: seq<Review>)
    ensures PagesThrough(reviews, TotalPages(|reviews|)) == reviews
  {
    PagesThroughIsPrefix(reviews, TotalPages(|reviews|));
    assert reviews[..|reviews|] == reviews;
  }

  /** The review at index k is on page `k / 3 + 1`, at position `k % 3`, and that page is one of the
      `totalPages` buttons; no other page's range contains k. */
  lemma PageOfReview(reviews: seq<Review>, k: nat, page: int)
    requires k < |reviews| && page >= 1
    ensures 1 <= k / ItemsPerPage + 1 <= TotalPages(|reviews|)
    ensures DisplayedReviews(reviews, k / ItemsPerPage + 1)[k % ItemsPerPage] == reviews[k]
    ensures StartIndex(page) <= k < StartIndex(page) + ItemsPerPage <==> page == k / ItemsPerPage + 1
  {
  }

  /** `fetchedReviews.some(r => r.userId === uid)`. */
  function AlreadyReviewed(reviews: seq<Review>, uid: string): (r: bool)
    ensures r <==> exists i :: 0 <= i < |reviews| && reviews[i].userId == uid
  {
    if reviews == [] then false
    else reviews[0].userId == uid || AlreadyReviewed(reviews[1..], uid)
  }

  /** The guard at the top of `handleSubmit`. */
  predicate SubmitRejected(hasBooked: bool, hasReviewed: bool) {
    !hasBooked || hasReviewed
  }

  /** When the rating form is rendered. */
  predicate FormShown(hasBooked: bool, hasReviewed: bool) {
    hasBooked && !hasReviewed
  }

  /** The form is on screen exactly when submitting it would get past the guard. */
  lemma FormShownIffSubmitAllowed(hasBooked: bool, hasReviewed: bool)
    ensures FormShown(hasBooked, hasReviewed) <==> !SubmitRejected(hasBooked, hasReviewed)
  {
  }

  /** The signed-in user as the auth provider reports it. */
  datatype AuthUser = AuthUser(uid: string, displayName: Option<string>)

  /** The document `handleSubmit` adds to the "reviews" collection. */
  datatype ReviewData = ReviewData(carId: string, userId: string, username: string, rating: int, comment: string)

  /** The comment/rating pair `handleSaveEdit` writes into an existing review. */
  datatype ReviewUpdate = ReviewUpdate(reviewId: string, comment: string, rating: int)

  /** The author name stored with a review: the display name, or "Anonymous" without one. */
  function AuthorName(user: AuthUser): (name: string)
    ensures name != ""
    ensures user.displayName.Some? && user.displayName.value != "" ==> name == user.displayName.value
    ensures (user.displayName.None? || user.displayName.value == "") ==> name == AnonymousAuthor
  {
    OrElse(user.displayName, AnonymousAuthor)
  }

  /** The Edit/Delete buttons are shown on the current user's own reviews, unless that review is
      the one being edited. */
  function EditControlsShown(currentUser: Option<AuthUser>, editingReviewId: Option<string>, rev: Review): (shown: bool)
    ensures shown ==> currentUser.Some? && currentUser.value.uid == rev.userId
    ensures shown ==> editingReviewId != Some(rev.id)
    ensures currentUser.Some? && currentUser.value.uid == rev.userId && editingReviewId != Some(rev.id) ==> shown
  {
    currentUser.Some? && currentUser.value.uid == rev.userId && editingReviewId != Some(rev.id)
  }

  /** The state of one review section. */
  class ReviewSectionState {
    const carId: string
    const currentUser: Option<AuthUser>
    var rating: int
    var review: string
    var currentPage: int
    var reviews: seq<Review>
    var hasBooked: bool
    var hasReviewed: bool
    var editingReviewId: Option<string>
    var editingComment: string
    var editingRating: int

    /** Only a signed-in user can have booked, and pages count from 1. */
    ghost predicate Valid()
      reads this
    {
      (hasBooked ==> currentUser.Some?) && currentPage >= 1
    }

    constructor (carId: string, currentUser: Option<AuthUser>)
      ensures Valid()
      ensures this.carId == carId && this.currentUser == currentUser
      ensures rating == 0 && review == "" && currentPage == 1 && reviews == []
      ensures !hasBooked && !hasReviewed
      ensures editingReviewId == None && editingComment == "" && editingRating == 0
    {
      this.carId := carId;
      this.currentUser := currentUser;
      rating := 0;
      review := "";
      currentPage := 1;
      reviews := [];
      hasBooked := false;
      hasReviewed := false;
      editingReviewId := None;
      editingComment := "";
      editingRating := 0;
    }

    /** The end of `fetchBookingStatus`: `found` says whether the user has a booking of this car.
        Without a user or a car id the check does not run. */
    method BookingStatusFetched(found: bool)
      requires Valid()
      modifies this`hasBooked
      ensures Valid()
      ensures hasBooked == if currentUser.None? || carId == "" then old(hasBooked) else found
    {
      if currentUser.None? || carId == "" {
        return;
      }
      hasBooked := found;
    }

    /** The end of `fetchReviews` with the reviews of this car. */
    method ReviewsFetched(fetched: seq<Review>)
      requires Valid()
      modifies this`reviews, this`hasReviewed
      ensures Valid()
      ensures reviews == if carId == "" then old(reviews) else fetched
      ensures hasReviewed == if carId != "" && currentUser.Some?
                             then AlreadyReviewed(fetched, currentUser.value.uid)
                             else old(hasReviewed)
    {
      if carId == "" {
        return;
      }
      reviews := fetched;
      if currentUser.Some? {
        hasReviewed := AlreadyReviewed(fetched, currentUser.value.uid);
      }
    }

    /** A page button. */
    method SelectPage(page: int)
      requires Valid() && page >= 1
      modifies this`currentPage
      ensures Valid() && currentPage == page
    {
      currentPage := page;
    }

    /** The reviews on the current page. */
    function Displayed(): (r: seq<Review>)
      reads this
      ensures |r| <= ItemsPerPage
      ensures currentPage >= 1 ==>
        r == reviews[Min(StartIndex(currentPage), |reviews|)..Min(StartIndex(currentPage) + ItemsPerPage, |reviews|)]
    {
      DisplayedReviews(reviews, currentPage)
    }

    /** `handleSubmit`: `sent` is the document passed to the store, None when the guard rejects;
        `writeSucceeds` is the outcome of that write. Only a successful write resets the form. */
    method HandleSubmit(writeSucceeds: bool) returns (sent: Option<ReviewData>)
      requires Valid()
      modifies this`rating, this`review
      ensures Valid()
      ensures SubmitRejected(hasBooked, hasReviewed) ==>
        sent == None && rating == old(rating) && review == old(review)
      ensures !SubmitRejected(hasBooked, hasReviewed) ==>
        sent == Some(ReviewData(carId, currentUser.value.uid, AuthorName(currentUser.value), old(rating), old(review)))
      ensures !SubmitRejected(hasBooked, hasReviewed) && writeSucceeds ==> rating == 0 && review == ""
      ensures !writeSucceeds ==> rating == old(rating) && review == old(review)
    {
      if !hasBooked || hasReviewed {
        return None;
      }
      var user := currentUser.value;
      sent := Some(ReviewData(carId, user.uid, OrElse(user.displayName, AnonymousAuthor), rating, review));
      if writeSucceeds {
        rating := 0;
        review := "";
      }
    }

    /** `handleEdit`: open the editor on one review with its current comment and rating. */
    method HandleEdit(reviewId: string, currentComment: string, currentRating: int)
      modifies this`editingReviewId, this`editingComment, this`editingRating
      ensures editingReviewId == Some(reviewId)
      ensures editingComment == currentComment && editingRating == currentRating
    {
      editingReviewId := Some(reviewId);
      editingComment := currentComment;
      editingRating := currentRating;
    }

    /** `handleSaveEdit`: `update` is what is written into the review; a successful write closes
        the editor and clears it, a failed one leaves the editor as it was. */
    method HandleSaveEdit(reviewId: string, writeSucceeds: bool) returns (update: ReviewUpdate)
      modifies this`editingReviewId, this`editingComment, this`editingRating
      ensures update == ReviewUpdate(reviewId, old(editingComment), old(editingRating))
      ensures writeSucceeds ==> editingReviewId == None && editingComment == "" && editingRating == 0
      ensures !writeSucceeds ==>
        editingReviewId == old(editingReviewId) && editingComment == old(editingComment) &&
        editingRating == old(editingRating)
    {
      update := ReviewUpdate(reviewId, editingComment, editingRating);
      if writeSucceeds {
        editingReviewId := None;
        editingComment := "";
        editingRating := 0;
      }
    }

    /** The Cancel button: closes the editor and keeps the draft comment and rating. */
    method CancelEdit()
      modifies this`editingReviewId
      ensures editingReviewId == None
    {
      editingReviewId := None;
    }
  }
}
