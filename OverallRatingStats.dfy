/** The rating summary: number of reviews, mean rating, and a five-bucket histogram of the ratings
    1..5. A rating outside 1..5 is in no bucket but still counts towards the sum and the total. */
module OverallRatingStats {
  import opened Records

  /** `reviews.reduce((acc, review) => acc + review.rating, 0)`, folding from the left. */
  function RatingSum(reviews: seq<Review>): int
    decreases |reviews|
  {
    if reviews == [] then 0 else RatingSum(reviews[..|reviews| - 1]) + reviews[|reviews| - 1].rating
  }

  /** How many of the reviews carry exactly `star`. */
  function CountRating(reviews: seq<Review>, star: int): (c: nat)
    ensures c <= |reviews|
    ensures c == 0 <==> forall i :: 0 <= i < |reviews| ==> reviews[i].rating != star
    decreases |reviews|
  {
    if reviews == [] then 0
    else CountRating(reviews[..|reviews| - 1], star) + (if reviews[|reviews| - 1].rating == star then 1 else 0)
  }

  predicate AllInRange(reviews: seq<Review>) {
    forall i :: 0 <= i < |reviews| ==> 1 <= reviews[i].rating <= 5
  }

  /** The mean rating, 0 for no reviews. */
  function OverallRating(reviews: seq<Review>): (mean: real)
    ensures reviews == [] ==> mean == 0.0
    ensures reviews != [] ==> mean * (|reviews| as real) == RatingSum(reviews) as real
  {
    if |reviews| > 0 then RatingSum(reviews) as real / |reviews| as real else 0.0
  }

  /** The sum of the five buckets. */
  function BucketTotal(reviews: seq<Review>): nat {
    CountRating(reviews, 1) + CountRating(reviews, 2) + CountRating(reviews, 3) +
    CountRating(reviews, 4) + CountRating(reviews, 5)
  }

  /** The histogram built by the `forEach` loop, which increments `distribution[rating - 1]`
      in place for each rating in 1..5. */
  method Distribution(reviews: seq<Review>) returns (d: seq<nat>)
    ensures |d| == 5
    ensures forall i :: 0 <= i < 5 ==> d[i] == CountRating(reviews, i + 1)
  {
    var distribution := new nat[5](_ => 0);
    for n := 0 to |reviews|
      invariant forall i :: 0 <= i < 5 ==> distribution[i] == CountRating(reviews[..n], i + 1)
    {
      assert reviews[..n + 1][..n] == reviews[..n];
      var rating := reviews[n].rating;
      if rating >= 1 && rating <= 5 {
        distribution[rating - 1] := distribution[rating - 1] + 1;
      }
    }
    assert reviews[..|reviews|] == reviews;
    d := distribution[..];
  }

  datatype Stats = Stats(overallRating: real, totalReviews: nat, ratingDistribution: seq<nat>)

  /** The memoised summary: total, mean and histogram. */
  method ComputeStats(reviews: seq<Review>) returns (s: Stats)
    ensures s.totalReviews == |reviews|
    ensures s.overallRating == OverallRating(reviews)
    ensures |s.ratingDistribution| == 5
    ensures forall i :: 0 <= i < 5 ==> s.ratingDistribution[i] == CountRating(reviews, i + 1)
  {
    var total := |reviews|;
    var distribution := Distribution(reviews);
    s := Stats(OverallRating(reviews), total, distribution);
  }

  /** The width of one bar: `count / total * 100`, or 0 when there are no reviews. */
  function Percentage(count: nat, total: nat): (p: real)
    ensures total == 0 ==> p == 0.0
    ensures count <= total ==> 0.0 <= p <= 100.0
    ensures total > 0 && count == total ==> p == 100.0
    ensures total > 0 ==> p * (total as real) == 100.0 * (count as real)
  {
    if total > 0 then (count as real / total as real) * 100.0 else 0.0
  }

  /** Appending one review adds its rating to the sum, and to the bucket of that rating only. */
  lemma AppendOne(reviews: seq<Review>, r: Review, star: int)
    ensures RatingSum(reviews + [r]) == RatingSum(reviews) + r.rating
    ensures CountRating(reviews + [r], star) == CountRating(reviews, star) + (if r.rating == star then 1 else 0)
  {
    assert (reviews + [r])[..|reviews|] == reviews;
  }

  /** A rating outside 1..5 is in no bucket, yet it is counted in the total and in the sum. */
  lemma OutOfRangeRatingIsInNoBucket(reviews: seq<Review>, r: Review)
    requires r.rating < 1 || r.rating > 5
    ensures BucketTotal(reviews + [r]) == BucketTotal(reviews)
    ensures |reviews + [r]| == |reviews| + 1
    ensures RatingSum(reviews + [r]) == RatingSum(reviews) + r.rating
  {
    AppendOne(reviews, r, 1);
    AppendOne(reviews, r, 2);
    AppendOne(reviews, r, 3);
    AppendOne(reviews, r, 4);
    AppendOne(reviews, r, 5);
  }

  /** The buckets never hold more reviews than there are, and all of them when every rating is
      in 1..5. */
  lemma {:induction false} BucketTotalBound(reviews: seq<Review>)
    ensures BucketTotal(reviews) <= |reviews|
    ensures AllInRange(reviews) ==> BucketTotal(reviews) == |reviews|
    decreases |reviews|
  {
    if reviews != [] {
      var init := reviews[..|reviews| - 1];
      var last := reviews[|reviews| - 1];
      assert init + [last] == reviews;
      BucketTotalBound(init);
      AppendOne(init, last, 1);
      AppendOne(init, last, 2);
      AppendOne(init, last, 3);
      AppendOne(init, last, 4);
      AppendOne(init, last, 5);
      if AllInRange(reviews) {
        assert AllInRange(init) by {
          forall i | 0 <= i < |init| ensures 1 <= init[i].rating <= 5 {
            assert init[i] == reviews[i];
          }
        }
      }
    }
  }

  /** With every rating in 1..5 the sum lies between the total and five times the total. */
  lemma {:induction false} RatingSumBounds(reviews: seq<Review>)
    requires AllInRange(reviews)
    ensures |reviews| <= RatingSum(reviews) <= 5 * |reviews|
    decreases |reviews|
  {
    if reviews != [] {
      var init := reviews[..|reviews| - 1];
      assert AllInRange(init) by {
        forall i | 0 <= i < |init| ensures 1 <= init[i].rating <= 5 {
          assert init[i] == reviews[i];
        }
      }
      RatingSumBounds(init);
    }
  }

  /** A factor q with q * n between n and 5n lies between 1 and 5. */
  lemma FactorBounds(sum: real, n: real, q: real)
    requires n > 0.0 && n <= sum <= 5.0 * n && sum == q * n
    ensures 1.0 <= q <= 5.0
  {
    assert (q - 1.0) * n == sum - n >= 0.0;
    assert (5.0 - q) * n == 5.0 * n - sum >= 0.0;
  }

  /** The mean of ratings in 1..5 lies in 1..5. */
  lemma OverallRatingBounds(reviews: seq<Review>)
    requires AllInRange(reviews) && |reviews| > 0
    ensures 1.0 <= OverallRating(reviews) <= 5.0
  {
    RatingSumBounds(reviews);
    var sum, n := RatingSum(reviews) as real, |reviews| as real;
    assert sum == (sum / n) * n;
    FactorBounds(sum, n, sum / n);
  }
}
