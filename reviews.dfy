/*
 * models/review/review.model.js, services/review/review.service.js and the
 * statistics half of services/store/store.service.js: the helpfulness vote
 * tally, flagging, the product-rating pre-save hook, and the review
 * statistics with their rating distribution. The list a repository query
 * returns is a parameter; clock readings are the parameter `now`.
 */
module Reviews {
  import opened Common

  /** Three flags, from anyone, put a review into the flagged state. */
  const FLAG_THRESHOLD: nat := 3

  const MSG_ALREADY_VOTED: string := "User has already voted on this review"
  const VOTE_HELPFUL: string := "helpful"

  datatype ReviewStatus = Pending | Approved | Rejected | Flagged

  datatype Voter = Voter(user: string, vote: string, votedAt: int)
  datatype Flag = Flag(user: string, reason: string, flaggedAt: int)

  /** A JavaScript number as far as the model needs one: a real value, or NaN. */
  datatype Number = Num(value: real) | NaN

  /** A stored review: the fields the statistics and the rating hook read. */
  datatype Review = Review(
    id: string,
    product: string,
    overall: real,
    status: ReviewStatus,
    isVerified: bool,
    helpful: int,
    notHelpful: int)

  /** The helpfulness sub-document. */
  datatype Votes = Votes(helpful: int, notHelpful: int, voters: seq<Voter>)

  /** getHelpfulnessScore: the share of helpful votes, as a percentage. */
  function HelpfulnessScore(helpful: int, notHelpful: int): (r: real)
    requires helpful >= 0 && notHelpful >= 0
    ensures 0.0 <= r <= 100.0
    ensures r == 0.0 <==> helpful == 0
    ensures r == 100.0 <==> helpful > 0 && notHelpful == 0
  {
    var total := helpful + notHelpful;
    if total == 0 then 0.0
    else
      ShareBounds(helpful, total);
      (helpful as real / total as real) * 100.0
  }

  /** A part of a positive whole is a share between 0 and 1, and 1 only for the whole. */
  lemma ShareBounds(part: int, total: int)
    requires 0 <= part <= total && total > 0
    ensures 0.0 <= part as real / total as real <= 1.0
    ensures part as real / total as real == 0.0 <==> part == 0
    ensures part as real / total as real == 1.0 <==> part == total
  {
    var q := part as real / total as real;
    assert q * total as real == part as real;
  }

  /** hasUserVoted: some voter entry carries that user. */
  predicate HasUserVoted(voters: seq<Voter>, user: string)
  {
    exists k :: 0 <= k < |voters| && voters[k].user == user
  }

  /** addVote: reject a second vote by the same user, otherwise record the vote and bump one counter. */
  function AddVoteSpec(v: Votes, user: string, vote: string, now: int): (r: Result<Votes>)
  {
    if HasUserVoted(v.voters, user) then Fail(Thrown(MSG_ALREADY_VOTED))
    else
      var voters := v.voters + [Voter(user, vote, now)];
      if vote == VOTE_HELPFUL then Ok(Votes(v.helpful + 1, v.notHelpful, voters))
      else Ok(Votes(v.helpful, v.notHelpful + 1, voters))
  }

  /** The counters account for every voter, and each user voted once. */
  predicate Tallied(v: Votes)
  {
    v.helpful >= 0 && v.notHelpful >= 0 && v.helpful + v.notHelpful == |v.voters| &&
    forall i, j :: 0 <= i < j < |v.voters| ==> v.voters[i].user != v.voters[j].user
  }

  /** A vote keeps the tally: one more voter, exactly one counter up by one, earlier voters untouched. */
  lemma AddVoteKeepsTally(v: Votes, user: string, vote: string, now: int)
    requires Tallied(v)
    ensures var r := AddVoteSpec(v, user, vote, now);
            r.Ok? <==> !HasUserVoted(v.voters, user)
    ensures var r := AddVoteSpec(v, user, vote, now);
            r.Ok? ==> Tallied(r.value) && r.value.voters[..|v.voters|] == v.voters &&
                      (vote == VOTE_HELPFUL <==> r.value.helpful == v.helpful + 1) &&
                      r.value.helpful + r.value.notHelpful == v.helpful + v.notHelpful + 1
  {
    var r := AddVoteSpec(v, user, vote, now);
    if r.Ok? {
      var w := r.value.voters;
      assert w[..|v.voters|] == v.voters;
      forall i, j | 0 <= i < j < |w| ensures w[i].user != w[j].user {
        if j == |v.voters| {
          assert w[i] == v.voters[i];
        }
      }
    }
  }

  /** The same user voting twice: the second call is refused, whatever the votes. */
  lemma SecondVoteRejected(v: Votes, user: string, first: string, second: string, t1: int, t2: int)
    requires AddVoteSpec(v, user, first, t1).Ok?
    ensures AddVoteSpec(AddVoteSpec(v, user, first, t1).value, user, second, t2) == Fail(Thrown(MSG_ALREADY_VOTED))
  {
    var w := AddVoteSpec(v, user, first, t1).value.voters;
    assert w[|w| - 1].user == user;
  }

  /** flagReview: append the flag (no per-user check), and flag the review from the third flag on. */
  function FlagSpec(flags: seq<Flag>, status: ReviewStatus, user: string, reason: string, now: int): (seq<Flag>, ReviewStatus)
  {
    var flags' := flags + [Flag(user, reason, now)];
    (flags', if |flags'| >= FLAG_THRESHOLD then Flagged else status)
  }

  /** Three flags by one and the same user are enough to flag any review. */
  lemma ThreeFlagsFromOneUserFlag(status: ReviewStatus, user: string, reason: string, t1: int, t2: int, t3: int)
    ensures var (f1, s1) := FlagSpec([], status, user, reason, t1);
            var (f2, s2) := FlagSpec(f1, s1, user, reason, t2);
            var (f3, s3) := FlagSpec(f2, s2, user, reason, t3);
            s1 == status && s2 == status && s3 == Flagged && |f3| == 3
  {
  }

  /** A review document: the vote tally, the flags and the moderation status. */
  class ReviewDoc {
    var votes: Votes
    var flaggedBy: seq<Flag>
    var status: ReviewStatus

    constructor ()
      ensures votes == Votes(0, 0, []) && flaggedBy == [] && status == Pending
    {
      votes := Votes(0, 0, []);
      flaggedBy := [];
      status := Pending;
    }

    function Score(): (r: real)
      reads this
      requires Tallied(votes)
      ensures 0.0 <= r <= 100.0
    {
      HelpfulnessScore(votes.helpful, votes.notHelpful)
    }

    method AddVote(user: string, vote: string, now: int) returns (r: Result<()>)
      modifies this
      ensures var spec := AddVoteSpec(old(votes), user, vote, now);
              (spec.Ok? ==> r == Ok(()) && votes == spec.value) &&
              (spec.Fail? ==> r == Fail(spec.error) && votes == old(votes))
      ensures flaggedBy == old(flaggedBy) && status == old(status)
    {
      if HasUserVoted(votes.voters, user) {
        return Fail(Thrown(MSG_ALREADY_VOTED));
      }
      var voters := votes.voters + [Voter(user, vote, now)];
      if vote == VOTE_HELPFUL {
        votes := Votes(votes.helpful + 1, votes.notHelpful, voters);
      } else {
        votes := Votes(votes.helpful, votes.notHelpful + 1, voters);
      }
      r := Ok(());
    }

    method FlagReview(user: string, reason: string, now: int)
      modifies this
      ensures (flaggedBy, status) == FlagSpec(old(flaggedBy), old(status), user, reason, now)
      ensures votes == old(votes)
    {
      flaggedBy := flaggedBy + [Flag(user, reason, now)];
      if |flaggedBy| >= FLAG_THRESHOLD {
        status := Flagged;
      }
    }
  }

  /** reviews.reduce((sum, review) => sum + review.rating.overall, 0). */
  function SumOverall(reviews: seq<Review>): real
  {
    if reviews == [] then 0.0 else SumOverall(reviews[..|reviews| - 1]) + reviews[|reviews| - 1].overall
  }

  predicate RatedOneToFive(reviews: seq<Review>)
  {
    forall k :: 0 <= k < |reviews| ==> 1.0 <= reviews[k].overall <= 5.0
  }

  /** With every rating in 1..5, the sum lies between the count and five times the count. */
  lemma {:induction false} SumBounds(reviews: seq<Review>)
    requires RatedOneToFive(reviews)
    ensures |reviews| as real <= SumOverall(reviews) <= 5.0 * |reviews| as real
  {
    if reviews != [] {
      SumBounds(reviews[..|reviews| - 1]);
    }
  }

  /** A mean of values in 1..5 lies in 1..5. */
  lemma MeanBounds(sum: real, n: int)
    requires n > 0 && n as real <= sum <= 5.0 * n as real
    ensures 1.0 <= sum / n as real <= 5.0
  {
    var q := sum / n as real;
    assert q * n as real == sum;
  }

  /** The approved reviews of a product, in stored order. */
  function ApprovedOf(reviews: seq<Review>, product: string): (r: seq<Review>)
    ensures forall x :: x in r <==> x in reviews && x.product == product && x.status == Approved
  {
    Filter(reviews, (x: Review) => x.product == product && x.status == Approved)
  }

  /** totalRating / reviews.length: NaN when there is nothing to average (0 / 0). */
  function Mean(reviews: seq<Review>): (m: Number)
    ensures m.NaN? <==> reviews == []
  {
    if reviews == [] then NaN else Num(SumOverall(reviews) / |reviews| as real)
  }

  /** The mean of ratings in 1..5 lies in 1..5. */
  lemma MeanWithinStars(reviews: seq<Review>)
    requires reviews != [] && RatedOneToFive(reviews)
    ensures 1.0 <= Mean(reviews).value <= 5.0
  {
    SumBounds(reviews);
    MeanBounds(SumOverall(reviews), |reviews|);
  }

  /** The product's analytics.rating as the hook writes it. */
  datatype ProductRating = ProductRating(average: Number, count: nat)

  /**
   * The pre-save hook as written: when the rating or the status changed and the
   * product exists, it averages the approved reviews already STORED, that is
   * without the change being saved.
   */
  function RatingHookAsWritten(stored: seq<Review>, doc: Review, ratingOrStatusModified: bool, productExists: bool): Option<ProductRating>
  {
    if ratingOrStatusModified && productExists then
      var approved := ApprovedOf(stored, doc.product);
      Some(ProductRating(Mean(approved), |approved|))
    else None
  }

  /** The collection as it is once `doc` is saved: its stored version replaced, or it appended when new. */
  function SavedWith(stored: seq<Review>, doc: Review): (r: seq<Review>)
    ensures doc in r
    ensures forall x :: x in r ==> x == doc || x in stored
  {
    var i := FindIndex(stored, (x: Review) => x.id == doc.id);
    if i < 0 then stored + [doc]
    else
      assert stored[i := doc][i] == doc;
      stored[i := doc]
  }

  /** The hook as evidently intended: the average over the approved reviews including the one being saved. */
  function RatingHookCorrected(stored: seq<Review>, doc: Review, ratingOrStatusModified: bool, productExists: bool): Option<ProductRating>
  {
    if ratingOrStatusModified && productExists then
      var approved := ApprovedOf(SavedWith(stored, doc), doc.product);
      Some(ProductRating(Mean(approved), |approved|))
    else None
  }

  /** As written, approving the first review of a product leaves its rating at NaN over zero reviews. */
  lemma FirstApprovalMissedAsWritten(doc: Review)
    requires doc.status == Approved && doc.overall == 5.0
    ensures RatingHookAsWritten([], doc, true, true) == Some(ProductRating(NaN, 0))
    ensures RatingHookCorrected([], doc, true, true) == Some(ProductRating(Num(5.0), 1))
  {
    var approved := ApprovedOf([doc], doc.product);
    assert approved == [doc] by {
      assert [doc][..0] == [];
    }
    assert SumOverall(approved) == 5.0 by {
      assert approved[..0] == [];
    }
  }

  /** Corrected: an approved review being saved is always counted, and the average stays within 1..5. */
  lemma CorrectedHookCountsTheSavedReview(stored: seq<Review>, doc: Review)
    requires doc.status == Approved && RatedOneToFive(stored) && 1.0 <= doc.overall <= 5.0
    ensures var r := RatingHookCorrected(stored, doc, true, true);
            r.Some? && r.value.count >= 1 && r.value.average.Num? &&
            1.0 <= r.value.average.value <= 5.0
  {
    var saved := SavedWith(stored, doc);
    var approved := ApprovedOf(saved, doc.product);
    assert doc in approved;
    assert RatedOneToFive(approved) by {
      forall k | 0 <= k < |approved| ensures 1.0 <= approved[k].overall <= 5.0 {
        assert approved[k] in saved;
        if approved[k] != doc {
          var j :| 0 <= j < |stored| && stored[j] == approved[k];
        }
      }
    }
    MeanWithinStars(approved);
  }

  // ---- Statistics (review.service.js getReviewStats, store.service.js getStoreStats) ----

  /** `distribution[rating]++` on a plain object: a missing key reads undefined, and undefined + 1 is NaN. */
  function Bump(dist: map<real, Number>, key: real): map<real, Number>
  {
    if key in dist && dist[key].Num? then dist[key := Num(dist[key].value + 1.0)]
    else dist[key := NaN]
  }

  function EmptyDistribution(): map<real, Number>
  {
    map[1.0 := Num(0.0), 2.0 := Num(0.0), 3.0 := Num(0.0), 4.0 := Num(0.0), 5.0 := Num(0.0)]
  }

  /** calculateRatingDistribution: buckets 1..5 from zero, one bump per review in order. */
  function Distribution(reviews: seq<Review>): map<real, Number>
  {
    if reviews == [] then EmptyDistribution()
    else Bump(Distribution(reviews[..|reviews| - 1]), reviews[|reviews| - 1].overall)
  }

  /** The loop of calculateRatingDistribution. */
  method RatingDistribution(reviews: seq<Review>) returns (dist: map<real, Number>)
    ensures dist == Distribution(reviews)
  {
    dist := EmptyDistribution();
    var k := 0;
    while k < |reviews|
      invariant 0 <= k <= |reviews|
      invariant dist == Distribution(reviews[..k])
    {
      assert reviews[..k + 1][..k] == reviews[..k];
      dist := Bump(dist, reviews[k].overall);
      k := k + 1;
    }
    assert reviews[..|reviews|] == reviews;
  }

  predicate WholeStars(r: real)
  {
    r == 1.0 || r == 2.0 || r == 3.0 || r == 4.0 || r == 5.0
  }

  predicate AllWholeStars(reviews: seq<Review>)
  {
    forall k :: 0 <= k < |reviews| ==> WholeStars(reviews[k].overall)
  }

  /** How many reviews carry exactly this rating. */
  function RatedAs(reviews: seq<Review>, stars: real): nat
  {
    Count(reviews, (x: Review) => x.overall == stars)
  }

  /** With whole-star ratings, the buckets are exactly 1..5 and each holds the number of reviews with that rating. */
  lemma {:induction false} DistributionCounts(reviews: seq<Review>)
    requires AllWholeStars(reviews)
    ensures var d := Distribution(reviews);
            d.Keys == {1.0, 2.0, 3.0, 4.0, 5.0} &&
            forall b :: b in d ==> d[b] == Num(RatedAs(reviews, b) as real)
  {
    if reviews != [] {
      var init := reviews[..|reviews| - 1];
      assert AllWholeStars(init) by {
        forall k | 0 <= k < |init| ensures WholeStars(init[k].overall) {
          assert init[k] == reviews[k];
        }
      }
      DistributionCounts(init);
    }
  }

  /** Every review lands in one of the five buckets, so the buckets add up to the number of reviews. */
  lemma {:induction false} BucketsAddUp(reviews: seq<Review>)
    requires AllWholeStars(reviews)
    ensures RatedAs(reviews, 1.0) + RatedAs(reviews, 2.0) + RatedAs(reviews, 3.0) +
            RatedAs(reviews, 4.0) + RatedAs(reviews, 5.0) == |reviews|
  {
    if reviews != [] {
      var init := reviews[..|reviews| - 1];
      assert AllWholeStars(init) by {
        forall k | 0 <= k < |init| ensures WholeStars(init[k].overall) {
          assert init[k] == reviews[k];
        }
      }
      BucketsAddUp(init);
    }
  }

  /** A rating that is not a whole star leaves a NaN bucket under its own key. */
  lemma HalfStarMakesNaN(reviews: seq<Review>, r: Review)
    requires r.overall == 4.5
    ensures Distribution(reviews + [r])[4.5] == NaN
  {
    assert (reviews + [r])[..|reviews|] == reviews;
    DistributionNaNStays(reviews, 4.5);
  }

  /** Keys outside 1..5 only ever hold NaN. */
  lemma {:induction false} DistributionNaNStays(reviews: seq<Review>, key: real)
    requires !WholeStars(key)
    ensures key in Distribution(reviews) ==> Distribution(reviews)[key] == NaN
  {
    if reviews != [] {
      DistributionNaNStays(reviews[..|reviews| - 1], key);
    }
  }

  datatype Stats = Stats(
    totalReviews: nat,
    averageRating: real,
    ratingDistribution: map<real, Number>,
    verifiedReviews: nat,
    helpfulReviews: nat)

  /** getReviewStats over the reviews the store query returned. */
  function ReviewStats(reviews: seq<Review>): (s: Stats)
    ensures s.totalReviews == |reviews|
    ensures reviews == [] ==> s.averageRating == 0.0
    ensures s.verifiedReviews <= s.totalReviews && s.helpfulReviews <= s.totalReviews
  {
    var average := if reviews == [] then 0.0 else Mean(reviews).value;
    Stats(|reviews|, average, Distribution(reviews),
          |Filter(reviews, (x: Review) => x.isVerified)|,
          |Filter(reviews, (x: Review) => x.helpful > 0)|)
  }

  /** With ratings in 1..5 the average of a non-empty list lies in 1..5. */
  lemma StatsAverageWithinStars(reviews: seq<Review>)
    requires reviews != [] && RatedOneToFive(reviews)
    ensures 1.0 <= ReviewStats(reviews).averageRating <= 5.0
  {
    MeanWithinStars(reviews);
  }

  /** verifiedReviews and helpfulReviews are the counts of verified reviews and of reviews with a helpful vote. */
  lemma StatsCounts(reviews: seq<Review>)
    ensures ReviewStats(reviews).verifiedReviews == Count(reviews, (x: Review) => x.isVerified)
    ensures ReviewStats(reviews).helpfulReviews == Count(reviews, (x: Review) => x.helpful > 0)
  {
    FilterCount(reviews, (x: Review) => x.isVerified);
    FilterCount(reviews, (x: Review) => x.helpful > 0);
  }
}
