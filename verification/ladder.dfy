/**
 * The panel-count scoring ladder of both `satellite_verification` functions
 * (backend/services/satellite_analysis.py and
 * deliverables/pipeline_code/services/satellite_analysis.py). The two versions
 * share the buckets and differ in the guard on a decreased count.
 */
module PanelLadder {

  /** The five outcomes of comparing the detected panel counts. */
  datatype Bucket = NoPanels | Decreased | Verified | Close | Mismatch
  {
    /** The bucket's score: 0.0 only for no panels, 1.0 only when verified. */
    function Score(): (s: real)
      ensures 0.0 <= s <= 1.0
      ensures s == 0.0 <==> NoPanels?
      ensures s == 1.0 <==> Verified?
    {
      match this
      case NoPanels => 0.0
      case Decreased => 0.1
      case Verified => 1.0
      case Close => 0.8
      case Mismatch => 0.5
    }
  }

  predicate IsLadderScore(x: real)
  {
    x == 0.0 || x == 0.1 || x == 0.5 || x == 0.8 || x == 1.0
  }

  function AbsDiff(a: int, b: int): (d: nat)
    ensures d == a - b || d == b - a
  {
    if a >= b then a - b else b - a
  }

  /** The declared-count comparison: within 2 verifies, within 10 is close. */
  function MismatchBucket(countDiff: nat): (b: Bucket)
    ensures b == Verified <==> countDiff <= 2
    ensures b == Close <==> 2 < countDiff <= 10
    ensures b == Mismatch <==> 10 < countDiff
  {
    if countDiff <= 2 then Verified else if countDiff <= 10 then Close else Mismatch
  }

  /** The backend ladder: a decrease only counts when panels were seen before. */
  function BackendBucket(preCount: int, postCount: int, declared: int): (b: Bucket)
    ensures b == NoPanels <==> postCount == 0
    ensures b == Decreased <==> postCount != 0 && preCount > 0 && postCount < preCount
    ensures postCount != 0 && !(preCount > 0 && postCount < preCount) ==>
      b == MismatchBucket(AbsDiff(postCount, declared))
  {
    if postCount == 0 then NoPanels
    else if preCount > 0 && (postCount - preCount) < 0 then Decreased
    else MismatchBucket(AbsDiff(postCount, declared))
  }

  /** The batch-pipeline ladder: any drop from the pre-install count is a decrease. */
  function PipelineBucket(preCount: int, postCount: int, declared: int): (b: Bucket)
    ensures b == NoPanels <==> postCount == 0
    ensures b == Decreased <==> postCount != 0 && preCount > postCount
    ensures postCount != 0 && preCount <= postCount ==>
      b == MismatchBucket(AbsDiff(postCount, declared))
  {
    if postCount == 0 then NoPanels
    else if preCount > postCount then Decreased
    else MismatchBucket(AbsDiff(postCount, declared))
  }

  /** Every bucket scores one of five values, all in [0, 1]. */
  lemma ScoresAreLadderValues(b: Bucket)
    ensures IsLadderScore(b.Score())
    ensures 0.0 <= b.Score() <= 1.0
  {
  }

  /** A larger gap to the declared count never scores higher. */
  lemma MismatchScoreAntitone(d1: nat, d2: nat)
    requires d1 <= d2
    ensures MismatchBucket(d2).Score() <= MismatchBucket(d1).Score()
  {
  }

  /** On detected counts, which are never negative, the two ladders agree: the
      zero-post test runs first, so a positive post count below the pre count
      forces a positive pre count. */
  lemma LaddersAgree(preCount: nat, postCount: nat, declared: int)
    ensures BackendBucket(preCount, postCount, declared) == PipelineBucket(preCount, postCount, declared)
  {
  }

  /** The ladders differ only on a negative pre-install count. */
  lemma LaddersDivergeOnNegativePre()
    ensures BackendBucket(-1, -3, 5) == MismatchBucket(8)
    ensures PipelineBucket(-1, -3, 5) == Decreased
  {
  }
}
