/** The results-polling loop both crawlers run after submitting: a fixed
    number of polls, each of which either ends the loop (a challenge page, the
    result, a "not found" text) or lets it go on. What a poll concludes is
    decided by each crawler's own checks; the loop itself is the same. */
module Polling {

  /** What one poll concludes. */
  datatype Verdict = ChallengeShown | ResultShown | NotFoundShown | Pending

  /** How the loop ends: at the poll (0-based) that concluded, or after the last poll. */
  datatype PollEnd = Challenged(at: nat) | Ready(at: nat) | NotFound(at: nat) | OutOfTime

  /** The loop started at poll `i`, with `limit` polls in all. */
  function PollFrom(verdicts: nat -> Verdict, limit: nat, i: nat): (r: PollEnd)
    ensures !r.OutOfTime? ==> i <= r.at < limit
    decreases limit - i, verdicts
  {
    if i >= limit then OutOfTime
    else match verdicts(i)
      case ChallengeShown => Challenged(i)
      case ResultShown => Ready(i)
      case NotFoundShown => NotFound(i)
      case Pending => PollFrom(verdicts, limit, i + 1)
  }

  /** The loop stops at the first poll that is not pending, and that poll's
      verdict names the outcome; running out of polls means every poll was pending. */
  lemma {:induction false} PollFromFacts(verdicts: nat -> Verdict, limit: nat, i: nat)
    ensures var r := PollFrom(verdicts, limit, i);
      && (!r.OutOfTime? ==> forall j :: i <= j < r.at ==> verdicts(j) == Pending)
      && (r.OutOfTime? ==> forall j :: i <= j < limit ==> verdicts(j) == Pending)
      && (r.Challenged? ==> verdicts(r.at) == ChallengeShown)
      && (r.Ready? ==> verdicts(r.at) == ResultShown)
      && (r.NotFound? ==> verdicts(r.at) == NotFoundShown)
    decreases limit - i
  {
    if i < limit && verdicts(i) == Pending {
      PollFromFacts(verdicts, limit, i + 1);
    }
  }

  /** What the loop ends as when the poll `at` concludes `v`. */
  function EndFor(v: Verdict, at: nat): PollEnd
  {
    match v
    case ChallengeShown => Challenged(at)
    case ResultShown => Ready(at)
    case NotFoundShown => NotFound(at)
    case Pending => OutOfTime
  }

  /** Conversely, the first poll that is not pending ends the loop with its
      verdict, and when every poll is pending the loop runs out. */
  lemma {:induction false} PollFromFirst(verdicts: nat -> Verdict, limit: nat, i: nat, k: nat)
    requires i <= k <= limit
    requires forall j :: i <= j < k ==> verdicts(j) == Pending
    requires k < limit ==> verdicts(k) != Pending
    ensures PollFrom(verdicts, limit, i) == if k < limit then EndFor(verdicts(k), k) else OutOfTime
    decreases k - i
  {
    if i < k {
      PollFromFirst(verdicts, limit, i + 1, k);
    }
  }

  /** Only the polls the loop actually made matter: two verdict streams
      that agree up to and including the poll that ended the loop (up to the
      last poll, when it ran out) end the loop the same way, whatever they
      say afterwards. */
  lemma {:induction false} PollFromPrefix(v1: nat -> Verdict, v2: nat -> Verdict, limit: nat, i: nat)
    requires forall j :: i <= j < PollCount(PollFrom(v1, limit, i), limit) ==> v1(j) == v2(j)
    ensures PollFrom(v1, limit, i) == PollFrom(v2, limit, i)
    decreases limit - i
  {
    if i < limit {
      assert v1(i) == v2(i);
      if v1(i) == Pending {
        PollFromPrefix(v1, v2, limit, i + 1);
      }
    }
  }

  /** Number of polls the loop makes before ending as `end`. */
  function PollCount(end: PollEnd, limit: nat): nat
  {
    if end.OutOfTime? then limit else end.at + 1
  }
}
