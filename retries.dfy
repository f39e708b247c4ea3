/** The retry policy both crawlers' `main` follows: run an attempt, and run
    another only after a record blocked by a challenge page, up to a fixed
    number of attempts in all. What attempt `j` returns is given as
    `records(j)`. */
module Retries {
  import opened Records

  /** Both crawlers allow five attempts. */
  const MaxRetries := 5

  /** The records the policy collects from attempt `k` on. */
  function Runs(records: nat -> Attempt, k: nat): seq<Attempt>
    decreases MaxRetries - k, records
  {
    if Blocked(records(k)) && k + 1 < MaxRetries then [records(k)] + Runs(records, k + 1) else [records(k)]
  }

  /** `out` lists attempts `k`, `k + 1`, ... in order; all but the last were
      blocked, and the last was blocked only if no attempt was left. */
  predicate RetryShape(records: nat -> Attempt, k: nat, out: seq<Attempt>)
  {
    && 1 <= |out| <= MaxRetries - k
    && (forall j :: 0 <= j < |out| ==> out[j] == records(k + j))
    && (forall j :: 0 <= j < |out| - 1 ==> Blocked(out[j]))
    && (|out| < MaxRetries - k ==> !Blocked(out[|out| - 1]))
  }

  /** The policy's records have that shape: at most five attempts, each
      after a blocked one. */
  lemma {:induction false} RunsFacts(records: nat -> Attempt, k: nat)
    requires k < MaxRetries
    ensures RetryShape(records, k, Runs(records, k))
    decreases MaxRetries - k
  {
    if Blocked(records(k)) && k + 1 < MaxRetries {
      var rest := Runs(records, k + 1);
      RunsFacts(records, k + 1);
      assert forall j :: 1 <= j < 1 + |rest| ==> ([records(k)] + rest)[j] == rest[j - 1];
    }
  }

  /** ... and nothing else has it: a run of records with that shape is
      exactly what the policy collects. */
  lemma {:induction false} ShapeIsRuns(records: nat -> Attempt, k: nat, out: seq<Attempt>)
    requires k < MaxRetries
    requires RetryShape(records, k, out)
    ensures out == Runs(records, k)
    decreases MaxRetries - k
  {
    assert out[0] == records(k + 0);
    if |out| > 1 {
      var rest := out[1..];
      forall j | 0 <= j < |rest|
        ensures rest[j] == records(k + 1 + j) && (j < |rest| - 1 ==> Blocked(rest[j]))
      {
        assert rest[j] == out[j + 1];
      }
      ShapeIsRuns(records, k + 1, rest);
      assert out == [out[0]] + rest;
    } else {
      assert out == [out[0]];
    }
  }
}
