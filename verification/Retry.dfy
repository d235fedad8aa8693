/** Bounded retry of admissions: a counter per admission id, one byte wide. */
module Retry {
  newtype U8 = x: int | 0 <= x < 256

  const MAX_PATCH_ATTEMPTS: U8 := 15

  datatype Resource = Pods | Deployments
  {
    function Prefix(): string { if Pods? then "pods" else "deployments" }
  }

  function AdmissionId(r: Resource, serviceId: string): string {
    r.Prefix() + "_" + serviceId
  }

  /** Pods and deployments of a service are counted apart. */
  lemma AdmissionIdInjective(r1: Resource, s1: string, r2: Resource, s2: string)
    requires AdmissionId(r1, s1) == AdmissionId(r2, s2)
    ensures r1 == r2 && s1 == s2
  {
    var id := AdmissionId(r1, s1);
    assert "pods"[0] != "deployments"[0];
    assert id[0] == r1.Prefix()[0] && id[0] == r2.Prefix()[0];
    assert id[|r1.Prefix()| + 1..] == s1 && id[|r2.Prefix()| + 1..] == s2;
  }

  /** How the patcher ended: a failure may carry a response for the API server. */
  datatype Outcome = Patched | FailedWithResponse | FailedWithoutResponse

  /** One admission; the patcher is not asked about an object that is no candidate. */
  datatype Admission = Admission(id: string, candidate: bool, outcome: Outcome)

  datatype Answer = Allow | RetryWithError(attempt: U8) | MaxRetryExceeded | Failed

  /** Every stored counter is at least one and leaves room for another. */
  predicate Bounded(attempts: map<string, U8>) {
    forall id :: id in attempts ==> 1 <= attempts[id] <= MAX_PATCH_ATTEMPTS
  }

  // ---------- The history of one id ----------

  /** Failures with a response since the id was last allowed; other ids do not matter. */
  function Streak(h: seq<Admission>, id: string): nat {
    if h == [] then 0
    else
      var before, a := Streak(h[..|h| - 1], id), h[|h| - 1];
      if a.id != id || !a.candidate then before
      else match a.outcome
           case Patched => 0
           case FailedWithResponse => before + 1
           case FailedWithoutResponse => before
  }

  /** The answer promised after the history `h`. */
  function Promised(h: seq<Admission>, a: Admission): Answer {
    if !a.candidate || a.outcome.Patched? then Allow
    else if a.outcome.FailedWithoutResponse? then Failed
    else
      var k := Streak(h, a.id) + 1;
      if k % 16 == 0 then MaxRetryExceeded else RetryWithError((k % 16) as U8)
  }

  /** The counters hold the streaks modulo sixteen, zero standing for no entry. */
  ghost predicate Counts(attempts: map<string, U8>, h: seq<Admission>) {
    forall id :: if Streak(h, id) % 16 == 0 then id !in attempts
                 else id in attempts && attempts[id] as int == Streak(h, id) % 16
  }

  lemma CountsBounded(attempts: map<string, U8>, h: seq<Admission>)
    requires Counts(attempts, h)
    ensures Bounded(attempts)
  {
  }

  lemma StreakAppend(h: seq<Admission>, a: Admission, id: string)
    ensures Streak(h + [a], id) ==
            if a.id != id || !a.candidate || a.outcome.FailedWithoutResponse? then Streak(h, id)
            else if a.outcome.Patched? then 0
            else Streak(h, id) + 1
  {
  }

  /** Only the counter of the admission's own id moves, and it follows the streak. */
  lemma CountsAfter(before: map<string, U8>, after: map<string, U8>, h: seq<Admission>, a: Admission)
    requires Counts(before, h)
    requires after - {a.id} == before - {a.id}
    requires var k := if a.id in before then before[a.id] as int else 0;
             if !a.candidate || a.outcome.FailedWithoutResponse? then after == before
             else if a.outcome.Patched? || k == 15 then a.id !in after
             else a.id in after && after[a.id] as int == k + 1
    ensures Counts(after, h + [a])
  {
    forall id ensures if Streak(h + [a], id) % 16 == 0 then id !in after
                      else id in after && after[id] as int == Streak(h + [a], id) % 16
    {
      StreakAppend(h, a, id);
      assert id != a.id ==> (id in after <==> id in after - {a.id}) && (id in before <==> id in before - {a.id});
    }
  }

  /** The store of the injector; admissions hold its lock, so they come one after another. */
  class Attempts {
    var attempts: map<string, U8>
    // Every admission so far.
    ghost var history: seq<Admission>

    ghost predicate Valid()
      reads this
    {
      Counts(attempts, history)
    }

    constructor ()
      ensures Valid() && history == [] && attempts == map[]
    {
      attempts, history := map[], [];
    }

    /** The counter of a failing id goes up; beyond fifteen it starts over. */
    method CountFailure(id: string) returns (answer: Answer)
      requires Bounded(attempts)
      modifies this`attempts
      ensures var k := (if id in old(attempts) then old(attempts)[id] else 0) + 1;
              if k == 16 then answer == MaxRetryExceeded && attempts == old(attempts) - {id}
              else answer == RetryWithError(k) && attempts == old(attempts)[id := k]
    {
      if id !in attempts {
        attempts := attempts[id := 0];
      }
      attempts := attempts[id := attempts[id] + 1];
      var attempt := attempts[id];
      if attempt > MAX_PATCH_ATTEMPTS {
        attempts := attempts - {id};
        answer := MaxRetryExceeded;
      } else {
        answer := RetryWithError(attempt);
      }
    }

    /** The k-th failure in a row of an id is the last one exactly when k is a multiple of
        sixteen, and otherwise says which attempt it was; whatever happens to other ids. */
    method Attempt(a: Admission) returns (answer: Answer)
      requires Valid()
      modifies this
      ensures Valid() && Bounded(attempts) && history == old(history) + [a]
      ensures answer == Promised(old(history), a)
    {
      ghost var h := history;
      CountsBounded(attempts, h);
      if a.candidate {
        match a.outcome {
          case Patched =>
            CountsAfter(attempts, attempts - {a.id}, h, a);
            attempts := attempts - {a.id};
            answer := Allow;
          case FailedWithResponse =>
            ghost var before := attempts;
            answer := CountFailure(a.id);
            CountsAfter(before, attempts, h, a);
          case FailedWithoutResponse =>
            CountsAfter(attempts, attempts, h, a);
            answer := Failed;
        }
      } else {
        CountsAfter(attempts, attempts, h, a);
        answer := Allow;
      }
      history := h + [a];
      CountsBounded(attempts, history);
    }
  }

  // ---------- About histories ----------

  /** The admissions of one id. */
  function Own(h: seq<Admission>, id: string): seq<Admission> {
    if h == [] then []
    else
      var before, a := Own(h[..|h| - 1], id), h[|h| - 1];
      if a.id == id then before + [a] else before
  }

  /** Ids do not affect each other: an id's streak is that of its own admissions, however
      they are interleaved with others. */
  lemma {:induction false} IdsAreIndependent(h: seq<Admission>, id: string)
    ensures Streak(h, id) == Streak(Own(h, id), id)
  {
    if h != [] {
      var front, a := h[..|h| - 1], h[|h| - 1];
      IdsAreIndependent(front, id);
      assert h == front + [a];
      StreakAppend(front, a, id);
      if a.id == id {
        StreakAppend(Own(front, id), a, id);
      }
    }
  }

  /** From a reset on, `k` failures in a row are answered with attempts 1 to 15, then the
      refusal, and so on. */
  lemma {:induction false} FailuresInARow(h: seq<Admission>, id: string, k: nat)
    requires Streak(h, id) == 0
    ensures Streak(h + seq(k, i => Admission(id, true, FailedWithResponse)), id) == k
  {
    var failure := Admission(id, true, FailedWithResponse);
    if k == 0 {
      assert h + seq(0, i => failure) == h;
    } else {
      FailuresInARow(h, id, k - 1);
      assert h + seq(k, i => failure) == (h + seq(k - 1, i => failure)) + [failure];
      StreakAppend(h + seq(k - 1, i => failure), failure, id);
    }
  }
}
