/** The readiness probe of one domain: retries under an elapsed-time budget, on a real clock. */
module RetryProbe {
  import opened Options
  import opened Text

  /** One attempt: an HTTP status, or an error text and no status. */
  datatype Answer = Answer(status: Option<int>, error: string)

  /** What the probe meets: for each attempt from 1 on its answer and how long it took, and
      how long the sleep after it really was. */
  datatype World = World(answer: nat -> Answer, took: nat -> real, slept: nat -> real)

  const STARTING_STATUSES: set<int> := {502, 503, 504}
  const DEFINITIVE_BUDGET := 10.0
  const RETRY_BACKOFF := 2.0
  const RETRY_BACKOFF_MAX := 10.0
  const MAX_ATTEMPTS: nat := 20

  datatype Kind = Starting | Definitive | Fatal

  predicate Good(a: Answer) {
    a.status.Some? && 200 <= a.status.value < 400
  }

  function ClassifyFailure(a: Answer): Kind {
    if a.status.Some? then (if a.status.value in STARTING_STATUSES then Starting else Definitive)
    else
      var kind := Lower(LStrip(RStrip(Before(a.error, ':'))));
      if kind == "dns failure" then Fatal
      else if kind == "timeout" || kind == "connection refused" then Starting
      else Definitive
  }

  function Doubled(n: nat): (r: real)
    ensures r >= 1.0
  {
    if n == 0 then 1.0 else 2.0 * Doubled(n - 1)
  }

  /** The sleep asked for after an attempt: 2, 4, 8, 10, 10, ... */
  function BackoffFor(attempt: nat): real
    requires attempt >= 1
  {
    var b := RETRY_BACKOFF * Doubled(attempt - 1);
    if b < RETRY_BACKOFF_MAX then b else RETRY_BACKOFF_MAX
  }

  function AttemptCap(budget: real): nat {
    MAX_ATTEMPTS + ((if budget > 0.0 then budget else 0.0) / RETRY_BACKOFF_MAX).Floor
  }

  function Max(a: real, b: real): real {
    if a < b then b else a
  }

  // ------------------------------------------------------------------------ the clock

  /** A clock that never goes back, and sleeps at least as long as asked. */
  ghost predicate Steady(w: World) {
    forall i: nat :: i >= 1 ==> w.took(i) >= 0.0 && w.slept(i) >= BackoffFor(i)
  }

  /** Elapsed time when the answer of an attempt is there. */
  function Elapsed(w: World, attempt: nat): real
    requires attempt >= 1
  {
    if attempt == 1 then w.took(1) else Elapsed(w, attempt - 1) + w.slept(attempt - 1) + w.took(attempt)
  }

  function BudgetFor(kind: Kind, budget: real): real {
    if kind == Starting then budget else DEFINITIVE_BUDGET
  }

  /** The probe is over after this attempt, whatever the attempt cap says. */
  predicate Over(w: World, attempt: nat, budget: real)
    requires attempt >= 1
  {
    var a := w.answer(attempt);
    || Good(a) || ClassifyFailure(a) == Fatal
    || Elapsed(w, attempt) + BackoffFor(attempt) >= BudgetFor(ClassifyFailure(a), budget)
  }

  lemma BackoffValues(attempt: nat)
    requires attempt >= 1
    ensures BackoffFor(attempt) == if attempt == 1 then 2.0 else if attempt == 2 then 4.0 else if attempt == 3 then 8.0
              else 10.0
  {
    if attempt <= 3 {
      assert Doubled(0) == 1.0 && Doubled(1) == 2.0 && Doubled(2) == 4.0;
    } else {
      DoubledGrows(attempt - 1);
    }
  }

  lemma {:induction false} DoubledGrows(n: nat)
    requires n >= 3
    ensures Doubled(n) >= 8.0
  {
    if n == 3 {
      assert Doubled(1) == 2.0 && Doubled(2) == 4.0;
    } else {
      DoubledGrows(n - 1);
    }
  }

  /** The sleeps alone: before an attempt they add up to 2 + 4 + 8 + 10 + 10 + ... */
  lemma {:induction false} SleepsAddUp(w: World, attempt: nat)
    requires Steady(w) && attempt >= 4
    ensures Elapsed(w, attempt) >= 10.0 * attempt as real - 26.0
  {
    BackoffValues(1);
    BackoffValues(2);
    BackoffValues(3);
    if attempt == 4 {
      assert w.took(1) >= 0.0 && w.slept(1) >= 2.0 && w.took(2) >= 0.0 && w.slept(2) >= 4.0;
      assert w.took(3) >= 0.0 && w.slept(3) >= 8.0 && w.took(4) >= 0.0;
      assert Elapsed(w, 3) == Elapsed(w, 2) + w.slept(2) + w.took(3);
    } else {
      SleepsAddUp(w, attempt - 1);
      BackoffValues(attempt - 1);
      assert w.took(attempt) >= 0.0 && w.slept(attempt - 1) >= 10.0;
    }
  }

  /** The attempt cap never ends the loop: by then the budget has, for any budget. */
  lemma CapNeverBinds(w: World, budget: real)
    requires Steady(w)
    ensures Over(w, AttemptCap(budget), budget)
  {
    var cap := AttemptCap(budget);
    var room := Max(budget, 0.0) / RETRY_BACKOFF_MAX;
    assert room.Floor as real > room - 1.0;
    SleepsAddUp(w, cap);
    BackoffValues(cap);
  }

  // ------------------------------------------------------------------------ the probe

  datatype Result = Result(status: Option<int>, ok: bool, error: string, attempts: nat, elapsed: real)

  /** One probe. It stops at the first attempt that is over, it says what that attempt
      said, and it never stops because of the attempt cap. */
  method CheckDomain(w: World, budget: real) returns (r: Result)
    requires Steady(w)
    ensures 1 <= r.attempts <= AttemptCap(budget) && Over(w, r.attempts, budget)
    ensures forall i | 1 <= i < r.attempts :: !Over(w, i, budget)
    ensures r.status == w.answer(r.attempts).status && r.error == w.answer(r.attempts).error
    ensures r.ok <==> r.status.Some? && 200 <= r.status.value <= 399
    ensures r.elapsed == Elapsed(w, r.attempts)
  {
    var status: Option<int>, error := None, "";
    var attempts := 0;
    var clock := 0.0;
    CapNeverBinds(w, budget);
    var attempt := 1;
    while attempt < AttemptCap(budget) + 1
      invariant 1 <= attempt <= AttemptCap(budget)
      invariant clock == if attempt == 1 then 0.0 else Elapsed(w, attempt - 1) + w.slept(attempt - 1)
      invariant forall i | 1 <= i < attempt :: !Over(w, i, budget)
    {
      attempts := attempt;
      status, error := w.answer(attempt).status, w.answer(attempt).error;
      clock := clock + w.took(attempt);
      if status.Some? && 200 <= status.value < 400 {
        break;
      }
      var kind := ClassifyFailure(Answer(status, error));
      if kind == Fatal {
        break;
      }
      var limit := if kind == Starting then budget else DEFINITIVE_BUDGET;
      var backoff := BackoffFor(attempt);
      if clock + backoff >= limit {
        break;
      }
      assert !Over(w, attempt, budget);
      clock := clock + w.slept(attempt);
      attempt := attempt + 1;
    }
    return Result(status, status.Some? && 200 <= status.value < 400, error, attempts, clock);
  }

  /** With exact sleeps a probe takes at most the larger of the two budgets plus the time
      of its last attempt, whatever sequence of failures it meets. */
  lemma ProbeIsBounded(w: World, budget: real, attempts: nat)
    requires Steady(w) && forall i: nat :: i >= 1 ==> w.slept(i) == BackoffFor(i)
    requires attempts >= 1 && forall i | 1 <= i < attempts :: !Over(w, i, budget)
    ensures Elapsed(w, attempts) <= Max(budget, DEFINITIVE_BUDGET) + w.took(attempts)
  {
    if attempts > 1 {
      assert !Over(w, attempts - 1, budget) && w.slept(attempts - 1) == BackoffFor(attempts - 1);
    }
  }

  /** Which failures mean that the service is still starting: no connection, a timeout, or
      one of the three gateway statuses. A name that does not resolve is final, and anything
      else is definitive. Error texts are read up to the first colon, in any case. */
  lemma FailureKinds(status: int, kind: string, detail: string)
    requires ':' !in kind
    ensures var a := Answer(Some(status), detail);
            ClassifyFailure(a) == if status == 502 || status == 503 || status == 504 then Starting else Definitive
    ensures var a := Answer(None, kind + ":" + detail);
            var word := Lower(LStrip(RStrip(kind)));
            && (ClassifyFailure(a) == Fatal <==> word == "dns failure")
            && (ClassifyFailure(a) == Starting <==> word == "timeout" || word == "connection refused")
  {
    UpToTheColon(kind, detail);
  }

  lemma {:induction false} UpToTheColon(kind: string, detail: string)
    requires ':' !in kind
    ensures Before(kind + ":" + detail, ':') == kind
  {
    var text := kind + ":" + detail;
    if kind != "" {
      assert text[0] == kind[0] && kind[0] in kind && text[1..] == kind[1..] + ":" + detail;
      UpToTheColon(kind[1..], detail);
    }
  }

  /** A status from 200 to 399 ends the probe. Otherwise an unresolved host costs one attempt;
      a definitive answer ends the probe as soon as the next sleep would pass ten seconds,
      however large the startup budget is; and a service that is starting has the startup
      budget. */
  lemma KindsDecide(w: World, budget: real, attempt: nat)
    requires attempt >= 1
    ensures var a := w.answer(attempt);
            if a.status.Some? && 200 <= a.status.value <= 399 then Over(w, attempt, budget)
            else
              && (ClassifyFailure(a) == Fatal ==> Over(w, attempt, budget))
              && (ClassifyFailure(a) == Definitive ==>
                    (Over(w, attempt, budget) <==> Elapsed(w, attempt) + BackoffFor(attempt) >= 10.0))
              && (ClassifyFailure(a) == Starting ==>
                    (Over(w, attempt, budget) <==> Elapsed(w, attempt) + BackoffFor(attempt) >= budget))
  {
  }
}
