/**
 * The remaining-image-description budget shared by all pages or slides of
 * one request (ThreadSafeCounter). Its lock only makes each call atomic,
 * so the model is a plain object whose methods run one at a time.
 */
module Budget {

  class Counter {
    var value: int

    /** The counter starts at whatever the request asked for; it is not clamped. */
    constructor (initialValue: int)
      ensures value == initialValue
    {
      value := initialValue;
    }

    /** Takes one unit of budget if there is one. */
    method Decrement() returns (ok: bool)
      modifies this
      ensures ok <==> old(value) > 0
      ensures value == if ok then old(value) - 1 else old(value)
      ensures old(value) >= 0 ==> value >= 0
    {
      if value > 0 {
        value := value - 1;
        ok := true;
      } else {
        ok := false;
      }
    }

    /** Reads the current value without changing it. */
    method GetValue() returns (v: int)
      ensures v == value
    {
      v := value;
    }
  }

  /**
   * How many of `attempts` successive decrements succeed on a counter
   * holding `budget`: min(max(budget, 0), attempts).
   */
  function Spent(budget: int, attempts: nat): nat {
    if budget <= 0 then 0 else if budget < attempts then budget else attempts
  }

  /**
   * The successes are at most the attempts and at most a positive budget,
   * none on a non-positive budget, and otherwise one of the two bounds.
   */
  lemma SpentBounds(budget: int, attempts: nat)
    ensures Spent(budget, attempts) <= attempts
    ensures budget <= 0 ==> Spent(budget, attempts) == 0
    ensures budget > 0 ==> Spent(budget, attempts) <= budget
    ensures budget > 0 ==> Spent(budget, attempts) == attempts || Spent(budget, attempts) == budget
  {
  }

  /**
   * The counter's history under `attempts` successive Decrement calls,
   * following Decrement's contract one call at a time: the number of calls
   * that returned true, and the final value.
   */
  function Decrements(budget: int, attempts: nat): (int, int)
  {
    if attempts == 0 then (0, budget)
    else
      var (successes, value) := Decrements(budget, attempts - 1);
      if value > 0 then (successes + 1, value - 1) else (successes, value)
  }

  /**
   * Decrements are exclusive: however many are attempted, exactly
   * min(max(budget, 0), attempts) succeed, the counter loses exactly that
   * much, and a counter that started non-negative ends non-negative.
   */
  lemma {:induction false} SequentialDecrements(budget: int, attempts: nat)
    ensures Decrements(budget, attempts).0 == Spent(budget, attempts)
    ensures Decrements(budget, attempts).1 == budget - Spent(budget, attempts)
    ensures budget >= 0 ==> Decrements(budget, attempts).1 >= 0
  {
    if attempts > 0 {
      SequentialDecrements(budget, attempts - 1);
    }
  }

  /**
   * Calls `c.Decrement()` `attempts` times in a row. The calls that succeed
   * and the final value are those Decrements predicts, so exactly
   * Spent(old(c.value), attempts) of them return true.
   */
  method DecrementRepeatedly(c: Counter, attempts: nat) returns (successes: nat)
    modifies c
    ensures (successes, c.value) == Decrements(old(c.value), attempts)
    ensures successes == Spent(old(c.value), attempts)
    ensures c.value == old(c.value) - Spent(old(c.value), attempts)
  {
    ghost var start := c.value;
    successes := 0;
    var i := 0;
    while i < attempts
      invariant i <= attempts
      invariant (successes, c.value) == Decrements(start, i)
    {
      var ok := c.Decrement();
      if ok {
        successes := successes + 1;
      }
      i := i + 1;
    }
    SequentialDecrements(start, attempts);
  }

  /** One more attempt succeeds exactly when fewer than `budget` came before it. */
  lemma SpentStep(budget: int, i: nat)
    ensures budget - Spent(budget, i) > 0 <==> i < budget
    ensures Spent(budget, i + 1) == Spent(budget, i) + (if i < budget then 1 else 0)
  {
  }

  /** Spending over two consecutive runs equals spending over their total. */
  lemma SpentAdditive(budget: int, m: nat, n: nat)
    ensures Spent(budget, m) + Spent(budget - Spent(budget, m), n) == Spent(budget, m + n)
  {
  }
}
