/** Turn order: the current player's index advances by one and wraps to 0. */
module Turns {

  /** `(index + 1) % players.length`. */
  function NextTurn(i: nat, n: nat): (j: nat)
    requires i < n
    ensures j < n
    ensures j == if i == n - 1 then 0 else i + 1
  {
    (i + 1) % n
  }

  /** The index after `k` consecutive turn switches starting from `i`. */
  function Rotate(i: nat, k: nat, n: nat): (j: nat)
    requires i < n
    ensures j < n
    decreases k
  {
    if k == 0 then i else NextTurn(Rotate(i, k - 1, n), n)
  }

  /** Switching `a + b` times is switching `a` times and then `b` times. */
  lemma {:induction false} RotateCompose(i: nat, a: nat, b: nat, n: nat)
    requires i < n
    ensures Rotate(i, a + b, n) == Rotate(Rotate(i, a, n), b, n)
    decreases b
  {
    if b > 0 {
      RotateCompose(i, a, b - 1, n);
    }
  }

  /** Within one round, each switch moves to the next player, past the last back to the first. */
  lemma {:induction false} RotateWithinRound(i: nat, k: nat, n: nat)
    requires i < n && k <= n
    ensures Rotate(i, k, n) == if i + k < n then i + k else i + k - n
    decreases k
  {
    if k > 0 {
      RotateWithinRound(i, k - 1, n);
    }
  }

  /** After `n` switches among `n` players the same player is current again. */
  lemma FullRound(i: nat, n: nat)
    requires i < n
    ensures Rotate(i, n, n) == i
  {
    RotateWithinRound(i, n, n);
  }

  /** The turn order repeats with period `n`. */
  lemma RotatePeriodic(i: nat, k: nat, n: nat)
    requires i < n
    ensures Rotate(i, k + n, n) == Rotate(i, k, n)
  {
    RotateCompose(i, n, k, n);
    FullRound(i, n);
  }
}
