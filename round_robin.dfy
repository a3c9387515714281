/** Round-robin selection over k outputs: a cursor that advances by one and
    wraps to 0 after the last output. Both generations of the simulator route
    this way; the older one starts one step before 0 (see BackendRouting). */
module RoundRobinCursor {

  /** The round-robin cursor after one delivery over k targets. */
  function NextCursor(cursor: nat, k: nat): (c: nat)
    requires k > 0
    ensures c < k
  {
    (cursor + 1) % k
  }

  /** The cursor after n round-robin deliveries over k fixed targets, starting
      from 0. */
  function CursorAfter(k: nat, n: nat): (c: nat)
    requires k > 0
    ensures c < k
  {
    if n == 0 then 0 else NextCursor(CursorAfter(k, n - 1), k)
  }

  lemma NextCursorWraps(c: nat, k: nat)
    requires c < k
    ensures NextCursor(c, k) == if c + 1 < k then c + 1 else 0
  {
  }

  lemma {:induction false} CursorAfterFirstRound(k: nat, i: nat)
    requires i < k
    ensures CursorAfter(k, i) == i
  {
    if i > 0 {
      CursorAfterFirstRound(k, i - 1);
      NextCursorWraps(i - 1, k);
    }
  }

  /** k more deliveries bring the cursor back where it was. */
  lemma {:induction false} CursorAfterPeriodic(k: nat, n: nat)
    requires k > 0
    ensures CursorAfter(k, n + k) == CursorAfter(k, n)
  {
    if n == 0 {
      CursorAfterFirstRound(k, k - 1);
      NextCursorWraps(k - 1, k);
    } else {
      CursorAfterPeriodic(k, n - 1);
    }
  }

  /** Round robin over k fixed targets: the (m*k + i)-th part (0-based) goes
      to target i. */
  lemma {:induction false} RoundRobinRounds(k: nat, m: nat, i: nat)
    requires i < k
    ensures CursorAfter(k, m * k + i) == i
  {
    if m == 0 {
      CursorAfterFirstRound(k, i);
    } else {
      RoundRobinRounds(k, m - 1, i);
      assert m * k + i == ((m - 1) * k + i) + k;
      CursorAfterPeriodic(k, (m - 1) * k + i);
    }
  }

  /** Round robin over k fixed targets: the n-th part (0-based) goes to target
      n mod k. */
  lemma RoundRobinNth(k: nat, n: nat)
    requires k > 0
    ensures CursorAfter(k, n) == n % k
  {
    var q, r := n / k, n % k;
    assert n == q * k + r;
    RoundRobinRounds(k, q, r);
  }
}
