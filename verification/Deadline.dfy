/** The deadline arithmetic of client.c: when the watchdog answers a message,
    with the margin as an exact fraction. */
module Deadline {
  import opened Protocol
  import opened Words

  predicate Sane(cfg: Config) { 0.0 <= cfg.margin <= 1.0 }

  /** The time kept back before the deadline. */
  function Advance(cfg: Config, remaining: nat): int {
    var scaled := (remaining as real * cfg.margin).Floor;
    if scaled < cfg.minMargin then cfg.minMargin else scaled
  }

  /** The branch for a margin of one changes nothing over exact fractions. */
  lemma FireTimeByAdvance(cfg: Config, now: nat, deadline: nat)
    requires now < deadline
    ensures var advance := Advance(cfg, deadline - now);
      FireTime(cfg, now, deadline) == if advance >= deadline - now then now else deadline - advance
  {
    if cfg.margin == 1.0 { assert (deadline - now) as real * cfg.margin == (deadline - now) as real; }
  }

  lemma ScaledIsWithin(cfg: Config, remaining: nat)
    requires Sane(cfg)
    ensures 0.0 <= remaining as real * cfg.margin <= remaining as real
    ensures 0 <= (remaining as real * cfg.margin).Floor <= remaining
  {}

  /** The answer is due no earlier than now and no later than the deadline,
      or at once when the deadline has passed. */
  lemma FiresInTime(cfg: Config, now: nat, deadline: nat)
    requires Sane(cfg)
    ensures now <= FireTime(cfg, now, deadline)
    ensures FireTime(cfg, now, deadline) <= if deadline < now then now else deadline
  {
    if now < deadline {
      FireTimeByAdvance(cfg, now, deadline);
      ScaledIsWithin(cfg, deadline - now);
    }
  }

  /** An answer that can wait leaves exactly the larger of the margin's share
      of the remaining time and the minimum margin. */
  lemma SlackIsTheMargin(cfg: Config, now: nat, deadline: nat)
    requires Sane(cfg)
    ensures FireTime(cfg, now, deadline) > now <==> now < deadline && Advance(cfg, deadline - now) < deadline - now
    ensures FireTime(cfg, now, deadline) > now ==>
      deadline - FireTime(cfg, now, deadline) == Advance(cfg, deadline - now)
  {
    if now < deadline { FireTimeByAdvance(cfg, now, deadline); }
  }

  lemma FloorOfSum(x: real, n: nat, y: real)
    requires y <= x + n as real
    ensures y.Floor <= x.Floor + n
  {}

  lemma Distributes(a: real, b: real, c: real)
    ensures (a + b) * c == a * c + b * c
  {}

  /** Waiting longer never shrinks the wait by more than it adds: advancing is
      no faster than the time that remains. */
  lemma AdvanceIsSlow(cfg: Config, r: nat, more: nat)
    requires Sane(cfg)
    ensures Advance(cfg, r + more) <= Advance(cfg, r) + more
  {
    var x, y, z := r as real * cfg.margin, (r + more) as real * cfg.margin, more as real * cfg.margin;
    assert y == x + z by {
      assert (r + more) as real == r as real + more as real;
      Distributes(r as real, more as real, cfg.margin);
    }
    ScaledIsWithin(cfg, more);
    assert y <= x + more as real;
    FloorOfSum(x, more, y);
  }

  /** At any one time, a later deadline never makes the answer due earlier. */
  lemma FireTimeIsMonotone(cfg: Config, now: nat, sooner: nat, later: nat)
    requires Sane(cfg) && sooner <= later
    ensures FireTime(cfg, now, sooner) <= FireTime(cfg, now, later)
  {
    FiresInTime(cfg, now, later);
    if now < sooner {
      FireTimeByAdvance(cfg, now, sooner);
      FireTimeByAdvance(cfg, now, later);
      AdvanceIsSlow(cfg, sooner - now, later - sooner);
    }
  }

  // ---------------------------------------------------------------- clock ticks

  /** min_margin_ns in clock ticks of numer/denom nanoseconds; saturates. */
  function MarginTicks(ns: nat, numer: nat, denom: nat): nat
    requires 0 < numer && 0 < denom
  {
    if ns > WORD_MAX / denom then WORD_MAX else ns * denom / numer
  }

  lemma QuotientBound(a: nat, b: nat, c: nat)
    requires 0 < c
    ensures a > b / c <==> a * c > b
  {
    assert b == b / c * c + b % c;
    if a > b / c {
      assert (a - b / c - 1) * c >= 0;
      assert a * c >= b / c * c + c;
    } else {
      assert (b / c - a) * c >= 0;
    }
  }

  lemma ProductIsLarger(q: nat, d: nat)
    requires 0 < d
    ensures q <= q * d
    decreases d
  {
    if d > 1 { ProductIsLarger(q, d - 1); }
  }

  lemma QuotientIsSmaller(n: nat, d: nat)
    requires 0 < d
    ensures n / d <= n
  {
    ProductIsLarger(n / d, d);
    var q := n / d;
    assert n == q * d + n % d;
  }

  /** The conversion saturates exactly when the product would leave 64 bits,
      so the product that is computed never does, and the result is its exact quotient. */
  lemma MarginTicksFit(ns: nat, numer: nat, denom: nat)
    requires 0 < numer && 0 < denom
    ensures MarginTicks(ns, numer, denom) == if ns * denom > WORD_MAX then WORD_MAX else ns * denom / numer
    ensures MarginTicks(ns, numer, denom) <= WORD_MAX
  {
    QuotientBound(ns, WORD_MAX, denom);
    QuotientIsSmaller(ns * denom, numer);
  }

  /** A saturated margin leaves no message waiting for its answer. */
  lemma SaturatedAnswersAtOnce(cfg: Config, now: nat, deadline: nat)
    requires Sane(cfg) && cfg.minMargin == WORD_MAX && deadline <= WORD_MAX
    ensures FireTime(cfg, now, deadline) == now
  {
    if now < deadline { FireTimeByAdvance(cfg, now, deadline); }
  }
}
