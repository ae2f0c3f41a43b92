/** Retry policies: normalisation, the retry decision and the backoff (pkg/skald/retry.go). */
module RetryPolicy {
  import opened Prelude

  const SECOND: Duration := 1_000_000_000
  const DEFAULT_INITIAL := 1 * SECOND
  const DEFAULT_COEFFICIENT := 2.0
  const DEFAULT_MAXIMUM := 100 * SECOND
  const JITTER_FRACTION := 0.2
  const MAX_DURATION: Duration := 0x7FFF_FFFF_FFFF_FFFF

  datatype Policy = Policy(
    initial: Duration,
    coefficient: real,
    maximum: Duration,
    maxAttempts: int,
    nonRetryable: seq<string>)

  const DEFAULT_POLICY := Policy(DEFAULT_INITIAL, DEFAULT_COEFFICIENT, DEFAULT_MAXIMUM, 0, [])

  function Min(a: int, b: int): int { if a < b then a else b }

  /** What Validate leaves in the policy: every zero replaced by its default. */
  function Normalize(p: Policy): Policy {
    var initial := if p.initial == 0 then DEFAULT_INITIAL else p.initial;
    p.(initial := initial,
       coefficient := if p.coefficient == 0.0 then DEFAULT_COEFFICIENT else p.coefficient,
       maximum := if p.maximum == 0 then Min(100 * initial, DEFAULT_MAXIMUM) else p.maximum)
  }

  /** A fully specified, usable policy. */
  predicate Usable(p: Policy) {
    0 <= p.initial <= p.maximum && p.coefficient >= 1.0 && p.maxAttempts >= 0
  }

  function Pow(base: real, n: nat): real {
    if n == 0 then 1.0 else base * Pow(base, n - 1)
  }

  /** initial * coefficient^(attempt-1), clamped to the maximum. */
  function Nominal(p: Policy, attempt: int): real {
    var n := if attempt < 1 then 0 else attempt - 1;
    Clamp(Times(p.initial as real, Pow(p.coefficient, n)), p.maximum as real)
  }

  function Times(x: real, f: real): real { x * f }

  function Clamp(interval: real, maximum: real): real {
    if interval > maximum then maximum else interval
  }

  function Clamp01(j: real): real { if j < 0.0 then 0.0 else if j > 1.0 then 1.0 else j }

  /** 1 plus the share of the interval that jitter adds. */
  function Stretch(jitter: real): (f: real)
    ensures 1.0 <= f <= 1.2
  {
    1.0 + JITTER_FRACTION * Clamp01(jitter)
  }

  /** Conversion of a float interval to a duration, saturating at the largest one. */
  function Truncate(interval: real): Duration {
    if interval > MAX_DURATION as real then MAX_DURATION else interval.Floor
  }

  /** The clamped interval spread by jitter. */
  function Stretched(p: Policy, attempt: int, jitter: real): real {
    Times(Nominal(p, attempt), Stretch(jitter))
  }

  function Backoff(p: Policy, attempt: int, jitter: real): Duration {
    Truncate(Stretched(p, attempt, jitter))
  }

  /** The delay before the next attempt, or None when there is none. A missing policy is the default one. */
  function ShouldRetry(p: Option<Policy>, attempt: int, failure: Failure, jitter: real): (r: Option<Duration>)
    ensures r.Some? ==> !failure.nonRetryable
    ensures r.Some? && p.Some? && p.value.maxAttempts > 0 ==> attempt + 1 <= p.value.maxAttempts
    ensures r.Some? && p.Some? && failure.typ != "" ==> failure.typ !in p.value.nonRetryable
  {
    var policy := if p.Some? then p.value else DEFAULT_POLICY;
    if failure.nonRetryable then None
    else if policy.maxAttempts > 0 && attempt >= policy.maxAttempts then None
    else if failure.typ != "" && failure.typ in policy.nonRetryable then None
    else Some(Backoff(policy, attempt, jitter))
  }

  // ------------------------------------------------------------------
  // Bounds
  // ------------------------------------------------------------------

  lemma {:induction false} PowGrows(base: real, m: nat, n: nat)
    requires base >= 1.0 && m <= n
    ensures 1.0 <= Pow(base, m) <= Pow(base, n)
  {
    if n > 0 {
      if m < n {
        PowGrows(base, m, n - 1);
      } else {
        PowGrows(base, m - 1, n - 1);
      }
      var q := Pow(base, n - 1);
      assert base * q == q + (base - 1.0) * q;
    }
  }

  lemma TimesMono(x: real, y: real, f: real, g: real)
    requires 0.0 <= x <= y && 1.0 <= f <= g
    ensures x <= Times(x, f) <= Times(y, f)
    ensures Times(x, f) <= Times(x, g)
  {
    assert x * f - x == x * (f - 1.0);
    assert x * g - x * f == x * (g - f);
    assert y * f - x * f == (y - x) * f;
  }

  lemma TruncateMono(x: real, y: real)
    requires 0.0 <= x <= y
    ensures 0 <= Truncate(x) <= Truncate(y) <= MAX_DURATION
    ensures Truncate(x) as real <= x
  {
    assert y <= MAX_DURATION as real ==> y.Floor <= MAX_DURATION;
  }

  lemma NominalBounds(p: Policy, m: int, n: int)
    requires Usable(p) && m <= n
    ensures 0.0 <= p.initial as real <= Nominal(p, m) <= Nominal(p, n) <= p.maximum as real
  {
    hide Pow, Times;
    var i, j := if m < 1 then 0 else m - 1, if n < 1 then 0 else n - 1;
    PowGrows(p.coefficient, i, j);
    TimesMono(p.initial as real, p.initial as real, Pow(p.coefficient, i), Pow(p.coefficient, j));
  }

  /** The interval before truncation, for two attempts under one jitter draw. */
  lemma StretchedBounds(p: Policy, m: int, n: int, jitter: real)
    requires Usable(p) && m <= n
    ensures 0.0 <= Nominal(p, m) <= Stretched(p, m, jitter) <= Stretched(p, n, jitter) <= Times(p.maximum as real, 1.2)
  {
    hide Nominal, Stretch, Times;
    NominalBounds(p, m, n);
    TimesMono(Nominal(p, m), Nominal(p, n), Stretch(jitter), 1.2);
    TimesMono(Nominal(p, n), p.maximum as real, Stretch(jitter), 1.2);
    TimesMono(p.maximum as real, p.maximum as real, Stretch(jitter), 1.2);
  }

  /** Jitter never shortens the nominal backoff, and stretches it by a fifth at most. */
  lemma BackoffBounds(p: Policy, attempt: int, jitter: real)
    requires Usable(p)
    ensures 0 <= Truncate(Nominal(p, attempt)) <= Backoff(p, attempt, jitter)
    ensures Backoff(p, attempt, jitter) as real <= p.maximum as real * 1.2
  {
    hide Stretched, Nominal, Truncate;
    StretchedBounds(p, attempt, attempt, jitter);
    TruncateMono(Nominal(p, attempt), Stretched(p, attempt, jitter));
    TruncateMono(Stretched(p, attempt, jitter), Times(p.maximum as real, 1.2));
  }

  /** For one jitter draw, a later attempt never waits less. */
  lemma BackoffGrows(p: Policy, m: int, n: int, jitter: real)
    requires Usable(p) && m <= n
    ensures Backoff(p, m, jitter) <= Backoff(p, n, jitter)
  {
    hide Stretched, Nominal, Truncate;
    StretchedBounds(p, m, n, jitter);
    TruncateMono(Stretched(p, m, jitter), Stretched(p, n, jitter));
  }

  // ------------------------------------------------------------------
  // The intervals themselves
  // ------------------------------------------------------------------

  lemma TimesGrows(x: real, f: real, c: real, maximum: real)
    requires 0.0 <= x && 1.0 <= f && 1.0 <= c && x <= maximum
    ensures Clamp(Times(x, c * f), maximum) == Clamp(Times(Clamp(Times(x, f), maximum), c), maximum)
  {
    var y := x * f;
    assert x * (c * f) == y * c;
    assert y * c - y == y * (c - 1.0);
    assert maximum * c - maximum == maximum * (c - 1.0);
    assert y >= 0.0;
    if y > maximum {
      assert y * (c - 1.0) >= 0.0 && maximum * (c - 1.0) >= 0.0;
    }
  }

  /** The first interval is the initial one, and each later one is the one before times the coefficient, up to the maximum. */
  lemma NominalGrowsByCoefficient(p: Policy, attempt: int)
    requires Usable(p)
    ensures attempt <= 1 ==> Nominal(p, attempt) == p.initial as real
    ensures attempt >= 1 ==>
      var next := Nominal(p, attempt) * p.coefficient;
      Nominal(p, attempt + 1) == if next <= p.maximum as real then next else p.maximum as real
  {
    if attempt >= 1 {
      PowGrows(p.coefficient, 0, attempt - 1);
      TimesGrows(p.initial as real, Pow(p.coefficient, attempt - 1), p.coefficient, p.maximum as real);
    }
  }

  /** The delay is the interval stretched by up to a fifth in proportion to the jitter, rounded down, and never more than the
      longest duration there is. */
  lemma BackoffRounds(p: Policy, attempt: int, jitter: real)
    requires Usable(p)
    ensures
      var share := if jitter < 0.0 then 0.0 else if jitter > 1.0 then 1.0 else jitter;
      var x := Nominal(p, attempt) * (1.0 + share / 5.0);
      var d := Backoff(p, attempt, jitter);
      if x > MAX_DURATION as real then d == MAX_DURATION else d as real <= x < (d + 1) as real
  {
    hide Nominal;
    var share := if jitter < 0.0 then 0.0 else if jitter > 1.0 then 1.0 else jitter;
    assert Stretch(jitter) == 1.0 + share / 5.0;
  }

  /** The policy object callers hand to the API boundary, normalised in place. */
  class PolicyObject {
    var initial: Duration
    var coefficient: real
    var maximum: Duration
    var maxAttempts: int
    var nonRetryable: seq<string>

    constructor (p: Policy)
      ensures Value() == p
    {
      initial, coefficient, maximum, maxAttempts, nonRetryable :=
        p.initial, p.coefficient, p.maximum, p.maxAttempts, p.nonRetryable;
    }

    function Value(): Policy
      reads this
    {
      Policy(initial, coefficient, maximum, maxAttempts, nonRetryable)
    }

    /** Fills in defaults and reports whether the result is usable. */
    method Validate() returns (ok: bool)
      modifies this
      ensures Value() == Normalize(old(Value()))
      ensures ok <==> Usable(Value())
    {
      if initial == 0 {
        initial := DEFAULT_INITIAL;
      }
      if coefficient == 0.0 {
        coefficient := DEFAULT_COEFFICIENT;
      }
      if maximum == 0 {
        maximum := Min(100 * initial, DEFAULT_MAXIMUM);
      }
      ok := !(initial < 0 || coefficient < 1.0 || maximum < initial || maxAttempts < 0);
    }
  }

  /** Every field left at its zero gets its default, and every other field stays. */
  lemma NormalizeFills(p: Policy)
    ensures
      var q := Normalize(p);
      && q.initial == (if p.initial != 0 then p.initial else 1_000_000_000)
      && q.coefficient == (if p.coefficient != 0.0 then p.coefficient else 2.0)
      && (if p.maximum != 0 then q.maximum == p.maximum
          else q.maximum <= 100 * q.initial && q.maximum <= 100_000_000_000 && q.maximum in {100 * q.initial, 100_000_000_000})
      && q.maxAttempts == p.maxAttempts && q.nonRetryable == p.nonRetryable
  {
  }

  /** Normalising twice changes nothing, and no field of a usable policy is left at its zero. */
  lemma NormalizeIdempotent(p: Policy)
    ensures Normalize(Normalize(p)) == Normalize(p)
    ensures Usable(Normalize(p)) ==> Normalize(p).initial > 0
  {
  }
}
