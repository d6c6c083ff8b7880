/**
 The arithmetic of the token bucket: how many starts a clock can pay for, measured once by the refills that
 earned the tokens and once by the clock readings at which the requests start. Times are milliseconds.
 */
module Pacing {

  /**
   One start: which request, the tokens available just before it, the high-water mark of the refills that
   earned them, and the clock reading of the start itself.
   */
  datatype Start = Start(ticket: nat, level: real, at: real, read: real)

  function Earned(rate: real, at: real): real { rate * at / 1000.0 }

  lemma EarnedBetween(rate: real, a: real, b: real)
    requires rate > 0.0
    ensures Earned(rate, b) - Earned(rate, a) == (b - a) * rate / 1000.0
    ensures a <= b ==> Earned(rate, a) <= Earned(rate, b)
  {
    if a <= b { assert rate * a <= rate * b; }
  }

  /** Starts made plus tokens left, less what the clock has earned: it never rises. */
  function Balance(rate: real, made: nat, level: real, at: real): real {
    made as real + level - Earned(rate, at)
  }

  ghost predicate Paced(rate: real, burst: nat, log: seq<Start>, tokens: real, at: real) {
    && 0.0 <= tokens <= burst as real
    && (forall i | 0 <= i < |log| :: 1.0 <= log[i].level <= burst as real)
    && (forall i | 0 <= i < |log| :: Balance(rate, |log|, tokens, at) <= Balance(rate, i, log[i].level, log[i].at))
    && (forall i, j | 0 <= i <= j < |log| ::
          Balance(rate, j, log[j].level, log[j].at) <= Balance(rate, i, log[i].level, log[i].at))
  }

  /** Measured by refills, any stretch of starts is at most the burst plus what the time between earned. */
  lemma StartsBounded(rate: real, burst: nat, log: seq<Start>, tokens: real, at: real, i: nat, j: nat)
    requires rate > 0.0 && Paced(rate, burst, log, tokens, at) && i <= j < |log|
    ensures (j - i + 1) as real <= burst as real + (Earned(rate, log[j].at) - Earned(rate, log[i].at))
  {
    assert Balance(rate, j, log[j].level, log[j].at) <= Balance(rate, i, log[i].level, log[i].at);
    assert log[j].level >= 1.0 && log[i].level <= burst as real;
  }

  lemma PacedStart(rate: real, burst: nat, log: seq<Start>, tokens: real, at: real, read: real)
    requires Paced(rate, burst, log, tokens, at) && tokens >= 1.0
    ensures Paced(rate, burst, log + [Start(|log|, tokens, at, read)], tokens - 1.0, at)
  {
    hide Earned;
  }

  function Refilled(rate: real, burst: nat, tokens: real, elapsed: real): real {
    var level := tokens + elapsed * rate / 1000.0;
    if level > burst as real then burst as real else level
  }

  /** Refilling in two steps, the clock read in between, earns what one refill over the whole time earns. */
  lemma RefillInSteps(rate: real, burst: nat, tokens: real, first: real, second: real)
    requires rate > 0.0 && tokens <= burst as real && first >= 0.0 && second >= 0.0
    ensures Refilled(rate, burst, Refilled(rate, burst, tokens, first), second) == Refilled(rate, burst, tokens, first + second)
  {
    assert (first + second) * rate == first * rate + second * rate;
    assert first * rate >= 0.0 && second * rate >= 0.0;
  }

  /** An idle bucket gains all that the clock earns until it holds the burst, and then holds it. */
  lemma IdleBucketFills(rate: real, burst: nat, tokens: real, elapsed: real)
    requires rate > 0.0 && tokens <= burst as real && elapsed >= 0.0
    ensures tokens + Earned(rate, elapsed) <= burst as real ==> Refilled(rate, burst, tokens, elapsed) - tokens == Earned(rate, elapsed)
    ensures Earned(rate, elapsed) >= burst as real - tokens ==> Refilled(rate, burst, tokens, elapsed) == burst as real
  {
    assert elapsed * rate == rate * elapsed;
  }

  lemma PacedRefill(rate: real, burst: nat, log: seq<Start>, tokens: real, at: real, later: real)
    requires rate > 0.0 && Paced(rate, burst, log, tokens, at) && at <= later
    ensures Paced(rate, burst, log, Refilled(rate, burst, tokens, later - at), later)
  {
    EarnedBetween(rate, at, later);
    assert (later - at) * rate >= 0.0;
    hide Earned;
  }

  // ---- Start times -------------------------------------------------------------------------

  /** The clock never ran backwards. */
  ghost predicate Ascending(readings: seq<real>) {
    forall i, j | 0 <= i <= j < |readings| :: readings[i] <= readings[j]
  }

  /** Refills and starts in the order of one ascending clock: a later refill mark is no earlier than earlier starts. */
  ghost predicate InTime(log: seq<Start>, at: real, last: real) {
    && at <= last
    && (forall i | 0 <= i < |log| :: log[i].at <= log[i].read <= last && log[i].at <= at && (log[i].at < at ==> log[i].read <= at))
    && (forall i, k | 0 <= i < k < |log| ::
          log[i].at <= log[k].at && log[i].read <= log[k].read && (log[i].at < log[k].at ==> log[i].read <= log[k].at))
  }

  ghost predicate Timely(log: seq<Start>, at: real, readings: seq<real>) {
    readings != [] && (Ascending(readings) ==> InTime(log, at, readings[|readings| - 1]))
  }

  lemma TimelyReading(log: seq<Start>, at: real, readings: seq<real>, now: real)
    requires Timely(log, at, readings)
    ensures Timely(log, at, readings + [now])
  {
    var longer := readings + [now];
    if Ascending(longer) {
      assert forall i, j | 0 <= i <= j < |readings| :: readings[i] == longer[i] && readings[j] == longer[j];
      assert longer[|readings| - 1] <= longer[|readings|];
    }
  }

  lemma TimelyRefill(log: seq<Start>, at: real, readings: seq<real>)
    requires Timely(log, at, readings) && at <= readings[|readings| - 1]
    ensures Timely(log, readings[|readings| - 1], readings)
  {
  }

  lemma TimelyStart(log: seq<Start>, at: real, readings: seq<real>, ticket: nat, level: real)
    requires Timely(log, at, readings)
    ensures Timely(log + [Start(ticket, level, at, readings[|readings| - 1])], at, readings)
  {
  }

  /** A start's lag: how far the clock moved between the refill that paid for it and the start itself. */
  function Lag(s: Start): real { s.read - s.at }

  /** The number of starts between two of them, measured by the readings at which they start. */
  ghost predicate WithinBurst(rate: real, bursts: nat, log: seq<Start>, i: nat, j: nat)
    requires i <= j < |log|
  {
    (j - i + 1) as real <= bursts as real + (log[j].read - log[i].read) * rate / 1000.0
  }

  /** On an ascending clock: the burst, what the time between the starts earned, and what the first start's lag earned. */
  lemma StartReadingsBounded(rate: real, burst: nat, log: seq<Start>, tokens: real, at: real, last: real, i: nat, j: nat)
    requires rate > 0.0 && Paced(rate, burst, log, tokens, at) && InTime(log, at, last) && i <= j < |log|
    ensures (j - i + 1) as real <= burst as real + (log[j].read - log[i].read) * rate / 1000.0 + Lag(log[i]) * rate / 1000.0
  {
    hide Earned, Paced;
    StartsBounded(rate, burst, log, tokens, at, i, j);
    AddUp(rate, (j - i + 1) as real - burst as real, log[i].at, log[i].read, log[j].at, log[j].read);
    hide InTime;
  }

  lemma AddUp(rate: real, extra: real, firstAt: real, firstRead: real, lastAt: real, lastRead: real)
    requires rate > 0.0 && lastAt <= lastRead && extra <= Earned(rate, lastAt) - Earned(rate, firstAt)
    ensures extra <= (lastRead - firstRead) * rate / 1000.0 + (firstRead - firstAt) * rate / 1000.0
  {
    EarnedBetween(rate, lastAt, lastRead);
    EarnedBetween(rate, firstAt, lastRead);
    assert (lastRead - firstAt) * rate == (lastRead - firstRead) * rate + (firstRead - firstAt) * rate;
    hide Earned;
  }

  /** A start that does not lag opens only stretches that keep the promise. */
  lemma NoLagKeepsPromise(rate: real, burst: nat, log: seq<Start>, tokens: real, at: real, last: real, i: nat, j: nat)
    requires rate > 0.0 && Paced(rate, burst, log, tokens, at) && InTime(log, at, last) && i <= j < |log|
    requires Lag(log[i]) == 0.0
    ensures WithinBurst(rate, burst, log, i, j)
  {
    StartReadingsBounded(rate, burst, log, tokens, at, last, i, j);
    hide Paced, InTime;
    var lag := Lag(log[i]);
    hide Lag;
    assert lag * rate / 1000.0 == 0.0;
  }

  /** The last start of the stretch that was paid for by the same refill as its first. */
  lemma {:induction false} SameRefill(log: seq<Start>, i: nat, j: nat) returns (m: nat)
    requires i <= j < |log|
    ensures i <= m <= j && log[m].at == log[i].at
    ensures m < j ==> log[m + 1].at != log[i].at
    decreases j - i
  {
    m := i;
    while m < j && log[m + 1].at == log[i].at
      invariant i <= m <= j && log[m].at == log[i].at
    {
      m := m + 1;
    }
  }

  /** Whatever the lags, at most one extra burst: what one refill admits late is one bucket. */
  lemma StartsWithinTwoBursts(rate: real, burst: nat, log: seq<Start>, tokens: real, at: real, last: real, i: nat, j: nat)
    requires rate > 0.0 && Paced(rate, burst, log, tokens, at) && InTime(log, at, last) && i <= j < |log|
    ensures WithinBurst(rate, 2 * burst, log, i, j)
  {
    hide Earned, Paced, WithinBurst;
    var m := SameRefill(log, i, j);
    StartsBounded(rate, burst, log, tokens, at, i, m);
    EarnedBetween(rate, log[i].read, log[j].read);
    if m < j {
      StartsBounded(rate, burst, log, tokens, at, m + 1, j);
      EarnedBetween(rate, log[i].read, log[m + 1].at);
      EarnedBetween(rate, log[j].at, log[j].read);
      TwoStretches(rate, burst, log, i, m, j);
    } else {
      assert log[i].read <= log[j].read;
      OneStretch(rate, burst, log, i, j);
    }
  }

  lemma OneStretch(rate: real, burst: nat, log: seq<Start>, i: nat, j: nat)
    requires i <= j < |log| && (j - i + 1) as real <= burst as real
    requires Earned(rate, log[i].read) <= Earned(rate, log[j].read)
    requires Earned(rate, log[j].read) - Earned(rate, log[i].read) == (log[j].read - log[i].read) * rate / 1000.0
    ensures WithinBurst(rate, 2 * burst, log, i, j)
  {
    hide Earned;
  }

  lemma TwoStretches(rate: real, burst: nat, log: seq<Start>, i: nat, m: nat, j: nat)
    requires i <= m < j < |log|
    requires (m - i + 1) as real <= burst as real
    requires (j - (m + 1) + 1) as real <= burst as real + (Earned(rate, log[j].at) - Earned(rate, log[m + 1].at))
    requires Earned(rate, log[i].read) <= Earned(rate, log[m + 1].at) && Earned(rate, log[j].at) <= Earned(rate, log[j].read)
    requires Earned(rate, log[j].read) - Earned(rate, log[i].read) == (log[j].read - log[i].read) * rate / 1000.0
    ensures WithinBurst(rate, 2 * burst, log, i, j)
  {
    hide Earned;
  }

  // ---- Exactly when the promised bound holds -----------------------------------------------

  /** Every stretch of starts keeps to the burst plus what the time between them earned. */
  ghost predicate Promised(rate: real, burst: nat, log: seq<Start>) {
    forall i, j | 0 <= i <= j < |log| :: WithinBurst(rate, burst, log, i, j)
  }

  ghost predicate LagsWithin(log: seq<Start>, lag: real) {
    forall i | 0 <= i < |log| :: Lag(log[i]) <= lag
  }

  /** A full bucket spent by starts that all lag behind the refill at time zero. */
  function SpentLate(burst: nat, lag: real, k: nat): (log: seq<Start>)
    ensures |log| == k
    ensures forall i | 0 <= i < k :: log[i] == Start(i, (burst - i) as real, 0.0, lag)
  {
    if k == 0 then [] else SpentLate(burst, lag, k - 1) + [Start(k - 1, (burst - (k - 1)) as real, 0.0, lag)]
  }

  /** The first moment at which the clock has earned one token and is not behind the late starts. */
  function NextToken(rate: real, lag: real): real
    requires rate > 0.0
  {
    if lag > 1000.0 / rate then lag else 1000.0 / rate
  }

  /** One start more, at the next token: its refill also pays for the time of the lag. */
  function LateLog(rate: real, burst: nat, lag: real): seq<Start>
    requires rate > 0.0
  {
    SpentLate(burst, lag, burst) + [Start(burst, NextLevel(rate, burst, lag), NextToken(rate, lag), NextToken(rate, lag))]
  }

  function NextLevel(rate: real, burst: nat, lag: real): real
    requires rate > 0.0
  {
    Refilled(rate, burst, 0.0, NextToken(rate, lag) - 0.0)
  }

  lemma NextTokenEarned(rate: real, lag: real)
    requires rate > 0.0 && lag > 0.0
    ensures NextToken(rate, lag) * rate / 1000.0 >= 1.0 && NextToken(rate, lag) >= lag
    ensures (NextToken(rate, lag) - lag) * rate / 1000.0 < 1.0
  {
    var t, unit := NextToken(rate, lag), 1000.0 / rate;
    assert unit * rate == 1000.0;
    assert t >= unit;
    assert t * rate >= unit * rate;
    assert t - lag < unit;
    assert (t - lag) * rate < unit * rate;
  }

  lemma LateLogPaced(rate: real, burst: nat, lag: real)
    requires rate > 0.0 && burst > 0 && lag > 0.0
    ensures Paced(rate, burst, LateLog(rate, burst, lag), NextLevel(rate, burst, lag) - 1.0, NextToken(rate, lag))
  {
    var t := NextToken(rate, lag);
    NextTokenEarned(rate, lag);
    SpentPaced(rate, burst, lag);
    hide Paced, NextToken;
    PacedRefill(rate, burst, SpentLate(burst, lag, burst), 0.0, 0.0, t);
    PacedStart(rate, burst, SpentLate(burst, lag, burst), NextLevel(rate, burst, lag), t, t);
  }

  lemma LateLogInTime(rate: real, burst: nat, lag: real)
    requires rate > 0.0 && lag > 0.0
    ensures InTime(LateLog(rate, burst, lag), NextToken(rate, lag), NextToken(rate, lag))
    ensures LagsWithin(LateLog(rate, burst, lag), lag)
  {
    NextTokenEarned(rate, lag);
    hide NextToken, NextLevel;
  }

  lemma SpentPaced(rate: real, burst: nat, lag: real)
    requires rate > 0.0
    ensures Paced(rate, burst, SpentLate(burst, lag, burst), 0.0, 0.0)
  {
    assert Earned(rate, 0.0) == 0.0;
    hide Earned;
  }

  lemma LateLogBreaks(rate: real, burst: nat, lag: real)
    requires rate > 0.0 && burst > 0 && lag > 0.0
    ensures |LateLog(rate, burst, lag)| == burst + 1 && !WithinBurst(rate, burst, LateLog(rate, burst, lag), 0, burst)
  {
    NextTokenEarned(rate, lag);
  }

  /** The promise holds of every paced and timely log whose lags are bounded by this if and only if the bound is zero. */
  lemma PromisedExactlyWithoutLag(rate: real, burst: nat, lag: real)
    requires rate > 0.0 && burst > 0 && lag >= 0.0
    ensures lag == 0.0 <==> forall log, tokens, at, last ::
              Paced(rate, burst, log, tokens, at) && InTime(log, at, last) && LagsWithin(log, lag) ==> Promised(rate, burst, log)
  {
    if lag == 0.0 {
      forall log, tokens, at, last | Paced(rate, burst, log, tokens, at) && InTime(log, at, last) && LagsWithin(log, lag)
        ensures Promised(rate, burst, log)
      {
        forall i, j | 0 <= i <= j < |log| ensures WithinBurst(rate, burst, log, i, j) {
          assert 0.0 <= Lag(log[i]) <= lag;
          NoLagKeepsPromise(rate, burst, log, tokens, at, last, i, j);
        }
      }
    } else {
      LateLogPaced(rate, burst, lag);
      LateLogInTime(rate, burst, lag);
      LateLogBreaks(rate, burst, lag);
      var log, t := LateLog(rate, burst, lag), NextToken(rate, lag);
      assert Paced(rate, burst, log, NextLevel(rate, burst, lag) - 1.0, t) && InTime(log, t, t) && LagsWithin(log, lag);
      assert !Promised(rate, burst, log);
    }
  }

  // ---- Waiting -----------------------------------------------------------------------------

  function Ceil(x: real): int { -((-x).Floor) }

  /** The delay a waiting pump arms its timer with, in whole milliseconds. */
  function Delay(rate: real, tokens: real): int
    requires rate > 0.0
  {
    var missing := if 1.0 - tokens > 0.0 then 1.0 - tokens else 0.0;
    var wait := Ceil(missing * 1000.0 / rate);
    if wait < 1 then 1 else wait
  }

  /** After this many milliseconds the bucket holds a token. */
  predicate Pays(rate: real, tokens: real, wait: int) {
    tokens + wait as real * rate / 1000.0 >= 1.0
  }

  /** The shortest timer, in whole milliseconds and at least one, after which a token has been earned. */
  ghost predicate LeastWait(rate: real, tokens: real, wait: int) {
    1 <= wait && Pays(rate, tokens, wait) && forall n: int | 1 <= n < wait :: !Pays(rate, tokens, n)
  }

  /** The wake-up is neither too early nor a millisecond too late. */
  lemma DelayIsLeast(rate: real, tokens: real)
    requires rate > 0.0
    ensures LeastWait(rate, tokens, Delay(rate, tokens))
  {
    var missing := if 1.0 - tokens > 0.0 then 1.0 - tokens else 0.0;
    var wait := Delay(rate, tokens);
    ScaleBack(rate, missing, wait as real);
    forall n: int | 1 <= n < wait ensures !Pays(rate, tokens, n) {
      assert n as real < missing * 1000.0 / rate;
      ScaleDown(rate, missing, n as real);
    }
  }

  lemma ScaleDown(rate: real, missing: real, wait: real)
    requires rate > 0.0 && wait < missing * 1000.0 / rate
    ensures wait * rate / 1000.0 < missing
  {
    var x := missing * 1000.0 / rate;
    assert x * rate == missing * 1000.0;
    assert (x - wait) * rate > 0.0;
    assert x * rate - wait * rate == (x - wait) * rate;
  }

  lemma ScaleBack(rate: real, missing: real, wait: real)
    requires rate > 0.0 && wait >= missing * 1000.0 / rate
    ensures wait * rate / 1000.0 >= missing
  {
    var x := missing * 1000.0 / rate;
    assert x * rate == missing * 1000.0;
    MulReal(x, wait, rate);
  }

  lemma MulReal(a: real, b: real, r: real)
    requires a <= b && r > 0.0
    ensures a * r <= b * r
  {
  }
}
