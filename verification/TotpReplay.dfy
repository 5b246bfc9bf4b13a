/** One-time use of codes: when the clock rules out that a step is accepted twice, and exactly when it does
    not. */
module TotpReplay {
  import opened Int64
  import opened Text
  import opened Totp
  import opened Wrappers

  type Log = seq<Option<(string, int)>>

  /** The same user has the same step accepted at two attempts. */
  predicate Again(log: Log, i: int, k: int) {
    0 <= i < k < |log| && log[i].Some? && log[i] == log[k]
  }

  ghost predicate NoRepeats(log: Log) {
    forall i, k :: !Again(log, i, k)
  }

  // ---- What the table remembers ----

  /** Attempt x was accepted for this key, and no later accepted step of the user exceeds it by more than
      two. */
  ghost predicate Remembered(log: Log, x: int, key: (string, int)) {
    && 0 <= x < |log| && log[x] == Some(key)
    && forall y :: x < y < |log| && log[y].Some? && log[y].value.0 == key.0 ==> log[y].value.1 <= key.1 + 2
  }

  lemma RememberedSnoc(log: Log, entry: Option<(string, int)>, x: int, key: (string, int))
    ensures Remembered(log + [entry], x, key) <==>
            || (x == |log| && entry == Some(key))
            || (Remembered(log, x, key) && (entry.Some? && entry.value.0 == key.0 ==> entry.value.1 <= key.1 + 2))
  {
    var all := log + [entry];
    if 0 <= x < |log| {
      assert all[|log|] == entry;
      assert forall y :: 0 <= y < |log| ==> all[y] == log[y];
    }
  }

  /** A key is in the table exactly when some attempt for it is remembered. */
  lemma {:induction false} RowsTell(totp: Generator, attempts: seq<Attempt>, key: (string, int))
    ensures key in Run(totp, attempts).rows <==> exists x :: Remembered(Run(totp, attempts).log, x, key)
  {
    if attempts != [] {
      var a, before := attempts[|attempts| - 1], Run(totp, attempts[..|attempts| - 1]);
      var after := Next(totp, before, a);
      var entry := after.log[|before.log|];
      RowsTell(totp, attempts[..|attempts| - 1], key);
      assert after.log == before.log + [entry];
      forall x ensures Remembered(after.log, x, key) <==>
                       || (x == |before.log| && entry == Some(key))
                       || (Remembered(before.log, x, key)
                           && (entry.Some? && entry.value.0 == key.0 ==> entry.value.1 <= key.1 + 2))
      {
        RememberedSnoc(before.log, entry, x, key);
      }
      if entry == Some(key) {
        assert Remembered(after.log, |before.log|, key);
      }
    }
  }

  // ---- Which steps a clock can report ----

  function CounterAt(now: int, offset: int): nat {
    StepOf(now + offset * STEP_SECONDS) % MODULUS
  }

  /** A code accepted at this time can be reported as this step: no earlier offset has the same counter. */
  predicate Reports(now: int, step: int) {
    && -LEEWAY <= step - StepOf(now) <= LEEWAY
    && forall o :: -LEEWAY <= o < step - StepOf(now) ==> CounterAt(now, o) != CounterAt(now, step - StepOf(now))
  }

  lemma AcceptedIsReported(totp: Generator, secret: string, code: string, now: int)
    ensures Validated(totp, secret, code, now).Some? ==> Reports(now, Validated(totp, secret, code, now).value)
  {
    var matches := Matcher(totp, secret, TrimSpace(code), now);
    FirstOffsetMeans(matches, -LEEWAY);
    if Validated(totp, secret, code, now).Some? {
      var offset := FirstOffset(matches, -LEEWAY).value;
      forall o | -LEEWAY <= o < offset ensures CounterAt(now, o) != CounterAt(now, offset) {
        assert !matches(o) && matches(offset);
      }
    }
  }

  /** After the first step of the clock these are the three steps within the leeway. */
  lemma ReportsAfterFirstStep(now: int, step: int)
    requires now >= STEP_SECONDS
    ensures Reports(now, step) <==> StepOf(now) - LEEWAY <= step <= StepOf(now) + LEEWAY
  {
    forall o | -LEEWAY <= o <= LEEWAY ensures StepOf(now + o * STEP_SECONDS) == StepOf(now) + o {
      if o == -1 {
        assert now + o * STEP_SECONDS == now - STEP_SECONDS;
      }
    }
  }

  // ---- When a step is accepted twice ----

  /** A step s that the clock reports at i and at k, and at j in between a step u that makes the table forget
      it. */
  predicate Forgets(clocks: seq<int>, i: int, j: int, k: int, s: int, u: int) {
    && 0 <= i < j < k < |clocks|
    && Reports(clocks[i], s) && Reports(clocks[j], u) && Reports(clocks[k], s) && s + 2 < u
  }

  ghost predicate Replayable(clocks: seq<int>) {
    exists i, j, k, s, u :: Forgets(clocks, i, j, k, s, u)
  }

  function ClocksOf(attempts: seq<Attempt>): seq<int> {
    seq(|attempts|, x requires 0 <= x < |attempts| => attempts[x].now)
  }

  lemma LogGrows(totp: Generator, attempts: seq<Attempt>, x: nat)
    requires x < |attempts|
    ensures Run(totp, attempts[..x + 1]) == Next(totp, Run(totp, attempts[..x]), attempts[x])
    ensures |Run(totp, attempts[..x]).log| == x
    ensures Run(totp, attempts[..x + 1]).log <= Run(totp, attempts).log
  {
    LogLength(totp, attempts[..x]);
    assert attempts[..x + 1][..x] == attempts[..x] && attempts[..x + 1][x] == attempts[x];
    LogOfPrefix(totp, attempts, x + 1);
  }

  lemma LoggedIsReported(totp: Generator, attempts: seq<Attempt>, x: nat)
    requires x < |Run(totp, attempts).log| == |attempts| && Run(totp, attempts).log[x].Some?
    ensures Reports(attempts[x].now, Run(totp, attempts).log[x].value.1)
    ensures Run(totp, attempts[..x]).log == Run(totp, attempts).log[..x]
    ensures Run(totp, attempts).log[x].value !in Run(totp, attempts[..x]).rows
  {
    var a := attempts[x];
    LogGrows(totp, attempts, x);
    LogOfPrefix(totp, attempts, x);
    AcceptedIsReported(totp, a.secret, a.code, a.now);
  }

  /** Whatever is tried, a step is accepted twice only where the clocks allow it. */
  lemma ReplayNeedsTheClock(totp: Generator, attempts: seq<Attempt>, i: int, k: int)
    requires Again(Run(totp, attempts).log, i, k)
    ensures Replayable(ClocksOf(attempts))
  {
    var log, clocks := Run(totp, attempts).log, ClocksOf(attempts);
    LogLength(totp, attempts);
    LoggedIsReported(totp, attempts, i);
    LoggedIsReported(totp, attempts, k);
    RowsTell(totp, attempts[..k], log[k].value);
    assert !Remembered(log[..k], i, log[k].value);
    var j :| i < j < k && log[j].Some? && log[j].value.0 == log[k].value.0 && log[j].value.1 > log[k].value.1 + 2;
    LoggedIsReported(totp, attempts, j);
    assert Forgets(clocks, i, j, k, log[k].value.1, log[j].value.1);
  }

  // ---- Where they allow it, it happens ----

  /** A generator with three codes of interest. */
  function ThreeCodes(a: nat, b: nat, c: nat): Generator {
    (secret, counter) =>
      if counter == a then "000001" else if counter == b then "000002" else if counter == c then "000003" else ""
  }

  lemma CodeOf(a: nat, b: nat, c: nat, counter: nat, other: nat)
    requires counter in {a, b, c}
    ensures var code := ThreeCodes(a, b, c)("s", counter);
      && TrimSpace(code) == code && ByteLength(code) == DIGITS
      && (ThreeCodes(a, b, c)("s", other) == code ==> other == counter)
  {
    var code := ThreeCodes(a, b, c)("s", counter);
    assert code[0] == '0' && code[5] in {'1', '2', '3'};
    AsciiLength(code);
  }

  /** Entering the code of a step that the clock can report. */
  lemma EntersStep(a: nat, b: nat, c: nat, now: int, step: int)
    requires Reports(now, step) && CounterAt(now, step - StepOf(now)) in {a, b, c}
    ensures var totp := ThreeCodes(a, b, c);
      Validated(totp, "s", totp("s", CounterAt(now, step - StepOf(now))), now) == Some(step)
  {
    var totp, offset := ThreeCodes(a, b, c), step - StepOf(now);
    var code := totp("s", CounterAt(now, offset));
    var matches := Matcher(totp, "s", code, now);
    CodeOf(a, b, c, CounterAt(now, offset), 0);
    assert matches(offset);
    forall o | -LEEWAY <= o < offset ensures !matches(o) {
      CodeOf(a, b, c, CounterAt(now, offset), CounterAt(now, o));
    }
    FirstOffsetMeans(matches, -LEEWAY);
  }

  /** Three attempts enter a code, the others nothing. */
  function Entered(clocks: seq<int>, i: int, j: int, k: int, codes: (string, string, string)): seq<Attempt> {
    seq(|clocks|, x requires 0 <= x < |clocks| =>
      var code := if x == i then codes.0 else if x == j then codes.1 else if x == k then codes.2 else "";
      Attempt("u", "s", code, clocks[x]))
  }

  /** The attempts are accepted at i and k for s, and at j for u. */
  ghost predicate Enters(totp: Generator, attempts: seq<Attempt>, i: int, j: int, k: int, s: int, u: int) {
    && 0 <= i < j < k < |attempts| && s + 2 < u
    && forall x :: 0 <= x < |attempts| ==>
         && attempts[x].user == "u"
         && Validated(totp, attempts[x].secret, attempts[x].code, attempts[x].now)
            == if x == i || x == k then Some(s) else if x == j then Some(u) else None
  }

  lemma {:induction false} PrefixRows(totp: Generator, attempts: seq<Attempt>, i: int, j: int, k: int, s: int, u: int,
      n: nat)
    requires Enters(totp, attempts, i, j, k, s, u) && n <= k
    ensures Run(totp, attempts[..n]).rows.Keys == if n <= i then {} else if n <= j then {("u", s)} else {("u", u)}
  {
    if n > 0 {
      PrefixRows(totp, attempts, i, j, k, s, u, n - 1);
      assert attempts[..n][..n - 1] == attempts[..n - 1] && attempts[..n][n - 1] == attempts[n - 1];
    }
  }

  lemma PrefixLog(totp: Generator, attempts: seq<Attempt>, i: int, j: int, k: int, s: int, u: int, x: nat)
    requires Enters(totp, attempts, i, j, k, s, u) && (x == i || x == k)
    ensures x < |Run(totp, attempts).log| && Run(totp, attempts).log[x] == Some(("u", s))
  {
    PrefixRows(totp, attempts, i, j, k, s, u, x);
    LogGrows(totp, attempts, x);
  }

  lemma ReplayHappens(clocks: seq<int>, i: int, j: int, k: int, s: int, u: int)
      returns (totp: Generator, attempts: seq<Attempt>)
    requires Forgets(clocks, i, j, k, s, u)
    ensures ClocksOf(attempts) == clocks && Again(Run(totp, attempts).log, i, k)
  {
    var a, b, c := CounterAt(clocks[i], s - StepOf(clocks[i])), CounterAt(clocks[j], u - StepOf(clocks[j])),
                   CounterAt(clocks[k], s - StepOf(clocks[k]));
    totp := ThreeCodes(a, b, c);
    attempts := Entered(clocks, i, j, k, (totp("s", a), totp("s", b), totp("s", c)));
    EntersStep(a, b, c, clocks[i], s);
    EntersStep(a, b, c, clocks[j], u);
    EntersStep(a, b, c, clocks[k], s);
    assert Enters(totp, attempts, i, j, k, s, u);
    PrefixLog(totp, attempts, i, j, k, s, u, i);
    PrefixLog(totp, attempts, i, j, k, s, u, k);
  }

  // ---- The exact condition ----

  ghost predicate Replays(totp: Generator, attempts: seq<Attempt>, clocks: seq<int>) {
    ClocksOf(attempts) == clocks && !NoRepeats(Run(totp, attempts).log)
  }

  /** Attempts at these times can have a step accepted twice - for some generator, secrets and codes - exactly
      when the clock reports a step, then one that makes the table forget it, then the step again. */
  lemma ReplayExactlyWhen(clocks: seq<int>)
    ensures (exists totp: Generator, attempts: seq<Attempt> :: Replays(totp, attempts, clocks)) <==> Replayable(clocks)
  {
    if totp: Generator, attempts: seq<Attempt> :| Replays(totp, attempts, clocks) {
      var i, k :| Again(Run(totp, attempts).log, i, k);
      ReplayNeedsTheClock(totp, attempts, i, k);
    }
    if Replayable(clocks) {
      var i, j, k, s, u :| Forgets(clocks, i, j, k, s, u);
      var totp, attempts := ReplayHappens(clocks, i, j, k, s, u);
      assert Replays(totp, attempts, clocks);
    }
  }

  /** The clock stands at most two steps apart at i and at k, and ahead of both at j in between. */
  predicate GoesBack(clocks: seq<int>, i: int, j: int, k: int) {
    && 0 <= i < j < k < |clocks|
    && -2 <= StepOf(clocks[i]) - StepOf(clocks[k]) <= 2
    && StepOf(clocks[i]) < StepOf(clocks[j]) && StepOf(clocks[k]) < StepOf(clocks[j])
  }

  /** Once the clock has passed its first step, that means: it goes back, if only by one step. */
  lemma ReplayableMeansGoingBack(clocks: seq<int>)
    requires forall now :: now in clocks ==> now >= STEP_SECONDS
    ensures Replayable(clocks) <==> exists i, j, k :: GoesBack(clocks, i, j, k)
  {
    forall x, step | 0 <= x < |clocks|
      ensures Reports(clocks[x], step) <==> StepOf(clocks[x]) - LEEWAY <= step <= StepOf(clocks[x]) + LEEWAY
    {
      assert clocks[x] in clocks;
      ReportsAfterFirstStep(clocks[x], step);
    }
    if Replayable(clocks) {
      var i, j, k, s, u :| Forgets(clocks, i, j, k, s, u);
      assert GoesBack(clocks, i, j, k);
    }
    if i, j, k :| GoesBack(clocks, i, j, k) {
      var later := if StepOf(clocks[i]) < StepOf(clocks[k]) then StepOf(clocks[k]) else StepOf(clocks[i]);
      assert Forgets(clocks, i, j, k, later - 1, StepOf(clocks[j]) + 1);
    }
  }

  lemma ForwardNeverForgets(clocks: seq<int>)
    requires forall i, j :: 0 <= i < j < |clocks| ==> clocks[i] <= clocks[j]
    ensures !Replayable(clocks)
  {
    forall i, j, k, s, u ensures !Forgets(clocks, i, j, k, s, u) {
      if 0 <= j < k < |clocks| {
        StepOfGrows(clocks[j], clocks[k]);
      }
    }
  }

  /** With a clock that never goes back, no user has the same step accepted twice, although old steps are
      forgotten. */
  lemma {:induction false} OneTimeUse(totp: Generator, attempts: seq<Attempt>)
    requires forall i, j :: 0 <= i < j < |attempts| ==> attempts[i].now <= attempts[j].now
    ensures NoRepeats(Run(totp, attempts).log)
  {
    ForwardNeverForgets(ClocksOf(attempts));
    forall i, k ensures !Again(Run(totp, attempts).log, i, k) {
      if Again(Run(totp, attempts).log, i, k) {
        ReplayNeedsTheClock(totp, attempts, i, k);
      }
    }
  }
}
