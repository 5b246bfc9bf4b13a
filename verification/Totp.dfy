/** One-time passwords: the code check with its leeway and the table of steps already used. */
module Totp {
  import opened Int64
  import opened Text
  import opened Wrappers

  /** Bytes of a code. */
  const DIGITS := 6
  const STEP_SECONDS := 30
  const LEEWAY := 1

  /** The code of a secret at a counter: RFC 6238 over a decoded secret, "" for an unusable one. */
  type Generator = (string, nat) -> string

  /** Unix seconds divided by the step length, rounded toward zero. */
  function StepOf(unix: int): int {
    if unix >= 0 then unix / STEP_SECONDS else -(-unix / STEP_SECONDS)
  }

  /** Steps are the half minutes since the epoch; before it they are counted toward it. */
  lemma StepMeans(unix: int)
    ensures unix >= 0 ==> 30 * StepOf(unix) <= unix < 30 * StepOf(unix) + 30
    ensures unix < 0 ==> 30 * StepOf(unix) - 30 < unix <= 30 * StepOf(unix)
  {
  }

  /** The counter is the step converted to uint64. */
  function CodeAt(totp: Generator, secret: string, unix: int): string {
    totp(secret, StepOf(unix) % MODULUS)
  }

  predicate MatchesAt(totp: Generator, secret: string, code: string, now: int, offset: int) {
    CodeAt(totp, secret, now + offset * STEP_SECONDS) == code
  }

  function Matcher(totp: Generator, secret: string, code: string, now: int): int -> bool {
    offset => MatchesAt(totp, secret, code, now, offset)
  }

  /** The first offset that matches, going from the given one up to the leeway. */
  function FirstOffset(matches: int -> bool, from: int): Option<int>
    decreases LEEWAY - from
  {
    if from > LEEWAY then None else if matches(from) then Some(from) else FirstOffset(matches, from + 1)
  }

  function Validated(totp: Generator, secret: string, code: string, now: int): Option<int> {
    if ByteLength(TrimSpace(code)) != DIGITS then None
    else
      match FirstOffset(Matcher(totp, secret, TrimSpace(code), now), -LEEWAY)
      case None => None
      case Some(offset) => Some(StepOf(now) + offset)
  }

  method ValidateTOTPStep(totp: Generator, secret: string, code: string, now: int) returns (step: Option<int>)
    ensures step == Validated(totp, secret, code, now)
  {
    var trimmed := TrimSpace(code);
    if ByteLength(trimmed) != DIGITS {
      return None;
    }
    var base := StepOf(now);
    for offset := -LEEWAY to LEEWAY + 1
      invariant FirstOffset(Matcher(totp, secret, trimmed, now), -LEEWAY)
                == FirstOffset(Matcher(totp, secret, trimmed, now), offset)
    {
      if CodeAt(totp, secret, now + offset * STEP_SECONDS) == trimmed {
        return Some(base + offset);
      }
    }
    return None;
  }

  lemma {:induction false} FirstOffsetMeans(matches: int -> bool, from: int)
    requires from <= LEEWAY + 1
    ensures var first := FirstOffset(matches, from);
      && (first.None? <==> forall o :: from <= o <= LEEWAY ==> !matches(o))
      && (first.Some? ==> from <= first.value <= LEEWAY && matches(first.value)
                          && forall o :: from <= o < first.value ==> !matches(o))
    decreases LEEWAY - from
  {
    if from <= LEEWAY {
      FirstOffsetMeans(matches, from + 1);
    }
  }

  /** A code is valid exactly when it has six bytes and is that of a step within the leeway; the step
      reported is within the leeway of the clock, and once the clock has passed its first step, it is the
      counter whose code was given. */
  lemma ValidatedMeans(totp: Generator, secret: string, code: string, now: int)
    ensures var step := Validated(totp, secret, code, now);
      && (step.Some? <==> ByteLength(TrimSpace(code)) == 6
                          && exists o :: -1 <= o <= 1 && MatchesAt(totp, secret, TrimSpace(code), now, o))
      && (step.Some? ==> StepOf(now) - 1 <= step.value <= StepOf(now) + 1)
      && (step.Some? && now >= 30 ==> totp(secret, step.value % MODULUS) == TrimSpace(code))
  {
    FirstOffsetMeans(Matcher(totp, secret, TrimSpace(code), now), -LEEWAY);
  }

  // ---- The table of used steps ----

  type Steps = map<(string, int), int>

  /** Recording a step drops the user's steps that are more than two older. */
  function Marked(rows: Steps, user: string, step: int, now: int): Steps {
    (map key | key in rows && !(key.0 == user && key.1 < step - 2) :: rows[key])[(user, step) := now]
  }

  class UsedTotpSteps {
    var rows: Steps

    constructor ()
      ensures rows == map[]
    {
      rows := map[];
    }

    /** One statement: the primary key decides, and a conflict undoes the pruning as well. */
    method MarkUsed(user: string, step: int, now: int) returns (ok: bool)
      modifies this
      ensures ok <==> (user, step) !in old(rows)
      ensures rows == if ok then Marked(old(rows), user, step, now) else old(rows)
    {
      if (user, step) in rows {
        return false;
      }
      rows := map key | key in rows && !(key.0 == user && key.1 < step - 2) :: rows[key];
      rows := rows[(user, step) := now];
      return true;
    }

    /** Signing in with a code: it must be valid and its step unused. */
    method Accept(totp: Generator, a: Attempt) returns (accepted: bool)
      modifies this
      ensures rows == Next(totp, State(old(rows), []), a).rows
      ensures var log := Next(totp, State(old(rows), []), a).log;
        |log| == 1 && (accepted <==> log[0].Some?)
    {
      var step := ValidateTOTPStep(totp, a.secret, a.code, a.now);
      if step.None? {
        return false;
      }
      accepted := MarkUsed(a.user, step.value, a.now);
    }
  }

  // ---- Runs ----

  datatype Attempt = Attempt(user: string, secret: string, code: string, now: int)

  /** The table, and for every attempt the (user, step) pair it was accepted for, which the program does not
      keep. */
  datatype State = State(rows: Steps, log: seq<Option<(string, int)>>)

  function Next(totp: Generator, s: State, a: Attempt): State {
    var step := Validated(totp, a.secret, a.code, a.now);
    if step.None? || (a.user, step.value) in s.rows then State(s.rows, s.log + [None])
    else State(Marked(s.rows, a.user, step.value, a.now), s.log + [Some((a.user, step.value))])
  }

  function Run(totp: Generator, attempts: seq<Attempt>): State {
    if attempts == [] then State(map[], [])
    else Next(totp, Run(totp, attempts[..|attempts| - 1]), attempts[|attempts| - 1])
  }

  lemma {:induction false} LogLength(totp: Generator, attempts: seq<Attempt>)
    ensures |Run(totp, attempts).log| == |attempts|
  {
    if attempts != [] {
      LogLength(totp, attempts[..|attempts| - 1]);
    }
  }

  lemma {:induction false} LogOfPrefix(totp: Generator, attempts: seq<Attempt>, n: nat)
    requires n <= |attempts|
    ensures Run(totp, attempts[..n]).log <= Run(totp, attempts).log
  {
    if n == |attempts| {
      assert attempts[..n] == attempts;
    } else {
      assert attempts[..|attempts| - 1][..n] == attempts[..n];
      LogOfPrefix(totp, attempts[..|attempts| - 1], n);
    }
  }

  // ---- How many rows remain ----

  lemma StepOfGrows(a: int, b: int)
    requires a <= b
    ensures StepOf(a) <= StepOf(b)
  {
  }

  /** No recorded step is ahead of the leeway. */
  ghost predicate NoneAhead(s: State, clock: int) {
    forall key :: key in s.rows ==> key.1 <= StepOf(clock) + LEEWAY
  }

  lemma {:induction false} RunStaysBehind(totp: Generator, attempts: seq<Attempt>, clock: int)
    requires forall a :: a in attempts ==> a.now <= clock
    ensures NoneAhead(Run(totp, attempts), clock)
  {
    if attempts != [] {
      var last := attempts[|attempts| - 1];
      RunStaysBehind(totp, attempts[..|attempts| - 1], clock);
      ValidatedMeans(totp, last.secret, last.code, last.now);
      StepOfGrows(last.now, clock);
    }
  }

  function StepsOf(rows: Steps, user: string): set<int> {
    set key | key in rows && key.0 == user :: key.1
  }

  lemma AtMostFive(left: set<int>, step: int)
    requires forall s :: s in left ==> step - 2 <= s <= step + 2
    ensures |left| <= 5
  {
    var window := {step - 2, step - 1, step, step + 1, step + 2};
    assert |window| == 5;
    forall s | s in left ensures s in window {}
    SubsetIsSmaller(left, window);
  }

  lemma {:induction false} SubsetIsSmaller<T>(a: set<T>, b: set<T>)
    requires a <= b
    ensures |a| <= |b|
  {
    if a == {} {
    } else {
      var x :| x in a;
      SubsetIsSmaller(a - {x}, b - {x});
    }
  }

  lemma OthersAreNear(totp: Generator, s: State, a: Attempt)
    requires NoneAhead(s, a.now) && Next(totp, s, a).log != s.log + [None]
    ensures var step := Validated(totp, a.secret, a.code, a.now);
      && step.Some? && (a.user, step.value) in Next(totp, s, a).rows
      && forall near :: near in StepsOf(Next(totp, s, a).rows, a.user) ==> step.value - 2 <= near <= step.value + 2
  {
    ValidatedMeans(totp, a.secret, a.code, a.now);
  }

  /** After a code is accepted, at most five rows of that user remain, all within two steps of it - provided
      the clock has not been ahead before. */
  lemma FewRowsRemain(totp: Generator, attempts: seq<Attempt>, a: Attempt)
    requires forall e :: e in attempts ==> e.now <= a.now
    requires Run(totp, attempts + [a]).log != Run(totp, attempts).log + [None]
    ensures var step := Validated(totp, a.secret, a.code, a.now);
      var left := StepsOf(Run(totp, attempts + [a]).rows, a.user);
      step.Some? && step.value in left && |left| <= 5 && forall s :: s in left ==> step.value - 2 <= s <= step.value + 2
  {
    var before := Run(totp, attempts);
    assert (attempts + [a])[..|attempts|] == attempts;
    RunStaysBehind(totp, attempts, a.now);
    OthersAreNear(totp, before, a);
    AtMostFive(StepsOf(Next(totp, before, a).rows, a.user), Validated(totp, a.secret, a.code, a.now).value);
  }
}
