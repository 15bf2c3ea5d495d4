/** The channel supervisor: the retry and backoff policy around a chat
    session, the registry of running channels with their stop flags, and the
    command parser of the interactive prompt. Tasks, sleeping and the
    database are not modelled; the outcomes they produce are inputs. */
module Cli {
  import opened PyValues
  import SanitizeValidate
  import Storage

  // ---------------------------------------------------------------------------
  // Retry policy.

  const MAX_RETRIES: nat := 10
  const MAX_CONNECTION_RETRIES: nat := 50
  const BASE_DELAY: nat := 2
  const CONNECTION_BASE_DELAY: nat := 1
  /** Close codes that get the connection backoff: 4200, a code of the
      private range 4000-4999 (section 7.4.2 of RFC 6455), and 1011, internal
      error (section 7.4.1 of RFC 6455), which the keepalive sends. */
  const SEVERE_CLOSE_CODES: set<int> := {4200, 1011}

  /** How one call of the chat session ended. */
  datatype AttemptOutcome =
    | ListenReturned                  // returned normally
    | ConnectionClosed(code: Option<int>) // raised ConnectionClosed; `code` as the library reports it
    | OtherException                  // raised any other exception

  datatype Counters = Counters(retries: nat, connectionRetries: nat)

  /** Why supervision ended. */
  datatype SupervisionEnd =
    | FlagsSet                  // the loop found the stop flag set or the logger no longer running
    | ListenFinished            // the session returned normally
    | ConnectionRetriesExceeded // a severe closure after more than 50 closures
    | RetriesExceeded           // more than 10 other failures
    | StoppedDuringBackoff      // the stop flag was set while waiting

  datatype Decision = Stop(reason: SupervisionEnd) | Retry(delay: real)

  function PowNat(b: nat, n: nat): (r: nat)
    ensures b >= 1 ==> r >= 1
  {
    if n == 0 then 1 else b * PowNat(b, n - 1)
  }

  function MinReal(a: real, b: real): real {
    if a <= b then a else b
  }

  function MinNat(a: nat, b: nat): nat {
    if a <= b then a else b
  }

  /** `1.5 ** k`, exactly. */
  function OnePointFivePow(k: nat): real {
    (PowNat(3, k) as real) / (PowNat(2, k) as real)
  }

  /** The delay after the n-th severe closure. */
  function SevereDelay(n: nat): real {
    if n <= 10 then MinReal((CONNECTION_BASE_DELAY as real) * OnePointFivePow(MinNat(n, 8)), 30.0)
    else 30.0
  }

  /** The delay after the n-th other failure. */
  function GenericDelay(n: nat): real
    requires n >= 1
  {
    (BASE_DELAY * PowNat(2, n - 1)) as real
  }

  /** One iteration of the supervision loop after the session ended: the
      decision and the new counters. */
  function RetryStep(c: Counters, outcome: AttemptOutcome): (Decision, Counters) {
    match outcome
    case ListenReturned => (Stop(ListenFinished), Counters(0, 0))
    case ConnectionClosed(code) =>
      var connectionRetries := c.connectionRetries + 1;
      if code.Some? && code.value in SEVERE_CLOSE_CODES then
        var c' := c.(connectionRetries := connectionRetries);
        if connectionRetries > MAX_CONNECTION_RETRIES then (Stop(ConnectionRetriesExceeded), c')
        else (Retry(SevereDelay(connectionRetries)), c')
      else
        var c' := Counters(c.retries + 1, connectionRetries);
        if c'.retries > MAX_RETRIES then (Stop(RetriesExceeded), c')
        else (Retry(GenericDelay(c'.retries)), c')
    case OtherException =>
      var c' := c.(retries := c.retries + 1);
      if c'.retries > MAX_RETRIES then (Stop(RetriesExceeded), c')
      else (Retry(GenericDelay(c'.retries)), c')
  }

  /** One iteration that found the stop flag clear and the logger running:
      how the session ended, and whether the stop flag was set during the
      backoff wait that may follow. */
  datatype Round = Round(outcome: AttemptOutcome, stopDuringWait: bool)

  /** The supervision loop over its iterations; once they are used up the
      loop finds the flags set. Gives why it ended and the delays it waited. */
  function Supervise(c: Counters, rounds: seq<Round>): (SupervisionEnd, seq<real>)
    decreases |rounds|
  {
    if rounds == [] then (FlagsSet, [])
    else
      match RetryStep(c, rounds[0].outcome)
      case (Stop(reason), _) => (reason, [])
      case (Retry(delay), c') =>
        if rounds[0].stopDuringWait then (StoppedDuringBackoff, [delay])
        else
          var (end, waits) := Supervise(c', rounds[1..]);
          (end, [delay] + waits)
  }

  /** One unfolding of the supervision loop. */
  lemma SuperviseStep(c: Counters, rounds: seq<Round>)
    requires rounds != []
    ensures var (d, c') := RetryStep(c, rounds[0].outcome);
            var s := Supervise(c, rounds);
            (d.Stop? ==> s == (d.reason, []))
            && (d.Retry? && rounds[0].stopDuringWait ==> s == (StoppedDuringBackoff, [d.delay]))
            && (d.Retry? && !rounds[0].stopDuringWait ==>
                  s.0 == Supervise(c', rounds[1..]).0 && s.1 == [d.delay] + Supervise(c', rounds[1..]).1)
  {
  }

  /** `SuperviseStep` at position `i` of a sequence of rounds. */
  lemma SuperviseAt(c: Counters, rounds: seq<Round>, i: nat)
    requires i < |rounds|
    ensures var (d, c') := RetryStep(c, rounds[i].outcome);
            var s := Supervise(c, rounds[i..]);
            (d.Stop? ==> s == (d.reason, []))
            && (d.Retry? && rounds[i].stopDuringWait ==> s == (StoppedDuringBackoff, [d.delay]))
            && (d.Retry? && !rounds[i].stopDuringWait ==>
                  s.0 == Supervise(c', rounds[i + 1..]).0 && s.1 == [d.delay] + Supervise(c', rounds[i + 1..]).1)
  {
    SuperviseStep(c, rounds[i..]);
    assert rounds[i..][0] == rounds[i] && rounds[i..][1..] == rounds[i + 1..];
  }

  /** What one iteration of the supervision loop does to the outcome still
      owed, given the delays already waited. */
  lemma SuperviseLoopStep(whole: (SupervisionEnd, seq<real>), waits: seq<real>, c: Counters, rounds: seq<Round>, i: nat)
    requires i < |rounds|
    requires whole.0 == Supervise(c, rounds[i..]).0
    requires whole.1 == waits + Supervise(c, rounds[i..]).1
    ensures var (d, c') := RetryStep(c, rounds[i].outcome);
            (d.Stop? ==> whole == (d.reason, waits))
            && (d.Retry? && rounds[i].stopDuringWait ==> whole == (StoppedDuringBackoff, waits + [d.delay]))
            && (d.Retry? && !rounds[i].stopDuringWait ==>
                  whole.0 == Supervise(c', rounds[i + 1..]).0
                  && whole.1 == (waits + [d.delay]) + Supervise(c', rounds[i + 1..]).1)
  {
    SuperviseAt(c, rounds, i);
    var (d, c') := RetryStep(c, rounds[i].outcome);
    if d.Stop? {
      assert waits + [] == waits;
    } else if !rounds[i].stopDuringWait {
      var later := Supervise(c', rounds[i + 1..]).1;
      assert waits + ([d.delay] + later) == (waits + [d.delay]) + later;
    }
  }

  // ---------------------------------------------------------------------------
  // Properties of the retry policy.

  /** `1.5 ** k` grows with k, from 1. */
  lemma {:induction false} OnePointFivePowStep(k: nat)
    ensures OnePointFivePow(k + 1) == OnePointFivePow(k) * 1.5
    ensures OnePointFivePow(k) >= 1.0
  {
    var a, b := PowNat(3, k) as real, PowNat(2, k) as real;
    assert PowNat(3, k + 1) as real == 3.0 * a;
    assert PowNat(2, k + 1) as real == 2.0 * b;
    assert (3.0 * a) / (2.0 * b) == (a / b) * 1.5;
    if k > 0 {
      OnePointFivePowStep(k - 1);
    }
  }

  lemma {:induction false} OnePointFivePowMonotone(j: nat, k: nat)
    requires j <= k
    ensures OnePointFivePow(j) <= OnePointFivePow(k)
    decreases k - j
  {
    if j < k {
      OnePointFivePowStep(j);
      OnePointFivePowMonotone(j + 1, k);
    }
  }

  /** The severe delay: `1.5 ** n` up to the eighth closure, then
      `1.5 ** 8` = 25.62890625 up to the tenth, then exactly 30 s; it is never
      below 1.5 s and never above 30 s, and up to the tenth closure never above
      25.62890625 s, so the cap of 30 s is never reached there. */
  lemma SevereDelayValues(n: nat)
    requires n >= 1
    ensures n <= 8 ==> SevereDelay(n) == OnePointFivePow(n)
    ensures 8 < n <= 10 ==> SevereDelay(n) == 6561.0 / 256.0
    ensures n > 10 ==> SevereDelay(n) == 30.0
    ensures n <= 10 ==> 1.5 <= SevereDelay(n) <= 6561.0 / 256.0
    ensures 1.5 <= SevereDelay(n) <= 30.0
  {
    var m := MinNat(n, 8);
    OnePointFivePowMonotone(1, m);
    OnePointFivePowMonotone(m, 8);
    OnePointFivePowStep(0);
    calc {
      OnePointFivePow(8);
      (PowNat(3, 8) as real) / (PowNat(2, 8) as real);
      6561.0 / 256.0;
    }
  }

  /** The generic delay is 2 ** n seconds and lies between 2 and 1024 for the
      ten failures that get one. */
  lemma {:induction false} GenericDelayValues(n: nat)
    requires 1 <= n <= MAX_RETRIES
    ensures GenericDelay(n) == PowNat(2, n) as real
    ensures 2.0 <= GenericDelay(n) <= 1024.0
  {
    PowNatMonotone(2, 1, n);
    PowNatMonotone(2, n, 10);
    assert PowNat(2, 10) == 1024;
  }

  lemma {:induction false} PowNatMonotone(b: nat, j: nat, k: nat)
    requires b >= 1 && j <= k
    ensures PowNat(b, j) <= PowNat(b, k)
    decreases k - j
  {
    if j < k {
      PowNatMonotone(b, j, k - 1);
      MulGrows(b, PowNat(b, k - 1));
    }
  }

  lemma MulGrows(b: nat, x: nat)
    requires b >= 1
    ensures b * x >= x
  {
    var c: nat := b - 1;
    assert b * x == x + c * x;
  }

  /** Every closure counts towards the connection counter, whatever its code;
      only closures with a severe code leave the other counter alone. */
  lemma EveryClosureCounts(c: Counters, code: Option<int>)
    ensures var (_, c') := RetryStep(c, ConnectionClosed(code));
            c'.connectionRetries == c.connectionRetries + 1
            && (c'.retries == c.retries <==> code.Some? && code.value in SEVERE_CLOSE_CODES)
  {
  }

  /** A severe closure ends supervision exactly when it is the 51st closure or
      later; otherwise it waits the severe delay. */
  lemma SevereClosureDecision(c: Counters, code: int)
    requires code in SEVERE_CLOSE_CODES
    ensures var (d, _) := RetryStep(c, ConnectionClosed(Some(code)));
            var n := c.connectionRetries + 1;
            (d.Stop? <==> n > MAX_CONNECTION_RETRIES)
            && (d.Stop? ==> d.reason == ConnectionRetriesExceeded)
            && (d.Retry? ==> d.delay == SevereDelay(n) && 1.5 <= d.delay <= 30.0)
  {
    SevereDelayValues(c.connectionRetries + 1);
  }

  /** Any other failure ends supervision exactly when it is the 11th; before
      that it waits 2 ** n seconds. */
  lemma OtherFailureDecision(c: Counters, outcome: AttemptOutcome)
    requires outcome.OtherException? || (outcome.ConnectionClosed? && !(outcome.code.Some? && outcome.code.value in SEVERE_CLOSE_CODES))
    ensures var (d, c') := RetryStep(c, outcome);
            c'.retries == c.retries + 1
            && (d.Stop? <==> c.retries + 1 > MAX_RETRIES)
            && (d.Stop? ==> d.reason == RetriesExceeded)
            && (d.Retry? ==> d.delay == PowNat(2, c.retries + 1) as real && 2.0 <= d.delay <= 1024.0)
  {
    if c.retries + 1 <= MAX_RETRIES {
      GenericDelayValues(c.retries + 1);
    }
  }

  /** A normal return ends supervision at once, without a wait. */
  lemma NormalReturnEnds(c: Counters, stopDuringWait: bool, rest: seq<Round>)
    ensures Supervise(c, [Round(ListenReturned, stopDuringWait)] + rest) == (ListenFinished, [])
  {
  }

  /** A stop flag set during a wait ends supervision after that wait; a wait
      that times out goes round again. */
  lemma BackoffWaitControl(c: Counters, r: Round, rest: seq<Round>)
    requires RetryStep(c, r.outcome).0.Retry?
    ensures var delay := RetryStep(c, r.outcome).0.delay;
            var s := Supervise(c, [r] + rest);
            (r.stopDuringWait ==> s == (StoppedDuringBackoff, [delay]))
            && (!r.stopDuringWait ==>
                  var t := Supervise(RetryStep(c, r.outcome).1, rest);
                  s == (t.0, [delay] + t.1))
  {
    assert ([r] + rest)[0] == r && ([r] + rest)[1..] == rest;
  }

  /** However the sessions end, supervision waits at most 60 times in all,
      each wait between 1.5 and 1024 seconds. */
  lemma SupervisionBounded(rounds: seq<Round>)
    ensures var waits := Supervise(Counters(0, 0), rounds).1;
            |waits| <= MAX_RETRIES + MAX_CONNECTION_RETRIES
            && forall k :: 0 <= k < |waits| ==> 1.5 <= waits[k] <= 1024.0
  {
    SupervisionBudget(Counters(0, 0), rounds);
  }

  function Budget(c: Counters): int {
    (MAX_RETRIES - c.retries)
    + (if c.connectionRetries <= MAX_CONNECTION_RETRIES then MAX_CONNECTION_RETRIES - c.connectionRetries else 0)
  }

  lemma {:induction false} SupervisionBudget(c: Counters, rounds: seq<Round>)
    requires c.retries <= MAX_RETRIES
    ensures var waits := Supervise(c, rounds).1;
            |waits| <= Budget(c)
            && forall k :: 0 <= k < |waits| ==> 1.5 <= waits[k] <= 1024.0
    decreases |rounds|
  {
    if rounds != [] {
      match RetryStep(c, rounds[0].outcome)
      case (Stop(_), _) =>
      case (Retry(delay), c') =>
        match rounds[0].outcome {
          case ListenReturned =>
          case ConnectionClosed(code) =>
            if code.Some? && code.value in SEVERE_CLOSE_CODES {
              SevereClosureDecision(c, code.value);
            } else {
              OtherFailureDecision(c, rounds[0].outcome);
            }
          case OtherException =>
            OtherFailureDecision(c, rounds[0].outcome);
        }
        if !rounds[0].stopDuringWait {
          SupervisionBudget(c', rounds[1..]);
          var rest := Supervise(c', rounds[1..]).1;
          assert forall k :: 0 < k < |rest| + 1 ==> ([delay] + rest)[k] == rest[k - 1];
        }
    }
  }

  // ---------------------------------------------------------------------------
  // The command parser.

  /** The length of the run of non-whitespace characters at the start of `s`. */
  function WordEnd(s: string): (n: nat)
    ensures n <= |s|
    ensures forall k :: 0 <= k < n ==> !SanitizeValidate.IsSpace(s[k])
    ensures n < |s| ==> SanitizeValidate.IsSpace(s[n])
    decreases |s|
  {
    if s == [] || SanitizeValidate.IsSpace(s[0]) then 0 else 1 + WordEnd(s[1..])
  }

  /** `s.split()`: the maximal runs of non-whitespace characters, in order. */
  function Split(s: string): (words: seq<string>)
    ensures forall w :: w in words ==> w != [] && forall k :: 0 <= k < |w| ==> !SanitizeValidate.IsSpace(w[k])
    decreases |s|
  {
    var i := SanitizeValidate.LeadingSpace(s);
    if i == |s| then []
    else
      var t := s[i..];
      var n := WordEnd(t);
      [t[..n]] + Split(t[n..])
  }

  /** The words of a split, joined back together. */
  function Concat(words: seq<string>): string
    decreases |words|
  {
    if words == [] then [] else words[0] + Concat(words[1..])
  }

  /** `s` with its whitespace characters removed. */
  function NonSpace(s: string): string
    decreases |s|
  {
    if s == [] then []
    else (if SanitizeValidate.IsSpace(s[0]) then [] else [s[0]]) + NonSpace(s[1..])
  }

  /** The number of positions of `s` where a word starts: a non-whitespace
      character at the start, when `afterSpace`, or after whitespace. */
  function WordStarts(afterSpace: bool, s: string): nat
    decreases |s|
  {
    if s == [] then 0
    else
      (if afterSpace && !SanitizeValidate.IsSpace(s[0]) then 1 else 0)
      + WordStarts(SanitizeValidate.IsSpace(s[0]), s[1..])
  }

  lemma {:induction false} NonSpaceAppend(a: string, b: string)
    ensures NonSpace(a + b) == NonSpace(a) + NonSpace(b)
    decreases |a|
  {
    if a == [] {
      assert a + b == b;
    } else {
      assert (a + b)[0] == a[0] && (a + b)[1..] == a[1..] + b;
      NonSpaceAppend(a[1..], b);
    }
  }

  /** Whitespace contributes nothing to `NonSpace`, and a word is kept whole. */
  lemma {:induction false} NonSpaceOfRuns(s: string)
    ensures SanitizeValidate.AllSpace(s) ==> NonSpace(s) == []
    ensures (forall k :: 0 <= k < |s| ==> !SanitizeValidate.IsSpace(s[k])) ==> NonSpace(s) == s
    decreases |s|
  {
    if s != [] {
      NonSpaceOfRuns(s[1..]);
      assert [s[0]] + s[1..] == s;
    }
  }

  /** A run of whitespace leaves the count where it would start afresh. */
  lemma {:induction false} WordStartsSpace(afterSpace: bool, a: string, b: string)
    requires SanitizeValidate.AllSpace(a) && (afterSpace || a != [])
    ensures WordStarts(afterSpace, a + b) == WordStarts(true, b)
    decreases |a|
  {
    if a == [] {
      assert a + b == b;
    } else {
      assert (a + b)[0] == a[0] && (a + b)[1..] == a[1..] + b;
      WordStartsSpace(true, a[1..], b);
    }
  }

  /** A run of non-whitespace counts one start when it follows whitespace. */
  lemma {:induction false} WordStartsWord(afterSpace: bool, w: string, b: string)
    requires w != [] && forall k :: 0 <= k < |w| ==> !SanitizeValidate.IsSpace(w[k])
    ensures WordStarts(afterSpace, w + b) == (if afterSpace then 1 else 0) + WordStarts(false, b)
    decreases |w|
  {
    assert (w + b)[0] == w[0] && (w + b)[1..] == w[1..] + b;
    if |w| > 1 {
      WordStartsWord(false, w[1..], b);
    } else {
      assert w[1..] + b == b;
    }
  }

  /** The first word of a string that is not all whitespace, and what
      follows it. */
  function FirstWord(s: string): string
    requires !SanitizeValidate.AllSpace(s)
  {
    var t := s[SanitizeValidate.LeadingSpace(s)..];
    t[..WordEnd(t)]
  }

  function AfterFirstWord(s: string): string
    requires !SanitizeValidate.AllSpace(s)
  {
    var t := s[SanitizeValidate.LeadingSpace(s)..];
    t[WordEnd(t)..]
  }

  /** One unfolding of `Split`: the first word, then the split of the rest. */
  lemma SplitHead(s: string)
    requires !SanitizeValidate.AllSpace(s)
    ensures Split(s) == [FirstWord(s)] + Split(AfterFirstWord(s))
    ensures |AfterFirstWord(s)| < |s|
  {
    var i := SanitizeValidate.LeadingSpace(s);
    assert i < |s|;
    var t := s[i..];
    assert !SanitizeValidate.IsSpace(t[0]);
    assert WordEnd(t) >= 1;
  }

  /** Without whitespace, a string is its first word followed by the rest
      without whitespace. */
  lemma NonSpaceHead(s: string)
    requires !SanitizeValidate.AllSpace(s)
    ensures NonSpace(s) == FirstWord(s) + NonSpace(AfterFirstWord(s))
  {
    var i := SanitizeValidate.LeadingSpace(s);
    assert i < |s|;
    var t := s[i..];
    assert t == FirstWord(s) + AfterFirstWord(s);
    SkipLeadingSpace(s);
    SplitRest(FirstWord(s), AfterFirstWord(s));
  }

  /** The first word is one word start; the rest holds the others. */
  lemma WordStartsHead(s: string)
    requires !SanitizeValidate.AllSpace(s)
    ensures WordStarts(true, s) == 1 + WordStarts(true, AfterFirstWord(s))
  {
    var i := SanitizeValidate.LeadingSpace(s);
    assert i < |s|;
    var t := s[i..];
    assert t == FirstWord(s) + AfterFirstWord(s);
    SkipLeadingSpace(s);
    SplitRest(FirstWord(s), AfterFirstWord(s));
  }

  /** Two counts that `split()` keeps: joined, its words are `s` without its
      whitespace, and there is one word per position where a run of
      non-whitespace starts. */
  lemma {:induction false} SplitWords(s: string)
    ensures Concat(Split(s)) == NonSpace(s)
    ensures |Split(s)| == WordStarts(true, s)
    decreases |s|
  {
    if SanitizeValidate.AllSpace(s) {
      SplitEmptyIffAllSpace(s);
      SkipLeadingSpace(s);
      assert SanitizeValidate.LeadingSpace(s) == |s| by {
        SanitizeValidate.LeadingSpaceUnique(s, |s|);
        assert s[..|s|] == s;
      }
      assert s[|s|..] == [];
    } else {
      var w, u := FirstWord(s), AfterFirstWord(s);
      SplitHead(s);
      NonSpaceHead(s);
      WordStartsHead(s);
      SplitWords(u);
      assert ([w] + Split(u))[0] == w && ([w] + Split(u))[1..] == Split(u);
    }
  }

  /** After the leading whitespace, `s` is its rest, for `NonSpace` and
      `WordStarts` alike. */
  lemma SkipLeadingSpace(s: string)
    ensures var i := SanitizeValidate.LeadingSpace(s);
            NonSpace(s) == NonSpace(s[i..]) && WordStarts(true, s) == WordStarts(true, s[i..])
  {
    var i := SanitizeValidate.LeadingSpace(s);
    assert s == s[..i] + s[i..];
    NonSpaceAppend(s[..i], s[i..]);
    NonSpaceOfRuns(s[..i]);
    WordStartsSpace(true, s[..i], s[i..]);
  }

  /** The first word and the rest after it. */
  lemma SplitRest(w: string, u: string)
    requires w != [] && forall k :: 0 <= k < |w| ==> !SanitizeValidate.IsSpace(w[k])
    requires u != [] ==> SanitizeValidate.IsSpace(u[0])
    ensures NonSpace(w + u) == w + NonSpace(u)
    ensures WordStarts(true, w + u) == 1 + WordStarts(true, u)
  {
    NonSpaceAppend(w, u);
    NonSpaceOfRuns(w);
    WordStartsWord(true, w, u);
    if u != [] {
      assert u == [u[0]] + u[1..];
      WordStartsSpace(false, [u[0]], u[1..]);
      WordStartsSpace(true, [u[0]], u[1..]);
    }
  }

  /** A string splits into no words exactly when it is all whitespace. */
  lemma SplitEmptyIffAllSpace(s: string)
    ensures Split(s) == [] <==> SanitizeValidate.AllSpace(s)
  {
    var i := SanitizeValidate.LeadingSpace(s);
    if i == |s| {
      assert s[..i] == s;
    }
  }

  /** A word as `split()` returns it: non-empty, without whitespace. */
  predicate IsWord(w: string) {
    w != [] && forall k :: 0 <= k < |w| ==> !SanitizeValidate.IsSpace(w[k])
  }

  /** `gaps[0] + words[0] + gaps[1] + ... + words[n - 1] + gaps[n]`. */
  function Weave(gaps: seq<string>, words: seq<string>): string
    requires |gaps| == |words| + 1
    decreases |words|
  {
    if words == [] then gaps[0] else gaps[0] + words[0] + Weave(gaps[1..], words[1..])
  }

  /** `Weave(gaps, words)` lays out `words` as the maximal runs of
      non-whitespace: every gap is whitespace, and a gap between two words
      is not empty. The gaps at either end may be. */
  predicate Separated(gaps: seq<string>, words: seq<string>) {
    |gaps| == |words| + 1
    && (forall k :: 0 <= k < |words| ==> IsWord(words[k]))
    && (forall k :: 0 <= k < |gaps| ==> SanitizeValidate.AllSpace(gaps[k]))
    && (forall k :: 0 < k < |words| ==> gaps[k] != [])
  }

  /** A word followed by whitespace, or by nothing, is where `WordEnd` stops. */
  lemma WordEndOfWord(w: string, r: string)
    requires IsWord(w) && (r != [] ==> SanitizeValidate.IsSpace(r[0]))
    ensures WordEnd(w + r) == |w|
  {
    assert forall k :: 0 <= k < |w| ==> (w + r)[k] == w[k];
    assert r != [] ==> (w + r)[|w|] == r[0];
  }

  /** One unfolding of `Weave`. */
  lemma WeaveHead(gaps: seq<string>, words: seq<string>)
    requires |gaps| == |words| + 1 && words != []
    ensures Weave(gaps, words) == gaps[0] + (words[0] + Weave(gaps[1..], words[1..]))
  {
  }

  /** A layout that starts with a word starts with non-whitespace. */
  lemma WeaveStart(gaps: seq<string>, words: seq<string>)
    requires Separated(gaps, words) && words != [] && gaps[0] == []
    ensures Weave(gaps, words) != [] && !SanitizeValidate.IsSpace(Weave(gaps, words)[0])
  {
    WeaveHead(gaps, words);
    assert Weave(gaps, words)[0] == words[0][0];
  }

  /** A gap and a word put in front of a layout whose first gap is not empty
      (when it has a word) make a layout. */
  lemma SeparatedCons(g: string, w: string, gs: seq<string>, words: seq<string>)
    requires SanitizeValidate.AllSpace(g) && IsWord(w) && Separated(gs, words)
    requires words != [] ==> gs[0] != []
    ensures Separated([g] + gs, [w] + words)
    ensures Weave([g] + gs, [w] + words) == g + (w + Weave(gs, words))
  {
    var gaps, ws := [g] + gs, [w] + words;
    assert gaps[1..] == gs && ws[1..] == words;
    assert forall k :: 0 < k < |gaps| ==> gaps[k] == gs[k - 1];
    assert forall k :: 0 < k < |ws| ==> ws[k] == words[k - 1];
    WeaveHead(gaps, ws);
  }

  /** A string that is not all whitespace is its leading whitespace, its
      first word, and a rest that is empty or starts with whitespace. */
  lemma FirstWordLayout(s: string)
    requires !SanitizeValidate.AllSpace(s)
    ensures var i := SanitizeValidate.LeadingSpace(s);
            var u := AfterFirstWord(s);
            s == s[..i] + (FirstWord(s) + u) && SanitizeValidate.AllSpace(s[..i])
            && IsWord(FirstWord(s)) && (u != [] ==> SanitizeValidate.IsSpace(u[0]))
  {
    var i := SanitizeValidate.LeadingSpace(s);
    assert i < |s|;
    var t := s[i..];
    assert !SanitizeValidate.IsSpace(t[0]);
    assert s[i..] == FirstWord(s) + AfterFirstWord(s);
  }

  /** Every string is laid out by its split: there are whitespace gaps that,
      woven with the words of `split()`, give the string back. */
  lemma {:induction false} SplitSeparates(s: string)
    ensures exists gaps :: Separated(gaps, Split(s)) && Weave(gaps, Split(s)) == s
    decreases |s|
  {
    if SanitizeValidate.AllSpace(s) {
      SplitEmptyIffAllSpace(s);
      var gaps := [s];
      assert Separated(gaps, Split(s)) && Weave(gaps, Split(s)) == s;
    } else {
      var i := SanitizeValidate.LeadingSpace(s);
      var w, u := FirstWord(s), AfterFirstWord(s);
      FirstWordLayout(s);
      SplitHead(s);
      SplitSeparates(u);
      var words := Split(u);
      var gs :| Separated(gs, words) && Weave(gs, words) == u;
      assert words != [] ==> gs[0] != [] by {
        if words != [] && gs[0] == [] {
          WeaveStart(gs, words);
          assert false;
        }
      }
      SeparatedCons(s[..i], w, gs, words);
      assert Split(s) == [w] + words;
    }
  }

  /** A layout that holds a word starts with its first gap, then its first
      word, then the rest of the layout, which is empty or starts with
      whitespace. */
  lemma SeparatedLayout(gaps: seq<string>, words: seq<string>)
    requires Separated(gaps, words) && words != []
    ensures var s, r := Weave(gaps, words), Weave(gaps[1..], words[1..]);
            var g := gaps[0];
            SanitizeValidate.LeadingSpace(s) == |g| && s[|g|..] == words[0] + r
            && (r != [] ==> SanitizeValidate.IsSpace(r[0]))
            && Separated(gaps[1..], words[1..])
  {
    var s, r := Weave(gaps, words), Weave(gaps[1..], words[1..]);
    var g, w := gaps[0], words[0];
    WeaveHead(gaps, words);
    assert Separated(gaps[1..], words[1..]);
    if |words| > 1 {
      WeaveHead(gaps[1..], words[1..]);
      assert r[0] == gaps[1][0];
    }
    assert s[..|g|] == g && s[|g|] == w[0];
    SanitizeValidate.LeadingSpaceUnique(s, |g|);
  }

  /** Conversely, any layout of words and whitespace gaps splits into exactly
      those words: with `SplitSeparates`, the words of `split()` are the
      maximal runs of non-whitespace, in order, and nothing else is. */
  lemma {:induction false} SplitOfSeparated(gaps: seq<string>, words: seq<string>)
    requires Separated(gaps, words)
    ensures Split(Weave(gaps, words)) == words
    decreases |words|
  {
    var s := Weave(gaps, words);
    if words == [] {
      SplitEmptyIffAllSpace(s);
    } else {
      var w, r := words[0], Weave(gaps[1..], words[1..]);
      SeparatedLayout(gaps, words);
      var t := s[|gaps[0]|..];
      WordEndOfWord(w, r);
      assert t[..|w|] == w && t[|w|..] == r;
      SplitOfSeparated(gaps[1..], words[1..]);
      assert Split(s) == [w] + Split(r);
    }
  }

  /** A command of the prompt. `resume` without a channel is `ResumeActive`,
      which starts the channels stored as not paused. */
  datatype Command =
    | NoOp | Exit | Add(name: string) | ListChannels | Pause(name: string)
    | Resume(name: string) | ResumeActive | Stats(name: string) | Help | Unknown

  /** `handle_command`'s choice of command from the words of the input:
      the first word is compared in lower case, the others are arguments. */
  function Dispatch(parts: seq<string>): Command
    requires parts != []
  {
    var cmd := SanitizeValidate.Lower(parts[0]);
    if cmd == "exit" then Exit
    else if cmd == "add" && |parts| == 2 then Add(parts[1])
    else if cmd == "list" then ListChannels
    else if cmd == "pause" && |parts| == 2 then Pause(parts[1])
    else if cmd == "resume" && |parts| == 2 then Resume(parts[1])
    else if cmd == "resume" && |parts| == 1 then ResumeActive
    else if cmd == "stats" && |parts| == 2 then Stats(parts[1])
    else if cmd == "help" then Help
    else Unknown
  }

  /** `handle_command`'s parsing: empty input does nothing, a whitespace-only
      one fails at `parts[0]`. */
  function ParseCommand(command: string): Outcome<Command> {
    if command == [] then Returned(NoOp)
    else
      var parts := Split(command);
      if parts == [] then Raised(IndexError) else Returned(Dispatch(parts))
  }

  /** Empty input is a no-op, blank input fails, and anything else is
      dispatched on its words. */
  lemma ParseCommandCases(command: string)
    ensures command == [] ==> ParseCommand(command) == Returned(NoOp)
    ensures command != [] && SanitizeValidate.AllSpace(command) ==> ParseCommand(command) == Raised(IndexError)
    ensures !SanitizeValidate.AllSpace(command) ==> ParseCommand(command) == Returned(Dispatch(Split(command)))
  {
    SplitEmptyIffAllSpace(command);
  }

  /** The commands taking a channel need exactly one argument, `resume` also
      takes none, `exit`, `list` and `help` ignore their arguments, and any
      other word, or a wrong count, is unknown. */
  lemma CommandArity(parts: seq<string>)
    requires parts != []
    ensures var cmd := SanitizeValidate.Lower(parts[0]);
            var r := Dispatch(parts);
            (cmd == "add" ==> r == if |parts| == 2 then Add(parts[1]) else Unknown)
            && (cmd == "pause" ==> r == if |parts| == 2 then Pause(parts[1]) else Unknown)
            && (cmd == "stats" ==> r == if |parts| == 2 then Stats(parts[1]) else Unknown)
            && (cmd == "resume" ==> r == if |parts| == 2 then Resume(parts[1])
                                         else if |parts| == 1 then ResumeActive else Unknown)
            && (cmd == "exit" ==> r == Exit)
            && (cmd == "list" ==> r == ListChannels)
            && (cmd == "help" ==> r == Help)
            && (r == Unknown <==>
                  cmd !in {"exit", "list", "help"}
                  && !(cmd in {"add", "pause", "stats"} && |parts| == 2)
                  && !(cmd == "resume" && |parts| <= 2))
  {
  }

  /** The first word is matched without regard to ASCII case, the other words
      are taken as they are. */
  lemma CommandCaseInsensitive(parts1: seq<string>, parts2: seq<string>)
    requires parts1 != [] && |parts1| == |parts2|
    requires SanitizeValidate.Lower(parts1[0]) == SanitizeValidate.Lower(parts2[0])
    requires parts1[1..] == parts2[1..]
    ensures Dispatch(parts1) == Dispatch(parts2)
  {
    if |parts1| >= 2 {
      assert parts1[1] == parts1[1..][0] && parts2[1] == parts2[1..][0];
    }
  }

  /** The prompt strips its input first, so the parser never fails on what
      the prompt hands it: blank input is a no-op. */
  lemma PromptInputNeverFails(input: string)
    ensures var command := SanitizeValidate.Strip(input);
            ParseCommand(command).Returned?
            && (SanitizeValidate.AllSpace(input) ==> ParseCommand(command) == Returned(NoOp))
  {
    var command := SanitizeValidate.Strip(input);
    SanitizeValidate.StripRemovesOnlyOuterSpace(input);
    if command != [] {
      SplitEmptyIffAllSpace(command);
      assert !SanitizeValidate.IsSpace(command[0]);
    }
    if SanitizeValidate.AllSpace(input) {
      assert SanitizeValidate.LeadingSpace(input) == |input|;
    }
  }

  // ---------------------------------------------------------------------------
  // The registry.

  /** An opaque handle of a running supervisor task. */
  type TaskId = nat

  /** The channels a storage holds, as a map from stored name to its paused flag. */
  function ActiveChannels(channels: map<string, bool>): set<string> {
    set n | n in channels && !channels[n]
  }

  class KickChatLogger {
    var activeTasks: map<string, TaskId>
    var stopEvents: map<string, bool>
    var running: bool
    /** The handle the next task gets. */
    var nextTask: TaskId
    /** The storage's channel table: stored name to paused. */
    var channels: map<string, bool>

    /** Both maps have the same channels, and stored names are sanitised. */
    ghost predicate Valid()
      reads this
    {
      activeTasks.Keys == stopEvents.Keys
      && forall n :: n in channels ==> Storage.SanitizeChannelName(n) == n
    }

    constructor (stored: map<string, bool>)
      requires forall n :: n in stored ==> Storage.SanitizeChannelName(n) == n
      ensures Valid()
      ensures activeTasks == map[] && stopEvents == map[] && running && channels == stored
    {
      activeTasks := map[];
      stopEvents := map[];
      running := true;
      nextTask := 0;
      channels := stored;
    }

    /** `start_channel_scraping`: registers a channel with a clear stop flag
      and a new task, unless it is registered already; always succeeds. */
    method StartChannelScraping(channelName: string) returns (started: bool)
      requires Valid()
      modifies this`activeTasks, this`stopEvents, this`nextTask
      ensures Valid() && started
      ensures channelName in old(activeTasks) ==>
                activeTasks == old(activeTasks) && stopEvents == old(stopEvents) && nextTask == old(nextTask)
      ensures channelName !in old(activeTasks) ==>
                activeTasks == old(activeTasks)[channelName := old(nextTask)]
                && stopEvents == old(stopEvents)[channelName := false]
                && nextTask == old(nextTask) + 1
    {
      if channelName in activeTasks {
        return true;
      }
      stopEvents := stopEvents[channelName := false];
      activeTasks := activeTasks[channelName := nextTask];
      nextTask := nextTask + 1;
      return true;
    }

    /** `stop_channel_scraping`: sets the channel's stop flag; the entries
      are removed by the supervisor when it sees the flag. */
    method StopChannelScraping(channelName: string) returns (stopped: bool)
      requires Valid()
      modifies this`stopEvents
      ensures Valid()
      ensures stopped <==> channelName in old(activeTasks)
      ensures stopEvents == if stopped then old(stopEvents)[channelName := true] else old(stopEvents)
    {
      if channelName !in activeTasks {
        return false;
      }
      if channelName in stopEvents {
        stopEvents := stopEvents[channelName := true];
      }
      return true;
    }

    /** The `while` loop of `_scrape_channel_with_retry`: the counters, the
      decision after each session and the backoff waits, until the policy
      stops or the loop finds the flags set. */
    static method RetryLoop(rounds: seq<Round>) returns (end: SupervisionEnd, ghost waits: seq<real>)
      ensures end == Supervise(Counters(0, 0), rounds).0
      ensures (end, waits) == Supervise(Counters(0, 0), rounds)
    {
      var retryCount: nat := 0;
      var connectionRetryCount: nat := 0;
      waits := [];
      var i := 0;
      end := FlagsSet;
      ghost var whole := Supervise(Counters(0, 0), rounds);
      assert rounds[0..] == rounds;
      assert waits + whole.1 == whole.1;
      while i < |rounds|
        invariant 0 <= i <= |rounds| && end == FlagsSet
        invariant whole.0 == Supervise(Counters(retryCount, connectionRetryCount), rounds[i..]).0
        invariant whole.1 == waits + Supervise(Counters(retryCount, connectionRetryCount), rounds[i..]).1
        decreases |rounds| - i
      {
        var (decision, next) := RetryStep(Counters(retryCount, connectionRetryCount), rounds[i].outcome);
        SuperviseLoopStep(whole, waits, Counters(retryCount, connectionRetryCount), rounds, i);
        if decision.Stop? {
          end := decision.reason;
          break;
        }
        waits := waits + [decision.delay];
        retryCount, connectionRetryCount := next.retries, next.connectionRetries;
        if rounds[i].stopDuringWait {
          end := StoppedDuringBackoff;
          break;
        }
        i := i + 1;
      }
      assert i == |rounds| ==> rounds[i..] == [] && waits + [] == waits;
      assert (end, waits) == whole;
    }

    /** `_scrape_channel_with_retry`: runs sessions until the policy stops,
      then removes the channel from both maps. */
    method ScrapeChannelWithRetry(channelName: string, rounds: seq<Round>)
      returns (end: SupervisionEnd, ghost waits: seq<real>)
      requires Valid()
      modifies this`activeTasks, this`stopEvents
      ensures Valid()
      ensures end == Supervise(Counters(0, 0), rounds).0
      ensures (end, waits) == Supervise(Counters(0, 0), rounds)
      ensures activeTasks == old(activeTasks) - {channelName} && stopEvents == old(stopEvents) - {channelName}
    {
      end, waits := RetryLoop(rounds);
      activeTasks := activeTasks - {channelName};
      stopEvents := stopEvents - {channelName};
      assert forall n :: n in activeTasks <==> n in stopEvents;
    }

    /** `shutdown`: clears `running` and raises the stop flag of every
      registered channel. */
    method Shutdown()
      requires Valid()
      modifies this`running, this`stopEvents
      ensures Valid() && !running
      ensures stopEvents.Keys == old(stopEvents).Keys
      ensures forall n :: n in stopEvents ==> stopEvents[n]
    {
      running := false;
      var names := activeTasks.Keys;
      while names != {}
        invariant Valid() && !running
        invariant names <= activeTasks.Keys
        invariant stopEvents.Keys == old(stopEvents).Keys
        invariant forall n :: n in stopEvents && n !in names ==> stopEvents[n]
        decreases |names|
      {
        var n :| n in names;
        var _ := StopChannelScraping(n);
        names := names - {n};
      }
    }

    /** `load_and_start_active_channels`: starts every channel the storage
      holds as not paused; channels already running are left as they are. */
    method LoadAndStartActiveChannels()
      requires Valid()
      modifies this`activeTasks, this`stopEvents, this`nextTask
      ensures Valid()
      ensures forall n :: n in activeTasks <==> n in old(activeTasks) || (n in old(channels) && !old(channels)[n])
      ensures forall n :: n in old(activeTasks) ==> activeTasks[n] == old(activeTasks)[n] && stopEvents[n] == old(stopEvents)[n]
      ensures forall n :: n in stopEvents && n !in old(stopEvents) ==> !stopEvents[n]
    {
      var active := ActiveChannels(channels);
      var names := active;
      while names != {}
        invariant Valid() && names <= active
        invariant forall n :: n in activeTasks <==> n in old(activeTasks) || (n in active && n !in names)
        invariant forall n :: n in old(activeTasks) ==> activeTasks[n] == old(activeTasks)[n] && stopEvents[n] == old(stopEvents)[n]
        invariant forall n :: n in stopEvents && n !in old(stopEvents) ==> !stopEvents[n]
        decreases |names|
      {
        var n :| n in names;
        var _ := StartChannelScraping(n);
        names := names - {n};
      }
    }

    /** The storage's `resume_channel`: finds the channel by its sanitised
      name (sanitised once more by the existence check) and clears its paused
      flag. An empty sanitised name is falsy and fails even when stored. */
    method StorageResumeChannel(channelName: string) returns (resumed: bool)
      requires Valid()
      modifies this`channels
      ensures Valid()
      ensures resumed <==> Storage.SanitizeChannelName(channelName) != [] && Storage.SanitizeChannelName(channelName) in old(channels)
      ensures channels == if resumed then old(channels)[Storage.SanitizeChannelName(channelName) := false]
                          else old(channels)
    {
      var normalized := Storage.SanitizeChannelName(channelName);
      Storage.SanitizeProperties(channelName);
      if Storage.SanitizeChannelName(normalized) !in channels || normalized == [] {
        return false;
      }
      channels := channels[normalized := false];
      return true;
    }

    /** `resume_channel`: unpauses the channel in storage and, when that
      succeeds, starts it under the name as given. */
    method ResumeChannel(channelName: string) returns (resumed: bool)
      requires Valid()
      modifies this`activeTasks, this`stopEvents, this`nextTask, this`channels
      ensures Valid()
      ensures resumed <==> Storage.SanitizeChannelName(channelName) != [] && Storage.SanitizeChannelName(channelName) in old(channels)
      ensures channels == if resumed then old(channels)[Storage.SanitizeChannelName(channelName) := false]
                          else old(channels)
      ensures resumed ==> channelName in activeTasks
                          && forall n :: n in activeTasks <==> n in old(activeTasks) || n == channelName
      ensures !resumed ==> activeTasks == old(activeTasks) && stopEvents == old(stopEvents)
      ensures forall n :: n in old(activeTasks) ==> activeTasks[n] == old(activeTasks)[n] && stopEvents[n] == old(stopEvents)[n]
    {
      resumed := StorageResumeChannel(channelName);
      if !resumed {
        return;
      }
      var _ := StartChannelScraping(channelName);
    }

    /** `resume_all_channels`: unpauses and starts every stored channel (a
      stored empty name cannot be resumed and is left as it is). */
    method ResumeAllChannels() returns (ok: bool)
      requires Valid()
      modifies this`activeTasks, this`stopEvents, this`nextTask, this`channels
      ensures Valid() && ok
      ensures forall n :: n in channels <==> n in old(channels)
      ensures forall n :: n in channels && n != [] ==> !channels[n]
      ensures [] in channels ==> channels[[]] == old(channels)[[]]
      ensures forall n :: n in activeTasks <==> n in old(activeTasks) || (n in old(channels) && n != [])
    {
      var all := channels.Keys;
      if all == {} {
        return true;
      }
      var names := all;
      while names != {}
        invariant Valid() && names <= all
        invariant forall n :: n in channels <==> n in all
        invariant forall n :: n in channels && n in names ==> channels[n] == old(channels)[n]
        invariant forall n :: n in channels && n !in names && n != [] ==> !channels[n]
        invariant [] in channels ==> channels[[]] == old(channels)[[]]
        invariant forall n :: n in activeTasks <==> n in old(activeTasks) || (n in all && n !in names && n != [])
        decreases |names|
      {
        var n :| n in names;
        Storage.SanitizeProperties(n);
        assert Storage.SanitizeChannelName(n) == n;
        var resumed := ResumeChannel(n);
        names := names - {n};
      }
      return true;
    }

    /** `cleanup_and_exit`. */
    method CleanupAndExit()
      requires Valid()
      modifies this`running
      ensures Valid() && !running
    {
      running := false;
    }
  }
}
