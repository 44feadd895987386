/**
 The sign-in limiter: a per-caller, per-route window of recent attempts.

 `Throttle.Check` is the limiter as it runs, pruning what it remembers on every
 call and forgetting whole callers when it tracks too many. `Admit` is the rule
 it is meant to enforce, stated over everything that was ever let through. The
 lemmas show that the first answers every call of every run like the second,
 and what the second guarantees.
 */
module Throttling {
  import opened Common

  /** Sixty seconds, in nanoseconds. */
  const WINDOW: int := 60_000_000_000
  const MAX_ATTEMPTS: nat := 10
  const MAX_TRACKED: nat := 4096

  /** A route and the address asking. */
  datatype Caller = Caller(route: string, who: string)

  datatype Answer = Admitted | RetryAfter(wait: int)

  datatype Attempt = Attempt(at: int, caller: Caller)

  type Seen = map<Caller, seq<int>>

  /** `Instant::duration_since`, which saturates at zero. */
  function Since(now: int, t: int): int
  {
    if t <= now then now - t else 0
  }

  predicate Recent(now: int, t: int)
  {
    Since(now, t) < WINDOW
  }

  /** `Vec::retain` with the window as its test. */
  function Retain(hits: seq<int>, now: int): seq<int>
  {
    if hits == [] then []
    else (if Recent(now, hits[0]) then [hits[0]] else []) + Retain(hits[1..], now)
  }

  /** What the clean-up keeps: callers with at least one attempt in the window. */
  function Forget(seen: Seen, now: int): Seen
  {
    if |seen| > MAX_TRACKED then map c | c in seen && Retain(seen[c], now) != [] :: seen[c] else seen
  }

  /** One attempt against one caller's hits: what is kept, and the answer. */
  function CheckHits(hits: seq<int>, now: int): (seq<int>, Answer)
  {
    var kept := Retain(hits, now);
    if |kept| >= MAX_ATTEMPTS then (kept, RetryAfter(WINDOW - Since(now, kept[0])))
    else (kept + [now], Admitted)
  }

  function CheckTable(seen: Seen, a: Attempt): (Seen, Answer)
  {
    var table := Forget(seen, a.at);
    var (hits, answer) := CheckHits(Lookup(table, a.caller, []), a.at);
    (table[a.caller := hits], answer)
  }

  class Throttle {
    var seen: Seen

    constructor ()
      ensures seen == map[]
    {
      seen := map[];
    }

    /** Count this attempt, or say how long until there is room. */
    method Check(caller: Caller, now: int) returns (answer: Answer)
      modifies this
      ensures (seen, answer) == CheckTable(old(seen), Attempt(now, caller))
    {
      if |seen| > MAX_TRACKED {
        seen := map c | c in seen && Retain(seen[c], now) != [] :: seen[c];
      }
      var hits := if caller in seen then seen[caller] else [];
      hits := Retain(hits, now);
      if |hits| >= MAX_ATTEMPTS {
        seen := seen[caller := hits];
        return RetryAfter(WINDOW - Since(now, hits[0]));
      }
      seen := seen[caller := hits + [now]];
      answer := Admitted;
    }
  }

  // ---- whole runs ---------------------------------------------------------

  function After(seen: Seen, run: seq<Attempt>): Seen
    decreases |run|
  {
    if run == [] then seen else After(CheckTable(seen, run[0]).0, run[1..])
  }

  function Answers(seen: Seen, run: seq<Attempt>): (r: seq<Answer>)
    ensures |r| == |run|
    decreases |run|
  {
    if run == [] then []
    else
      var (next, answer) := CheckTable(seen, run[0]);
      [answer] + Answers(next, run[1..])
  }

  /** The clock never goes back, and starts no earlier than `from`. */
  predicate Forward(from: int, run: seq<Attempt>)
  {
    && (forall i :: 0 <= i < |run| ==> from <= run[i].at)
    && (forall i, j :: 0 <= i < j < |run| ==> run[i].at <= run[j].at)
  }

  lemma ForwardTail(from: int, run: seq<Attempt>)
    requires Forward(from, run) && run != []
    ensures Forward(run[0].at, run[1..])
  {
    forall i | 0 <= i < |run[1..]| ensures run[0].at <= run[1..][i].at {
      assert run[1..][i] == run[i + 1];
    }
  }

  // ---- one call -----------

  lemma {:induction false} RetainIs(hits: seq<int>, now: int)
    ensures forall t :: t in Retain(hits, now) <==> t in hits && now - t < WINDOW
    decreases |hits|
  {
    if hits != [] {
      RetainIs(hits[1..], now);
      assert hits == [hits[0]] + hits[1..];
    }
  }

  /**
   Whatever the clocks say, a refused call is told to wait until the oldest
   attempt that still counts is a window old, and never for longer than a window.
   */
  lemma RefusalsWait(hits: seq<int>, now: int)
    requires CheckHits(hits, now).1.RetryAfter?
    ensures var (kept, answer) := CheckHits(hits, now);
            && |kept| >= 10 && kept[0] in hits
            && 0 < answer.wait <= WINDOW
            && (kept[0] <= now ==> now + answer.wait == kept[0] + WINDOW)
            && (kept[0] > now ==> answer.wait == WINDOW)
  {
    RetainIs(hits, now);
    assert Retain(hits, now)[0] in Retain(hits, now);
  }

  /**
   What a call leaves of the other callers: all of them while there are no more
   than 4096, and beyond that only those with an attempt that still counts.
   */
  lemma ForgetsTheIdle(seen: Seen, a: Attempt, c: Caller)
    requires c != a.caller
    ensures var next := CheckTable(seen, a).0;
            && (c in next ==> c in seen && next[c] == seen[c])
            && (c in next <==> c in seen && (|seen| <= 4096 || exists t :: t in seen[c] && a.at - t < WINDOW))
  {
    if c in seen {
      SomeStillCount(seen[c], a.at);
    }
    hide CheckHits, Retain;
  }

  lemma SomeStillCount(hits: seq<int>, now: int)
    ensures Retain(hits, now) != [] <==> exists t :: t in hits && now - t < WINDOW
  {
    var kept := Retain(hits, now);
    RetainIs(hits, now);
    if kept != [] {
      var t := kept[0];
      assert t in kept && t in hits && now - t < WINDOW;
    }
    if t :| t in hits && now - t < WINDOW {
      assert t in kept;
    }
  }

  // ---- the rule -----------------------------------------------------------

  /** The rule's answer: room, or the wait until the oldest counted attempt leaves. */
  function RuleAnswer(log: seq<int>, now: int): Answer
    requires Past(log, now)
  {
    if Admit(log, now) then Admitted
    else
      RetainCounts(log, now);
      RetryAfter(WINDOW - Since(now, Retain(log, now)[0]))
  }

  /** How many of these instants lie in `[from, to)`. */
  function InSpan(log: seq<int>, from: int, to: int): nat
  {
    if log == [] then 0
    else InSpan(log[..|log| - 1], from, to) + (if from <= log[|log| - 1] < to then 1 else 0)
  }

  function InWindow(log: seq<int>, from: int): nat
  {
    InSpan(log, from, from + WINDOW)
  }

  /** The rule: fewer than ten were let through in the last sixty seconds. */
  predicate Admit(log: seq<int>, now: int)
  {
    InWindow(log, now - WINDOW + 1) < MAX_ATTEMPTS
  }

  /** The instants at which a run admits one caller. */
  function AdmittedAt(seen: Seen, run: seq<Attempt>, c: Caller): seq<int>
    decreases |run|
  {
    if run == [] then []
    else
      var (next, answer) := CheckTable(seen, run[0]);
      (if run[0].caller == c && answer.Admitted? then [run[0].at] else []) + AdmittedAt(next, run[1..], c)
  }

  predicate Past(log: seq<int>, now: int)
  {
    forall i :: 0 <= i < |log| ==> log[i] <= now
  }

  predicate InOrder(log: seq<int>)
  {
    forall i, j :: 0 <= i < j < |log| ==> log[i] <= log[j]
  }

  predicate Apart(log: seq<int>, i: nat)
    requires i + MAX_ATTEMPTS < |log|
  {
    log[i + MAX_ATTEMPTS] - log[i] >= WINDOW
  }

  /** In order, no later than `now`, and any eleven in a row span the window. */
  ghost predicate Paced(log: seq<int>, now: int)
  {
    && Past(log, now)
    && InOrder(log)
    && (forall i: nat | i + MAX_ATTEMPTS < |log| :: Apart(log, i))
  }

  lemma {:induction false} SpanJoins(a: seq<int>, b: seq<int>, from: int, to: int)
    ensures InSpan(a + b, from, to) == InSpan(a, from, to) + InSpan(b, from, to)
    decreases |b|
  {
    if b == [] {
      assert a + b == a;
    } else {
      assert (a + b)[..|a + b| - 1] == a + b[..|b| - 1];
      SpanJoins(a, b[..|b| - 1], from, to);
    }
  }

  lemma {:induction false} SpanAtMostLength(log: seq<int>, from: int, to: int)
    ensures InSpan(log, from, to) <= |log|
  {
    if log != [] {
      SpanAtMostLength(log[..|log| - 1], from, to);
    }
  }

  lemma {:induction false} NoneInSpan(log: seq<int>, from: int, to: int)
    requires forall i :: 0 <= i < |log| ==> !(from <= log[i] < to)
    ensures InSpan(log, from, to) == 0
  {
    if log != [] {
      NoneInSpan(log[..|log| - 1], from, to);
    }
  }

  lemma {:induction false} AllInSpan(log: seq<int>, from: int, to: int)
    requires forall i :: 0 <= i < |log| ==> from <= log[i] < to
    ensures InSpan(log, from, to) == |log|
  {
    if log != [] {
      AllInSpan(log[..|log| - 1], from, to);
    }
  }

  /** A paced log puts at most ten instants in any window, wherever it starts. */
  lemma {:induction false} PacedBound(log: seq<int>, now: int, from: int)
    requires Paced(log, now)
    ensures InWindow(log, from) <= MAX_ATTEMPTS
  {
    if log != [] {
      var n := |log|;
      var init := log[..n - 1];
      if from <= log[n - 1] < from + WINDOW {
        if n <= MAX_ATTEMPTS {
          SpanAtMostLength(log, from, from + WINDOW);
        } else {
          EarlierOutside(log, from);
          var early, late := log[..n - MAX_ATTEMPTS], log[n - MAX_ATTEMPTS..];
          assert log == early + late;
          SpanJoins(early, late, from, from + WINDOW);
          SpanAtMostLength(late, from, from + WINDOW);
          NoneInSpan(early, from, from + WINDOW);
        }
      } else {
        assert Paced(init, now) by {
          forall i: nat | i + MAX_ATTEMPTS < |init| ensures Apart(init, i) {
            assert Apart(log, i);
          }
        }
        PacedBound(init, now, from);
      }
    }
  }

  lemma EarlierOutside(log: seq<int>, from: int)
    requires |log| > MAX_ATTEMPTS && InOrder(log)
    requires Apart(log, |log| - 1 - MAX_ATTEMPTS)
    requires log[|log| - 1] < from + WINDOW
    ensures forall i :: 0 <= i < |log| - MAX_ATTEMPTS ==> log[i] < from
  {
    var k := |log| - 1 - MAX_ATTEMPTS;
    assert log[k] < from;
    forall i | 0 <= i < |log| - MAX_ATTEMPTS ensures log[i] < from {
      if i < k {
        assert log[i] <= log[k];
      }
    }
  }

  /** What the rule lets through keeps the log paced. */
  lemma AdmitKeepsPace(log: seq<int>, now: int)
    requires Paced(log, now)
    requires Admit(log, now)
    ensures Paced(log + [now], now)
  {
    var n, log' := |log|, log + [now];
    forall i: nat | i + MAX_ATTEMPTS < |log'| ensures Apart(log', i) {
      if i + MAX_ATTEMPTS < n {
        assert Apart(log, i);
      } else if now - log[i] < WINDOW {
        var early, late := log[..i], log[i..];
        assert log == early + late;
        forall j | 0 <= j < |late| ensures now - WINDOW < late[j] <= now {
          assert late[j] == log[i + j];
        }
        SpanJoins(early, late, now - WINDOW + 1, now + 1);
        AllInSpan(late, now - WINDOW + 1, now + 1);
      }
    }
  }

  // ---- the limiter answers like the rule ----------------------------------

  /** Pruning at one instant and again later is pruning once, later. */
  lemma {:induction false} RetainTwice(hits: seq<int>, now: int, later: int)
    requires now <= later
    requires forall i :: 0 <= i < |hits| ==> hits[i] <= now
    ensures Retain(Retain(hits, now), later) == Retain(hits, later)
  {
    if hits != [] {
      RetainTwice(hits[1..], now, later);
      var rest := Retain(hits[1..], now);
      assert ([hits[0]] + rest)[1..] == rest && [] + rest == rest;
    }
  }

  lemma {:induction false} RetainAppend(hits: seq<int>, t: int, now: int)
    ensures Retain(hits + [t], now) == Retain(hits, now) + Retain([t], now)
  {
    if hits == [] {
      assert hits + [t] == [t];
    } else {
      RetainAppend(hits[1..], t, now);
      assert (hits + [t])[1..] == hits[1..] + [t];
    }
  }

  /** What is kept is what the rule counts. */
  lemma {:induction false} RetainCounts(hits: seq<int>, now: int)
    requires forall i :: 0 <= i < |hits| ==> hits[i] <= now
    ensures |Retain(hits, now)| == InWindow(hits, now - WINDOW + 1)
  {
    if hits != [] {
      var init, last := hits[..|hits| - 1], hits[|hits| - 1];
      assert hits == init + [last];
      RetainCounts(init, now);
      RetainAppend(init, last, now);
    }
  }

  lemma {:induction false} RetainStays(hits: seq<int>, now: int)
    requires forall i :: 0 <= i < |hits| ==> hits[i] <= now
    ensures forall i :: 0 <= i < |Retain(hits, now)| ==> now - WINDOW < Retain(hits, now)[i] <= now
  {
    if hits != [] {
      RetainStays(hits[1..], now);
    }
  }

  /** What one caller's hits and whole log have in common at every later look. */
  ghost predicate Agree(hits: seq<int>, log: seq<int>, now: int)
  {
    && Past(hits, now)
    && Past(log, now)
    && forall t :: now <= t ==> Retain(hits, t) == Retain(log, t)
  }

  /** The table remembers enough of every caller's log. */
  ghost predicate Remembers(seen: Seen, logs: map<Caller, seq<int>>, now: int)
  {
    forall c :: Agree(Lookup(seen, c, []), Lookup(logs, c, []), now)
  }

  /** The rule's own bookkeeping: every caller's whole log. */
  function Record(logs: map<Caller, seq<int>>, a: Attempt): map<Caller, seq<int>>
  {
    var log := Lookup(logs, a.caller, []);
    if Admit(log, a.at) then logs[a.caller := log + [a.at]] else logs
  }

  /** Forgetting a caller loses nothing any later call would look at. */
  lemma ForgetAgrees(seen: Seen, now: int, c: Caller, log: seq<int>)
    requires Agree(Lookup(seen, c, []), log, now)
    ensures Agree(Lookup(Forget(seen, now), c, []), log, now)
  {
    if c in seen && c !in Forget(seen, now) {
      forall t | now <= t ensures Retain([], t) == Retain(log, t) {
        RetainTwice(seen[c], now, t);
        assert Retain(seen[c], t) == Retain(log, t);
      }
    }
  }

  lemma AgreeMax(hits: seq<int>, log: seq<int>, now: int, later: int)
    requires Agree(hits, log, now) && now <= later
    ensures Agree(hits, log, later)
  {
  }

  /** The one caller's part of an attempt, against the rule over its whole log. */
  lemma HitsFollowRule(hits: seq<int>, log: seq<int>, now: int)
    requires Agree(hits, log, now)
    ensures CheckHits(hits, now).1 == RuleAnswer(log, now)
    ensures Agree(CheckHits(hits, now).0, if Admit(log, now) then log + [now] else log, now)
  {
    RetainCounts(log, now);
    RetainStays(hits, now);
    var kept, after := Retain(hits, now), CheckHits(hits, now).0;
    var log' := if Admit(log, now) then log + [now] else log;
    assert kept == Retain(log, now);
    forall t | now <= t ensures Retain(after, t) == Retain(log', t) {
      RetainTwice(hits, now, t);
      RetainAppend(kept, now, t);
      RetainAppend(log, now, t);
      assert Retain(hits, t) == Retain(log, t);
    }
  }

  lemma CheckFollowsRule(seen: Seen, logs: map<Caller, seq<int>>, now: int, a: Attempt)
    requires Remembers(seen, logs, now) && now <= a.at
    ensures Past(Lookup(logs, a.caller, []), a.at)
    ensures CheckTable(seen, a).1 == RuleAnswer(Lookup(logs, a.caller, []), a.at)
    ensures Remembers(CheckTable(seen, a).0, Record(logs, a), a.at)
  {
    var next, logs' := CheckTable(seen, a).0, Record(logs, a);
    forall c
      ensures Agree(Lookup(Forget(seen, a.at), c, []), Lookup(logs, c, []), a.at)
    {
      AgreeMax(Lookup(seen, c, []), Lookup(logs, c, []), now, a.at);
      ForgetAgrees(seen, a.at, c, Lookup(logs, c, []));
    }
    HitsFollowRule(Lookup(Forget(seen, a.at), a.caller, []), Lookup(logs, a.caller, []), a.at);
    forall c
      ensures Agree(Lookup(next, c, []), Lookup(logs', c, []), a.at)
    {
      if c != a.caller {
        assert Lookup(next, c, []) == Lookup(Forget(seen, a.at), c, []);
        assert Lookup(logs', c, []) == Lookup(logs, c, []);
      }
    }
  }

  function Logs(logs: map<Caller, seq<int>>, run: seq<Attempt>): map<Caller, seq<int>>
    decreases |run|
  {
    if run == [] then logs else Logs(Record(logs, run[0]), run[1..])
  }

  ghost predicate LogsPast(logs: map<Caller, seq<int>>, now: int)
  {
    forall c :: c in logs ==> Past(logs[c], now)
  }

  /** The rule's answers to a run. */
  ghost function RuleAnswers(logs: map<Caller, seq<int>>, now: int, run: seq<Attempt>): (r: seq<Answer>)
    requires LogsPast(logs, now) && Forward(now, run)
    ensures |r| == |run|
    decreases |run|
  {
    if run == [] then []
    else
      ForwardTail(now, run);
      [RuleAnswer(Lookup(logs, run[0].caller, []), run[0].at)]
      + RuleAnswers(Record(logs, run[0]), run[0].at, run[1..])
  }

  lemma RecordPast(logs: map<Caller, seq<int>>, now: int, a: Attempt)
    requires LogsPast(logs, now) && now <= a.at
    ensures LogsPast(Record(logs, a), a.at)
  {
  }

  /** The clock after a run. */
  function Clock(now: int, run: seq<Attempt>): int
  {
    if run == [] then now else run[|run| - 1].at
  }

  /**
   Every answer of every run: the pruning, forgetting limiter answers exactly
   what the rule over the complete history answers, waits included.
   */
  lemma {:induction false} FollowsRuleFrom(seen: Seen, logs: map<Caller, seq<int>>, now: int, run: seq<Attempt>)
    requires LogsPast(logs, now) && Remembers(seen, logs, now) && Forward(now, run)
    ensures Answers(seen, run) == RuleAnswers(logs, now, run)
    ensures Remembers(After(seen, run), Logs(logs, run), Clock(now, run))
    decreases |run|
  {
    hide CheckTable, Record, Remembers, RuleAnswer;
    if run != [] {
      ForwardTail(now, run);
      CheckFollowsRule(seen, logs, now, run[0]);
      RecordPast(logs, now, run[0]);
      FollowsRuleFrom(CheckTable(seen, run[0]).0, Record(logs, run[0]), run[0].at, run[1..]);
    }
  }

  lemma ThrottleFollowsRule(run: seq<Attempt>, from: int)
    requires Forward(from, run)
    ensures Answers(map[], run) == RuleAnswers(map[], from, run)
  {
    FollowsRuleFrom(map[], map[], from, run);
  }

  // ---- what the rule guarantees -------------------------------------------

  ghost predicate LogsPaced(logs: map<Caller, seq<int>>, now: int)
  {
    forall c :: c in logs ==> Paced(logs[c], now)
  }

  lemma RecordKeepsPace(logs: map<Caller, seq<int>>, now: int, a: Attempt)
    requires LogsPaced(logs, now) && now <= a.at
    ensures LogsPaced(Record(logs, a), a.at)
  {
    var log := Lookup(logs, a.caller, []);
    if Admit(log, a.at) {
      assert Paced(log, a.at);
      AdmitKeepsPace(log, a.at);
    }
  }

  lemma RecordStep(seen: Seen, logs: map<Caller, seq<int>>, now: int, a: Attempt, c: Caller)
    requires Remembers(seen, logs, now) && LogsPaced(logs, now) && now <= a.at
    ensures var (next, answer) := CheckTable(seen, a);
            && Remembers(next, Record(logs, a), a.at)
            && LogsPaced(Record(logs, a), a.at)
            && Lookup(Record(logs, a), c, [])
            == Lookup(logs, c, []) + (if a.caller == c && answer.Admitted? then [a.at] else [])
  {
    CheckFollowsRule(seen, logs, now, a);
    RecordKeepsPace(logs, now, a);
  }

  /** A caller's log is exactly the instants its attempts were admitted at, in order. */
  lemma {:induction false} LogIsAdmitted(
      seen: Seen, logs: map<Caller, seq<int>>, now: int, run: seq<Attempt>, c: Caller)
    requires Remembers(seen, logs, now) && LogsPaced(logs, now) && Forward(now, run)
    ensures LogsPaced(Logs(logs, run), Clock(now, run))
    ensures Lookup(Logs(logs, run), c, []) == Lookup(logs, c, []) + AdmittedAt(seen, run, c)
    decreases |run|
  {
    hide CheckTable, Record, Remembers, LogsPaced;
    if run == [] {
      assert Lookup(logs, c, []) + [] == Lookup(logs, c, []);
    } else {
      ForwardTail(now, run);
      var (next, answer) := CheckTable(seen, run[0]);
      var admitted := if run[0].caller == c && answer.Admitted? then [run[0].at] else [];
      RecordStep(seen, logs, now, run[0], c);
      LogIsAdmitted(next, Record(logs, run[0]), run[0].at, run[1..], c);
      AdmittedFirst(seen, run, c);
      LogAppends(Lookup(logs, c, []), admitted, AdmittedAt(next, run[1..], c));
    }
  }

  lemma AdmittedFirst(seen: Seen, run: seq<Attempt>, c: Caller)
    requires run != []
    ensures var (next, answer) := CheckTable(seen, run[0]);
            AdmittedAt(seen, run, c) ==
              (if run[0].caller == c && answer.Admitted? then [run[0].at] else []) + AdmittedAt(next, run[1..], c)
  {
    hide CheckTable;
  }

  lemma LogAppends(a: seq<int>, b: seq<int>, c: seq<int>)
    ensures a + b + c == a + (b + c)
  {
  }

  /**
   However a run of attempts is spread over callers, routes and time, no caller
   gets more than ten attempts through one route inside any sixty seconds.
   */
  lemma AtMostTenPerWindow(run: seq<Attempt>, start: int, c: Caller, from: int)
    requires Forward(start, run)
    ensures InWindow(AdmittedAt(map[], run, c), from) <= MAX_ATTEMPTS
  {
    LogIsAdmitted(map[], map[], start, run, c);
    var log := AdmittedAt(map[], run, c);
    assert [] + log == log;
    assert Paced(Lookup(Logs(map[], run), c, []), Clock(start, run));
    PacedBound(log, Clock(start, run), from);
  }

  lemma {:induction false} RetainAll(hits: seq<int>, now: int)
    requires forall i :: 0 <= i < |hits| ==> Recent(now, hits[i])
    ensures Retain(hits, now) == hits
  {
    if hits != [] {
      RetainAll(hits[1..], now);
    }
  }

  lemma {:induction false} RetainShrinks(hits: seq<int>, now: int)
    ensures |Retain(hits, now)| <= |hits|
  {
    if hits != [] {
      RetainShrinks(hits[1..], now);
    }
  }

  lemma {:induction false} RetainInOrder(hits: seq<int>, now: int)
    requires InOrder(hits) && Past(hits, now)
    ensures forall i :: 0 <= i < |Retain(hits, now)| ==> Retain(hits, now)[0] <= Retain(hits, now)[i]
    ensures forall t :: t in Retain(hits, now) ==> t in hits
  {
    if hits != [] {
      RetainInOrder(hits[1..], now);
    }
  }

  /** The wait given at a refusal is the instant the rule first admits again. */
  lemma WaitIsExact(log: seq<int>, now: int, later: int)
    requires Paced(log, now) && !Admit(log, now) && now <= later
    ensures var wait := RuleAnswer(log, now).wait;
            && 0 < wait <= WINDOW
            && (Admit(log, later) <==> now + wait <= later)
  {
    RetainCounts(log, now);
    RetainCounts(log, later);
    RetainStays(log, now);
    RetainInOrder(log, now);
    RetainTwice(log, now, later);
    var kept := Retain(log, now);
    if later < kept[0] + WINDOW {
      RetainAll(kept, later);
    } else {
      PacedBound(log, now, now - WINDOW + 1);
      assert !Recent(later, kept[0]);
      RetainShrinks(kept[1..], later);
    }
  }

  /** Attempts made while the caller waits are refused and leave its log alone. */
  lemma {:induction false} WaitingChangesNothing(
      logs: map<Caller, seq<int>>, now: int, until: int, mid: seq<Attempt>, c: Caller)
    requires LogsPaced(logs, now) && Forward(now, mid)
    requires forall t :: now <= t < until ==> !Admit(Lookup(logs, c, []), t)
    requires forall i :: 0 <= i < |mid| ==> mid[i].at < until
    ensures forall i :: 0 <= i < |mid| && mid[i].caller == c ==> RuleAnswers(logs, now, mid)[i].RetryAfter?
    ensures Lookup(Logs(logs, mid), c, []) == Lookup(logs, c, [])
    ensures LogsPaced(Logs(logs, mid), Clock(now, mid))
    decreases |mid|
  {
    if mid != [] {
      ForwardTail(now, mid);
      var a, logs' := mid[0], Record(logs, mid[0]);
      var log := Lookup(logs, a.caller, []);
      if Admit(log, a.at) {
        assert Paced(log, a.at);
        AdmitKeepsPace(log, a.at);
      }
      assert Lookup(logs', c, []) == Lookup(logs, c, []);
      forall t | a.at <= t < until ensures !Admit(Lookup(logs', c, []), t) {
        assert now <= t;
      }
      WaitingChangesNothing(logs', a.at, until, mid[1..], c);
      assert RuleAnswers(logs, now, mid)[1..] == RuleAnswers(logs', a.at, mid[1..]);
    }
  }

  /** A table some run on a forward clock leaves behind, and the clock then. */
  ghost predicate Reached(seen: Seen, now: int)
  {
    exists run, start :: Forward(start, run) && seen == After(map[], run) && now == Clock(start, run)
  }

  lemma ReachedRemembers(seen: Seen, now: int) returns (logs: map<Caller, seq<int>>)
    requires Reached(seen, now)
    ensures LogsPaced(logs, now) && Remembers(seen, logs, now)
  {
    var run, start :| Forward(start, run) && seen == After(map[], run) && now == Clock(start, run);
    logs := Logs(map[], run);
    FollowsRuleFrom(map[], map[], start, run);
    LogIsAdmitted(map[], map[], start, run, Caller("", ""));
  }

  /**
   Wherever a run has got to, if a caller is told to wait, then every attempt it
   makes before that instant is refused, whatever else happens meanwhile, and
   its first attempt from that instant on is let through.
   */
  lemma RetryHintIsExact(seen: Seen, now: int, a: Attempt, mid: seq<Attempt>, z: Attempt)
    requires Reached(seen, now) && now <= a.at
    requires CheckTable(seen, a).1.RetryAfter?
    requires Forward(a.at, mid) && Clock(a.at, mid) <= z.at && z.caller == a.caller
    requires a.at + CheckTable(seen, a).1.wait <= z.at
    requires forall i :: 0 <= i < |mid| ==> mid[i].at < a.at + CheckTable(seen, a).1.wait
    ensures 0 < CheckTable(seen, a).1.wait <= WINDOW
    ensures forall i :: 0 <= i < |mid| && mid[i].caller == a.caller ==>
      Answers(CheckTable(seen, a).0, mid)[i].RetryAfter?
    ensures CheckTable(After(CheckTable(seen, a).0, mid), z).1 == Admitted
  {
    var logs := ReachedRemembers(seen, now);
    CheckFollowsRule(seen, logs, now, a);
    var refused, log := CheckTable(seen, a).0, Lookup(logs, a.caller, []);
    assert Paced(log, a.at) && LogsPaced(logs, a.at);
    var until := a.at + RuleAnswer(log, a.at).wait;
    forall t | a.at <= t ensures Admit(log, t) <==> until <= t {
      WaitIsExact(log, a.at, t);
    }
    WaitIsExact(log, a.at, a.at);
    FollowsRuleFrom(refused, logs, a.at, mid);
    WaitingChangesNothing(logs, a.at, until, mid, a.caller);
    CheckFollowsRule(After(refused, mid), Logs(logs, mid), Clock(a.at, mid), z);
  }

  // ---- callers do not influence each other --------------------------------

  function Only(run: seq<Attempt>, c: Caller): seq<Attempt>
  {
    if run == [] then []
    else (if run[0].caller == c then [run[0]] else []) + Only(run[1..], c)
  }

  function AnswersTo(run: seq<Attempt>, answers: seq<Answer>, c: Caller): seq<Answer>
    requires |run| == |answers|
  {
    if run == [] then []
    else (if run[0].caller == c then [answers[0]] else []) + AnswersTo(run[1..], answers[1..], c)
  }

  lemma {:induction false} OnlyForward(now: int, run: seq<Attempt>, c: Caller)
    requires Forward(now, run)
    ensures Forward(now, Only(run, c))
    decreases |run|
  {
    if run != [] {
      ForwardTail(now, run);
      OnlyForward(run[0].at, run[1..], c);
    }
  }

  lemma RuleAnswersCons(logs: map<Caller, seq<int>>, now: int, a: Attempt, rest: seq<Attempt>)
    requires LogsPast(logs, now) && Forward(now, [a] + rest)
    ensures Forward(a.at, rest) && now <= a.at && LogsPast(Record(logs, a), a.at)
    ensures RuleAnswers(logs, now, [a] + rest)
         == [RuleAnswer(Lookup(logs, a.caller, []), a.at)] + RuleAnswers(Record(logs, a), a.at, rest)
  {
    ForwardTail(now, [a] + rest);
    assert ([a] + rest)[0] == a && ([a] + rest)[1..] == rest;
  }

  lemma {:induction false} RuleIsPerCaller(
      logs: map<Caller, seq<int>>, alone: map<Caller, seq<int>>, now: int, before: int, run: seq<Attempt>, c: Caller)
    requires LogsPast(logs, now) && LogsPast(alone, before) && before <= now && Forward(now, run)
    requires Lookup(logs, c, []) == Lookup(alone, c, [])
    ensures Forward(before, Only(run, c))
    ensures AnswersTo(run, RuleAnswers(logs, now, run), c) == RuleAnswers(alone, before, Only(run, c))
    decreases |run|
  {
    OnlyForward(now, run, c);
    if run != [] {
      var a, rest := run[0], run[1..];
      assert run == [a] + rest;
      RuleAnswersCons(logs, now, a, rest);
      OneMoreAnswer(a, rest, RuleAnswer(Lookup(logs, a.caller, []), a.at), RuleAnswers(Record(logs, a), a.at, rest), c);
      if a.caller == c {
        RuleAnswersCons(alone, before, a, Only(rest, c));
        RuleIsPerCaller(Record(logs, a), Record(alone, a), a.at, a.at, rest, c);
      } else {
        RuleIsPerCaller(Record(logs, a), alone, a.at, before, rest, c);
        assert Only(run, c) == Only(rest, c);
      }
    }
  }

  lemma OneMoreAnswer(a: Attempt, rest: seq<Attempt>, answer: Answer, answers: seq<Answer>, c: Caller)
    requires |rest| == |answers|
    ensures AnswersTo([a] + rest, [answer] + answers, c)
         == (if a.caller == c then [answer] else []) + AnswersTo(rest, answers, c)
  {
    assert ([a] + rest)[1..] == rest && ([answer] + answers)[1..] == answers;
  }

  /** A caller on a route is answered as if nobody else had ever asked anything. */
  lemma CallersAreIndependent(run: seq<Attempt>, start: int, c: Caller)
    requires Forward(start, run)
    ensures AnswersTo(run, Answers(map[], run), c) == Answers(map[], Only(run, c))
  {
    OnlyForward(start, run, c);
    ThrottleFollowsRule(run, start);
    ThrottleFollowsRule(Only(run, c), start);
    RuleIsPerCaller(map[], map[], start, start, run, c);
  }

  // ---- the clock is read before the lock ----------------------------------

  function Repeat(a: Attempt, n: nat): (r: seq<Attempt>)
    ensures |r| == n
  {
    if n == 0 then [] else [a] + Repeat(a, n - 1)
  }

  lemma CheckAlone(hits: seq<int>, a: Attempt)
    requires |hits| < MAX_ATTEMPTS
    ensures CheckTable(map[a.caller := hits], a) == (map[a.caller := Retain(hits, a.at) + [a.at]], Admitted)
  {
    hide Retain;
    FewAreKept(a.caller, hits, a.at);
    RetainShrinks(hits, a.at);
    hide Forget;
    var kept := Retain(hits, a.at) + [a.at];
    assert CheckHits(hits, a.at) == (kept, Admitted);
    assert map[a.caller := hits][a.caller := kept] == map[a.caller := kept];
  }

  /** A table of one caller is under the limit and left alone. */
  lemma FewAreKept(c: Caller, hits: seq<int>, now: int)
    ensures Forget(map[c := hits], now) == map[c := hits]
  {
    hide Retain;
    assert |map[c := hits]| == 1;
  }

  lemma {:induction false} RepeatAdmits(hits: seq<int>, a: Attempt, n: nat)
    requires |hits| + n <= MAX_ATTEMPTS
    requires forall i :: 0 <= i < |hits| ==> Recent(a.at, hits[i])
    ensures After(map[a.caller := hits], Repeat(a, n)) == map[a.caller := hits + seq(n, _ => a.at)]
    ensures AdmittedAt(map[a.caller := hits], Repeat(a, n), a.caller) == seq(n, _ => a.at)
    decreases n
  {
    if n == 0 {
      assert hits + seq(n, _ => a.at) == hits;
    } else {
      RetainAll(hits, a.at);
      CheckAlone(hits, a);
      RepeatAdmits(hits + [a.at], a, n - 1);
      assert [a.at] + seq(n - 1, _ => a.at) == seq(n, _ => a.at);
      assert hits + [a.at] + seq(n - 1, _ => a.at) == hits + seq(n, _ => a.at);
      assert Repeat(a, n)[1..] == Repeat(a, n - 1);
    }
  }

  lemma {:induction false} RunsConcatenate(seen: Seen, a: seq<Attempt>, b: seq<Attempt>, c: Caller)
    ensures AdmittedAt(seen, a + b, c) == AdmittedAt(seen, a, c) + AdmittedAt(After(seen, a), b, c)
    decreases |a|
  {
    hide CheckTable, AdmittedAt;
    if a == [] {
      assert a + b == b;
      assert AdmittedAt(seen, a, c) == [] by { NothingAdmitted(seen, c); }
    } else {
      assert (a + b)[0] == a[0] && (a + b)[1..] == a[1..] + b;
      var (next, answer) := CheckTable(seen, a[0]);
      RunsConcatenate(next, a[1..], b, c);
      AdmittedFirst(seen, a, c);
      AdmittedFirst(seen, a + b, c);
      LogAppends(if a[0].caller == c && answer.Admitted? then [a[0].at] else [],
        AdmittedAt(next, a[1..], c), AdmittedAt(After(seen, a), b, c));
    }
  }

  lemma NothingAdmitted(seen: Seen, c: Caller)
    ensures AdmittedAt(seen, [], c) == []
  {
  }

  lemma {:induction false} RetainNone(hits: seq<int>, now: int)
    requires forall i :: 0 <= i < |hits| ==> !Recent(now, hits[i])
    ensures Retain(hits, now) == []
  {
    if hits != [] {
      RetainNone(hits[1..], now);
    }
  }

  lemma WindowLater(c: Caller)
    ensures CheckTable(map[c := seq(10, _ => 0)], Attempt(WINDOW, c)) == (map[c := [WINDOW]], Admitted)
  {
    var ten := seq(10, _ => 0);
    var full: Seen := map[c := ten];
    RetainNone(ten, WINDOW);
    assert |full| == 1 && Lookup(full, c, []) == ten;
    assert [] + [WINDOW] == [WINDOW];
    assert full[c := [WINDOW]] == map[c := [WINDOW]];
  }

  lemma TwentyInstants()
    ensures InWindow(seq(10, _ => 0) + ([WINDOW] + seq(9, _ => 0)), 0) == 19
  {
    var ten, nine := seq(10, _ => 0), seq(9, _ => 0);
    SpanJoins(ten, [WINDOW] + nine, 0, WINDOW);
    SpanJoins([WINDOW], nine, 0, WINDOW);
    AllInSpan(ten, 0, WINDOW);
    AllInSpan(nine, 0, WINDOW);
    assert InWindow([WINDOW], 0) == 0;
  }

  // ---- when the lock is not taken in the order of the clock ----------------------

  /** Pruning takes nothing out of a span that starts inside the window. */
  lemma {:induction false} RetainKeepsSpan(hits: seq<int>, now: int, from: int, to: int)
    requires from > now - WINDOW
    ensures InSpan(Retain(hits, now), from, to) == InSpan(hits, from, to)
    decreases |hits|
  {
    if hits != [] {
      RetainKeepsSpan(hits[1..], now, from, to);
      SpanJoins([hits[0]], hits[1..], from, to);
      SpanJoins(if Recent(now, hits[0]) then [hits[0]] else [], Retain(hits[1..], now), from, to);
      assert hits == [hits[0]] + hits[1..];
    }
  }

  /** Every admitted instant less than a window before the latest reading is still among the hits. */
  ghost predicate HoldsRecent(hits: seq<int>, log: seq<int>, latest: int)
  {
    forall from, to :: from > latest - WINDOW ==> InSpan(hits, from, to) == InSpan(log, from, to)
  }

  /** At most ten in any span no longer than this. */
  ghost predicate Sparse(log: seq<int>, length: int)
  {
    forall from, to :: to <= from + length ==> InSpan(log, from, to) <= MAX_ATTEMPTS
  }

  /** Each reading is at most `lag` behind those made by whoever had the lock earlier. */
  predicate Lags(latest: int, run: seq<Attempt>, lag: nat)
    decreases |run|
  {
    run == [] || (latest - lag <= run[0].at && Lags(Max(latest, run[0].at), run[1..], lag))
  }

  lemma ForgetHoldsRecent(seen: Seen, now: int, c: Caller, log: seq<int>, latest: int)
    requires HoldsRecent(Lookup(seen, c, []), log, latest)
    ensures HoldsRecent(Lookup(Forget(seen, now), c, []), log, Max(latest, now))
  {
    forall from, to | from > Max(latest, now) - WINDOW
      ensures InSpan(Lookup(Forget(seen, now), c, []), from, to) == InSpan(log, from, to)
    {
      RetainKeepsSpan(Lookup(seen, c, []), now, from, to);
      hide InSpan;
      assert InSpan([], from, to) == 0 by { SpanOfNothing(from, to); }
    }
  }

  lemma SpanOfNothing(from: int, to: int)
    ensures InSpan([], from, to) == 0
  {
  }

  lemma CheckHitsLags(hits: seq<int>, log: seq<int>, latest: int, now: int, lag: nat)
    requires HoldsRecent(hits, log, latest) && Sparse(log, WINDOW - lag) && latest - lag <= now <= latest
    ensures var (kept, answer) := CheckHits(hits, now);
            var log' := if answer.Admitted? then log + [now] else log;
            HoldsRecent(kept, log', latest) && Sparse(log', WINDOW - lag)
  {
    var pruned := Retain(hits, now);
    var (kept, answer) := CheckHits(hits, now);
    var log' := if answer.Admitted? then log + [now] else log;
    forall from, to | from > latest - WINDOW ensures InSpan(kept, from, to) == InSpan(log', from, to) {
      RetainKeepsSpan(hits, now, from, to);
      SpanJoins(pruned, [now], from, to);
      SpanJoins(log, [now], from, to);
    }
    forall from, to | to <= from + (WINDOW - lag) ensures InSpan(log', from, to) <= MAX_ATTEMPTS {
      SpanJoins(log, [now], from, to);
      assert InSpan(log, from, to) <= MAX_ATTEMPTS;
      if answer.Admitted? && from <= now < to {
        RetainKeepsSpan(hits, now, from, to);
        SpanAtMostLength(pruned, from, to);
      }
    }
  }

  lemma CheckTableLags(seen: Seen, a: Attempt, c: Caller, log: seq<int>, latest: int, lag: nat)
    requires HoldsRecent(Lookup(seen, c, []), log, latest) && Sparse(log, WINDOW - lag) && latest - lag <= a.at
    ensures var (next, answer) := CheckTable(seen, a);
            var log' := log + if a.caller == c && answer.Admitted? then [a.at] else [];
            HoldsRecent(Lookup(next, c, []), log', Max(latest, a.at)) && Sparse(log', WINDOW - lag)
  {
    ForgetHoldsRecent(seen, a.at, c, log, latest);
    hide HoldsRecent, Sparse, CheckHits;
    if a.caller == c {
      CheckHitsLags(Lookup(Forget(seen, a.at), c, []), log, Max(latest, a.at), a.at, lag);
    }
    assert log + [] == log;
  }

  lemma {:induction false} LagBound(seen: Seen, run: seq<Attempt>, c: Caller, log: seq<int>, latest: int, lag: nat)
    requires HoldsRecent(Lookup(seen, c, []), log, latest) && Sparse(log, WINDOW - lag) && Lags(latest, run, lag)
    ensures Sparse(log + AdmittedAt(seen, run, c), WINDOW - lag)
    decreases |run|
  {
    hide HoldsRecent, Sparse, CheckTable;
    if run == [] {
      assert log + [] == log;
    } else {
      var (next, answer) := CheckTable(seen, run[0]);
      var admitted := if run[0].caller == c && answer.Admitted? then [run[0].at] else [];
      CheckTableLags(seen, run[0], c, log, latest, lag);
      LagBound(next, run[1..], c, log + admitted, Max(latest, run[0].at), lag);
      AdmittedFirst(seen, run, c);
      LogAppends(log, admitted, AdmittedAt(next, run[1..], c));
    }
  }

  /**
   If no reading is more than `lag` behind one made by an earlier holder of the lock, any span that much
   shorter than the window holds at most ten admitted attempts of a caller.
   */
  lemma LateLockersBound(run: seq<Attempt>, start: int, lag: nat, c: Caller, from: int, to: int)
    requires Lags(start, run, lag) && to <= from + (WINDOW - lag)
    ensures InSpan(AdmittedAt(map[], run, c), from, to) <= MAX_ATTEMPTS
  {
    var none: seq<int> := [];
    assert HoldsRecent(none, none, start) && Sparse(none, WINDOW - lag);
    LagBound(map[], run, c, none, start, lag);
    assert none + AdmittedAt(map[], run, c) == AdmittedAt(map[], run, c);
  }

  /** In every run whose readings lag by at most `lag`, every caller and every span of this length: at most ten. */
  ghost predicate TenPer(length: int, lag: nat)
  {
    forall run, start, c, from, to :: Lags(start, run, lag) && to <= from + length ==>
      InSpan(AdmittedAt(map[], run, c), from, to) <= MAX_ATTEMPTS
  }

  lemma {:induction false} LagsRepeat(a: Attempt, n: nat, rest: seq<Attempt>, lag: nat)
    requires Lags(a.at, rest, lag)
    ensures Lags(a.at, Repeat(a, n) + rest, lag)
    decreases n
  {
    if n == 0 {
      assert Repeat(a, n) + rest == rest;
    } else {
      LagsRepeat(a, n - 1, rest, lag);
      assert (Repeat(a, n) + rest)[1..] == Repeat(a, n - 1) + rest;
    }
  }

  /** Ten attempts, one that is a window later, and one that is `late` behind it. */
  function Overtaken(c: Caller, late: nat): seq<Attempt>
  {
    Repeat(Attempt(0, c), 10) + (Repeat(Attempt(WINDOW, c), 1) + Repeat(Attempt(WINDOW - late, c), 1))
  }

  lemma OvertakenLags(c: Caller, late: nat, lag: nat)
    requires late <= lag
    ensures Lags(0, Overtaken(c, late), lag)
  {
    var last := Repeat(Attempt(WINDOW - late, c), 1);
    assert last[1..] == [];
    assert Lags(WINDOW, last, lag);
    LagsRepeat(Attempt(WINDOW, c), 1, last, lag);
    var rest := Repeat(Attempt(WINDOW, c), 1) + last;
    assert Lags(0, rest, lag) by {
      assert rest[0].at == WINDOW;
    }
    LagsRepeat(Attempt(0, c), 10, rest, lag);
  }

  lemma OvertakenIsAdmitted(c: Caller, late: nat)
    ensures AdmittedAt(map[], Overtaken(c, late), c) == seq(10, _ => 0) + ([WINDOW] + [WINDOW - late])
  {
    hide CheckTable;
    var first, later, last := Repeat(Attempt(0, c), 10), Repeat(Attempt(WINDOW, c), 1), Attempt(WINDOW - late, c);
    var ten := seq(10, _ => 0);
    FirstTen(c);
    RunsConcatenate(map[], first, later + Repeat(last, 1), c);
    WindowLater(c);
    OneAttempt(map[c := ten], Attempt(WINDOW, c));
    RunsConcatenate(map[c := ten], later, Repeat(last, 1), c);
    CheckAlone([WINDOW], last);
    OneAttempt(map[c := [WINDOW]], last);
  }

  /**
   The limiter reads the clock before it takes its lock. How many attempts it
   lets through is therefore bounded in exactly those spans that are shorter than
   the window by the longest a thread may wait between the two: ten in sixty
   seconds if no reading lags, and ten in no span at all if one may lag by that long.
   */
  lemma TenPerSpanExactly(length: int, lag: nat)
    ensures TenPer(length, lag) <==> length <= Max(0, 60_000_000_000 - lag)
  {
    if length <= Max(0, WINDOW - lag) {
      forall run, start, c, from, to | Lags(start, run, lag) && to <= from + length
        ensures InSpan(AdmittedAt(map[], run, c), from, to) <= MAX_ATTEMPTS
      {
        if from < to {
          LateLockersBound(run, start, lag, c, from, to);
        } else {
          NoneInSpan(AdmittedAt(map[], run, c), from, to);
        }
      }
    } else {
      var late, c := if lag <= WINDOW then lag else WINDOW, Caller("", "");
      OvertakenLags(c, late, lag);
      OvertakenIsAdmitted(c, late);
      var to, ten := WINDOW - late + 1, seq(10, _ => 0);
      SpanJoins(ten, [WINDOW] + [WINDOW - late], 0, to);
      SpanJoins([WINDOW], [WINDOW - late], 0, to);
      AllInSpan(ten, 0, to);
      AllInSpan([WINDOW - late], 0, to);
      assert InSpan(AdmittedAt(map[], Overtaken(c, late), c), 0, to) >= 11;
    }
  }

  /**
   The clock has to be the order the lock is taken in. The limiter reads it
   first and locks second, so threads may enter in another order, and then the
   bound does not hold: ten attempts, one that is a window later, and nine that
   read the clock with the first ten but locked last, all get through.
   */
  lemma LateLockersExceedTheBound(c: Caller)
    ensures var run := Repeat(Attempt(0, c), 10) + (Repeat(Attempt(WINDOW, c), 1) + Repeat(Attempt(0, c), 9));
            InWindow(AdmittedAt(map[], run, c), 0) == 19
  {
    hide CheckTable;
    var first, later, late := Repeat(Attempt(0, c), 10), Repeat(Attempt(WINDOW, c), 1), Repeat(Attempt(0, c), 9);
    var ten, nine := seq(10, _ => 0), seq(9, _ => 0);
    FirstTen(c);
    RunsConcatenate(map[], first, later + late, c);
    WindowLater(c);
    OneAttempt(map[c := ten], Attempt(WINDOW, c));
    RunsConcatenate(map[c := ten], later, late, c);
    RepeatAdmits([WINDOW], Attempt(0, c), 9);
    TwentyInstants();
  }

  lemma FirstTen(c: Caller)
    ensures After(map[], Repeat(Attempt(0, c), 10)) == map[c := seq(10, _ => 0)]
    ensures AdmittedAt(map[], Repeat(Attempt(0, c), 10), c) == seq(10, _ => 0)
  {
    NeverSeen(Attempt(0, c), 9);
    RepeatAdmits([], Attempt(0, c), 10);
    assert [] + seq(10, _ => 0) == seq(10, _ => 0);
  }

  lemma NeverSeen(a: Attempt, n: nat)
    ensures After(map[], Repeat(a, n + 1)) == After(map[a.caller := []], Repeat(a, n + 1))
    ensures AdmittedAt(map[], Repeat(a, n + 1), a.caller) == AdmittedAt(map[a.caller := []], Repeat(a, n + 1), a.caller)
  {
    var none: Seen, silent: Seen := map[], map[a.caller := []];
    assert |none| == 0 && |silent| == 1;
    assert CheckTable(none, a) == CheckTable(silent, a) by {
      assert Lookup(none, a.caller, []) == Lookup(silent, a.caller, []) == [];
      assert [] + [a.at] == [a.at];
      assert none[a.caller := [a.at]] == silent[a.caller := [a.at]];
    }
    assert Repeat(a, n + 1)[0] == a;
  }

  lemma OneAttempt(seen: Seen, a: Attempt)
    ensures After(seen, Repeat(a, 1)) == CheckTable(seen, a).0
    ensures AdmittedAt(seen, Repeat(a, 1), a.caller) == if CheckTable(seen, a).1.Admitted? then [a.at] else []
  {
    assert Repeat(a, 1) == [a];
  }
}
