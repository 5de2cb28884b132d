/**
 * What transcribeChunk in older/app.js does with the server's answers: at most
 * `retries` attempts (3 by default); an HTTP 429 waits 2^attempt seconds and
 * tries again; any other failure is thrown, caught, and retried at once unless
 * it was the last attempt, where it is rethrown. If every attempt runs out
 * without an answer, the function falls off its loop and yields undefined.
 *
 * This module gives that behaviour in closed form: which answer wins, how many
 * attempts are made, the waits and the log messages. The loop itself is the
 * TranscribeChunk method of the older front end.
 */
module Retry {
  import opened Common
  import opened DebugLog

  const RateLimitStatus: nat := 429
  const DefaultRetries: nat := 3

  /**
   * The server's answer to one request: a successful response whose JSON
   * body carries `text`, a response whose `ok` is false, a rejection of the
   * request itself (a network failure) with its message, or a successful
   * response whose body is not JSON, with the parse error's message.
   */
  datatype Response =
    | Ok(status: nat, text: string)
    | HttpError(status: nat, body: string)
    | Thrown(message: string)
    | Unreadable(status: nat, message: string)

  /** What transcribeChunk yields: the text, undefined, or the error it threw. */
  datatype ChunkResult = Text(text: string) | Undefined | Threw(message: string)

  predicate RateLimited(r: Response)
  {
    r.HttpError? && r.status == RateLimitStatus
  }

  function Pow2(n: nat): (p: nat)
    ensures p >= 1
  {
    if n == 0 then 1 else 2 * Pow2(n - 1)
  }

  /** Math.pow(2, attempt) * 1000 milliseconds. */
  function WaitTime(attempt: nat): nat
  {
    Pow2(attempt) * 1000
  }

  /** The message of the error a failed attempt throws. */
  function ErrorMessage(r: Response): string
    requires !r.Ok?
  {
    if r.HttpError? then "HTTP error! status: " + NatToString(r.status) else r.message
  }

  /** The first of the first m attempts that is answered successfully, or m if none is. */
  function FirstOk(respond: nat -> Response, m: nat): (k: nat)
    ensures k <= m
    ensures k < m ==> respond(k).Ok?
  {
    if m == 0 then 0
    else if FirstOk(respond, m - 1) < m - 1 then FirstOk(respond, m - 1)
    else if respond(m - 1).Ok? then m - 1
    else m
  }

  /** FirstOk finds the first success: every attempt before it failed. */
  lemma {:induction false} FirstOkSpec(respond: nat -> Response, m: nat)
    ensures forall j :: 0 <= j < FirstOk(respond, m) ==> !respond(j).Ok?
  {
    if m > 0 {
      FirstOkSpec(respond, m - 1);
    }
  }

  /** Once a success is found, looking at more attempts finds the same one. */
  lemma {:induction false} FirstOkStable(respond: nat -> Response, m: nat, n: nat)
    requires FirstOk(respond, m) < m <= n
    ensures FirstOk(respond, n) == FirstOk(respond, m)
    decreases n - m
  {
    if m < n {
      FirstOkStable(respond, m, n - 1);
    }
  }

  /** FirstOk is m exactly when none of the first m attempts succeeded. */
  lemma {:induction false} FirstOkNone(respond: nat -> Response, m: nat)
    requires forall j :: 0 <= j < m ==> !respond(j).Ok?
    ensures FirstOk(respond, m) == m
  {
    if m > 0 {
      FirstOkNone(respond, m - 1);
    }
  }

  /** The number of requests made: up to and including the first success, else all of them. */
  function Attempts(respond: nat -> Response, retries: nat): (n: nat)
    ensures n <= retries
  {
    var k := FirstOk(respond, retries);
    if k < retries then k + 1 else retries
  }

  /**
   * The outcome: the first success's text; otherwise undefined when there
   * were no attempts or the last one was rate limited; otherwise the last
   * attempt's error.
   */
  function RetryResult(respond: nat -> Response, retries: nat): ChunkResult
  {
    var k := FirstOk(respond, retries);
    if k < retries then Text(respond(k).text)
    else if retries == 0 || RateLimited(respond(retries - 1)) then Undefined
    else Threw(ErrorMessage(respond(retries - 1)))
  }

  /** The waits awaited during the first m attempts: one per rate-limited attempt, in order. */
  function RetryWaits(respond: nat -> Response, m: nat): seq<nat>
  {
    if m == 0 then []
    else if RateLimited(respond(m - 1)) then RetryWaits(respond, m - 1) + [WaitTime(m - 1)]
    else RetryWaits(respond, m - 1)
  }

  /** The entries a failed attempt j logs: the wait on a 429, the retry notice on a non-final failure. */
  function AttemptLog(r: Response, j: nat, retries: nat): seq<LogEntry>
  {
    if r.Ok? then []
    else if RateLimited(r) then [RateLimitWait(WaitTime(j))]
    else if j + 1 == retries then []
    else [AttemptFailed(j)]
  }

  /** The entries logged during the first m attempts, in order. */
  function RetryLog(respond: nat -> Response, retries: nat, m: nat): seq<LogEntry>
  {
    if m == 0 then [] else RetryLog(respond, retries, m - 1) + AttemptLog(respond(m - 1), m - 1, retries)
  }

  /** What the loop of transcribeChunk yields, awaits and logs. */
  datatype Outcome = Outcome(result: ChunkResult, waits: seq<nat>, log: seq<LogEntry>)

  /** The outcome o, after earlier attempts awaited `waits` and logged `log`. */
  function Then(waits: seq<nat>, log: seq<LogEntry>, o: Outcome): (r: Outcome)
    ensures r.result == o.result && |r.waits| == |waits| + |o.waits| && |r.log| == |log| + |o.log|
  {
    Outcome(o.result, waits + o.waits, log + o.log)
  }

  /** Earlier attempts compose: their waits and logs concatenate in order. */
  lemma ThenThen(w1: seq<nat>, l1: seq<LogEntry>, w2: seq<nat>, l2: seq<LogEntry>, o: Outcome)
    ensures Then(w1, l1, Then(w2, l2, o)) == Then(w1 + w2, l1 + l2, o)
  {
    assert w1 + (w2 + o.waits) == (w1 + w2) + o.waits;
    assert l1 + (l2 + o.log) == (l1 + l2) + o.log;
  }

  /** After the last attempt the outcome is what came before it. */
  lemma ThenDone(waits: seq<nat>, log: seq<LogEntry>, result: ChunkResult)
    ensures Then(waits, log, Outcome(result, [], [])) == Outcome(result, waits, log)
  {
    assert waits + [] == waits;
    assert log + [] == log;
  }

  /**
   * The loop of transcribeChunk run from attempt a on, one attempt at a time:
   * a success returns its text; a 429 waits and logs before the next attempt;
   * any other failure is rethrown on the last attempt and logged and retried
   * before it; past the last attempt the result is undefined.
   */
  function RetryFrom(respond: nat -> Response, retries: nat, a: nat): Outcome
    decreases retries - a
  {
    if a >= retries then Outcome(Undefined, [], [])
    else
      var r := respond(a);
      if r.Ok? then Outcome(Text(r.text), [], [])
      else if RateLimited(r) then Then([WaitTime(a)], [RateLimitWait(WaitTime(a))], RetryFrom(respond, retries, a + 1))
      else if a + 1 == retries then Outcome(Threw(ErrorMessage(r)), [], [])
      else Then([], [AttemptFailed(a)], RetryFrom(respond, retries, a + 1))
  }

  /** One attempt that neither succeeds nor rethrows: its waits and log come before the rest. */
  lemma RetryStep(respond: nat -> Response, retries: nat, a: nat)
    requires a < retries && !respond(a).Ok?
    ensures RateLimited(respond(a)) ==>
      RetryFrom(respond, retries, a) == Then([WaitTime(a)], [RateLimitWait(WaitTime(a))], RetryFrom(respond, retries, a + 1))
    ensures !RateLimited(respond(a)) && a + 1 < retries ==>
      RetryFrom(respond, retries, a) == Then([], [AttemptFailed(a)], RetryFrom(respond, retries, a + 1))
  {
  }


  /** The loop returns at attempt a when a is the first success. */
  lemma SucceedsAt(respond: nat -> Response, retries: nat, a: nat)
    requires a < retries
    requires forall j :: 0 <= j < a ==> !respond(j).Ok?
    requires respond(a).Ok?
    ensures FirstOk(respond, retries) == a
    ensures RetryResult(respond, retries) == Text(respond(a).text)
    ensures Attempts(respond, retries) == a + 1
    ensures RetryWaits(respond, a + 1) == RetryWaits(respond, a)
    ensures RetryLog(respond, retries, a + 1) == RetryLog(respond, retries, a)
  {
    FirstOkNone(respond, a);
    FirstOkStable(respond, a + 1, retries);
    assert RetryLog(respond, retries, a + 1) == RetryLog(respond, retries, a) + [];
  }

  /** The loop rethrows at the last attempt when nothing succeeded and the last failure was not a 429. */
  lemma ThrowsAt(respond: nat -> Response, retries: nat)
    requires 0 < retries
    requires forall j :: 0 <= j < retries ==> !respond(j).Ok?
    requires !RateLimited(respond(retries - 1))
    ensures RetryResult(respond, retries) == Threw(ErrorMessage(respond(retries - 1)))
    ensures Attempts(respond, retries) == retries
    ensures RetryWaits(respond, retries) == RetryWaits(respond, retries - 1)
    ensures RetryLog(respond, retries, retries) == RetryLog(respond, retries, retries - 1)
  {
    FirstOkNone(respond, retries);
    assert RetryLog(respond, retries, retries) == RetryLog(respond, retries, retries - 1) + [];
    assert RetryWaits(respond, retries) == RetryWaits(respond, retries - 1) + [];
  }

  /** The loop runs out when nothing succeeded and the last attempt, if any, was rate limited. */
  lemma ExhaustedAt(respond: nat -> Response, retries: nat)
    requires forall j :: 0 <= j < retries ==> !respond(j).Ok?
    requires retries > 0 ==> RateLimited(respond(retries - 1))
    ensures RetryResult(respond, retries) == Undefined
    ensures Attempts(respond, retries) == retries
  {
    FirstOkNone(respond, retries);
  }

  /**
   * Running the loop from attempt a completes the closed form: the same
   * result, and the waits and log entries of the first a attempts followed by
   * those of the rest.
   */
  predicate CompletesClosedForm(respond: nat -> Response, retries: nat, a: nat)
  {
    var here := RetryFrom(respond, retries, a);
    var n := Attempts(respond, retries);
    && here.result == RetryResult(respond, retries)
    && RetryWaits(respond, n) == RetryWaits(respond, a) + here.waits
    && RetryLog(respond, retries, n) == RetryLog(respond, retries, a) + here.log
  }

  /** The attempts at which the loop ends: past the last, a success, or a failure on the last attempt. */
  lemma ClosedFormAtEnd(respond: nat -> Response, retries: nat, a: nat)
    requires a <= retries
    requires forall j :: 0 <= j < a ==> !respond(j).Ok?
    requires 0 < a ==> a < retries || RateLimited(respond(a - 1))
    requires a == retries || respond(a).Ok? || (a + 1 == retries && !RateLimited(respond(a)))
    ensures CompletesClosedForm(respond, retries, a)
  {
    var here := RetryFrom(respond, retries, a);
    if a == retries {
      ExhaustedAt(respond, retries);
    } else if respond(a).Ok? {
      SucceedsAt(respond, retries, a);
    } else {
      ThrowsAt(respond, retries);
    }
    assert here.waits == [] && here.log == [];
    assert RetryWaits(respond, a) + here.waits == RetryWaits(respond, a);
    assert RetryLog(respond, retries, a) + here.log == RetryLog(respond, retries, a);
  }

  /** A 429 before the last attempt: the wait and its notice come before those of the later attempts. */
  lemma ClosedFormAfterWait(respond: nat -> Response, retries: nat, a: nat)
    requires a < retries && RateLimited(respond(a))
    requires CompletesClosedForm(respond, retries, a + 1)
    ensures CompletesClosedForm(respond, retries, a)
  {
    var here, rest := RetryFrom(respond, retries, a), RetryFrom(respond, retries, a + 1);
    var w, l := RetryWaits(respond, a), RetryLog(respond, retries, a);
    assert RetryWaits(respond, a + 1) == w + [WaitTime(a)];
    assert RetryLog(respond, retries, a + 1) == l + [RateLimitWait(WaitTime(a))];
    assert w + [WaitTime(a)] + rest.waits == w + here.waits;
    assert l + [RateLimitWait(WaitTime(a))] + rest.log == l + here.log;
  }

  /** Another failure before the last attempt: its notice comes before those of the later attempts. */
  lemma ClosedFormAfterRetry(respond: nat -> Response, retries: nat, a: nat)
    requires a + 1 < retries && !respond(a).Ok? && !RateLimited(respond(a))
    requires CompletesClosedForm(respond, retries, a + 1)
    ensures CompletesClosedForm(respond, retries, a)
  {
    var here, rest := RetryFrom(respond, retries, a), RetryFrom(respond, retries, a + 1);
    var l := RetryLog(respond, retries, a);
    assert RetryWaits(respond, a + 1) == RetryWaits(respond, a) + [];
    assert RetryLog(respond, retries, a + 1) == l + [AttemptFailed(a)];
    assert l + [AttemptFailed(a)] + rest.log == l + here.log;
  }

  /** From every attempt the loop can reach, running it completes the closed form. */
  lemma {:induction false} RetryFromClosedForm(respond: nat -> Response, retries: nat, a: nat)
    requires a <= retries
    requires forall j :: 0 <= j < a ==> !respond(j).Ok?
    requires 0 < a ==> a < retries || RateLimited(respond(a - 1))
    ensures CompletesClosedForm(respond, retries, a)
    decreases retries - a
  {
    if a == retries || respond(a).Ok? || (a + 1 == retries && !RateLimited(respond(a))) {
      ClosedFormAtEnd(respond, retries, a);
    } else {
      RetryFromClosedForm(respond, retries, a + 1);
      if RateLimited(respond(a)) {
        ClosedFormAfterWait(respond, retries, a);
      } else {
        ClosedFormAfterRetry(respond, retries, a);
      }
    }
  }

  /** The loop of transcribeChunk yields, awaits and logs exactly the closed form. */
  lemma RetryClosedForm(respond: nat -> Response, retries: nat)
    ensures RetryFrom(respond, retries, 0) ==
      Outcome(RetryResult(respond, retries), RetryWaits(respond, Attempts(respond, retries)),
              RetryLog(respond, retries, Attempts(respond, retries)))
  {
    RetryFromClosedForm(respond, retries, 0);
  }

  lemma Pow2Increasing(a: nat, b: nat)
    requires a < b
    ensures Pow2(a) < Pow2(b)
  {
    if a < b - 1 {
      Pow2Increasing(a, b - 1);
    }
  }

  /** x is the wait after one of the first m attempts, which was rate limited. */
  ghost predicate IsRateLimitWait(respond: nat -> Response, m: nat, x: nat)
  {
    exists j: nat :: j < m && RateLimited(respond(j)) && x == WaitTime(j)
  }

  /** Every wait is the wait of a rate-limited attempt, and there is at most one per attempt. */
  lemma {:induction false} RetryWaitsLimited(respond: nat -> Response, m: nat)
    ensures |RetryWaits(respond, m)| <= m
    ensures forall i :: 0 <= i < |RetryWaits(respond, m)| ==> IsRateLimitWait(respond, m, RetryWaits(respond, m)[i])
  {
    if m > 0 {
      RetryWaitsLimited(respond, m - 1);
      var prev := RetryWaits(respond, m - 1);
      var w := RetryWaits(respond, m);
      forall i | 0 <= i < |w| ensures IsRateLimitWait(respond, m, w[i]) {
        if i < |prev| {
          assert w[i] == prev[i];
          assert IsRateLimitWait(respond, m - 1, prev[i]);
          var j: nat :| j < m - 1 && RateLimited(respond(j)) && prev[i] == WaitTime(j);
        } else {
          assert RateLimited(respond(m - 1)) && w[i] == WaitTime(m - 1);
        }
      }
    }
  }

  /** Every rate-limited attempt's wait is awaited. */
  lemma {:induction false} RetryWaitsComplete(respond: nat -> Response, m: nat)
    ensures forall j: nat :: j < m && RateLimited(respond(j)) ==> WaitTime(j) in RetryWaits(respond, m)
  {
    if m > 0 {
      RetryWaitsComplete(respond, m - 1);
      var prev := RetryWaits(respond, m - 1);
      if RateLimited(respond(m - 1)) {
        assert RetryWaits(respond, m) == prev + [WaitTime(m - 1)];
        assert forall x :: x in prev ==> x in prev + [WaitTime(m - 1)];
      }
    }
  }

  /** The waits of the first m attempts are all shorter than the wait of attempt m. */
  lemma {:induction false} RetryWaitsBelow(respond: nat -> Response, m: nat)
    ensures forall i :: 0 <= i < |RetryWaits(respond, m)| ==> RetryWaits(respond, m)[i] < WaitTime(m)
  {
    if m > 0 {
      RetryWaitsBelow(respond, m - 1);
      Pow2Increasing(m - 1, m);
      assert WaitTime(m - 1) < WaitTime(m);
      var prev := RetryWaits(respond, m - 1);
      var w := RetryWaits(respond, m);
      forall i | 0 <= i < |w| ensures w[i] < WaitTime(m) {
        if i < |prev| {
          assert w[i] == prev[i];
        }
      }
    }
  }

  /** The waits are strictly increasing. */
  lemma {:induction false} RetryWaitsIncreasing(respond: nat -> Response, m: nat)
    ensures forall i, i' :: 0 <= i < i' < |RetryWaits(respond, m)| ==> RetryWaits(respond, m)[i] < RetryWaits(respond, m)[i']
  {
    if m > 0 {
      RetryWaitsIncreasing(respond, m - 1);
      RetryWaitsBelow(respond, m - 1);
      var prev := RetryWaits(respond, m - 1);
      var w := RetryWaits(respond, m);
      forall i, i' | 0 <= i < i' < |w| ensures w[i] < w[i'] {
        assert w[i] == prev[i];
        if i' < |prev| {
          assert w[i'] == prev[i'];
        }
      }
    }
  }

  /**
   * The waits are exactly WaitTime(j) for the rate-limited attempts j, in
   * increasing order: other failures are retried without waiting.
   */
  lemma RetryWaitsSpec(respond: nat -> Response, m: nat)
    ensures var w := RetryWaits(respond, m);
      && (forall i :: 0 <= i < |w| ==> IsRateLimitWait(respond, m, w[i]))
      && (forall j: nat :: j < m && RateLimited(respond(j)) ==> WaitTime(j) in w)
      && (forall i, i' :: 0 <= i < i' < |w| ==> w[i] < w[i'])
      && |w| <= m
  {
    RetryWaitsLimited(respond, m);
    RetryWaitsComplete(respond, m);
    RetryWaitsIncreasing(respond, m);
  }

  /** The example of three attempts answered 429, 429, success: waits of 1000 and 2000 ms, then the text. */
  lemma RetryExample()
    ensures var respond := (k: nat) => if k < 2 then HttpError(429, "Too Many Requests") else Ok(200, "hello");
      && RetryResult(respond, DefaultRetries) == Text("hello")
      && Attempts(respond, DefaultRetries) == 3
      && RetryWaits(respond, Attempts(respond, DefaultRetries)) == [1000, 2000]
  {
    var respond := (k: nat) => if k < 2 then HttpError(429, "Too Many Requests") else Ok(200, "hello");
    assert FirstOk(respond, 2) == 2;
    assert FirstOk(respond, 3) == 2;
    assert RetryWaits(respond, 1) == [1000];
  }

  /**
   * When every attempt is rate limited, all attempts are made, each waits
   * 2^j seconds (the last one too), and the result is undefined rather than
   * an error.
   */
  lemma {:induction false} AllRateLimited(respond: nat -> Response, retries: nat)
    requires forall k :: 0 <= k < retries ==> RateLimited(respond(k))
    ensures RetryResult(respond, retries) == Undefined
    ensures Attempts(respond, retries) == retries
    ensures RetryWaits(respond, retries) == seq(retries, j requires 0 <= j < retries => WaitTime(j))
  {
    if retries > 0 {
      AllRateLimited(respond, retries - 1);
    }
  }

  /** With the default three attempts, all rate limited: waits of 1, 2 and 4 seconds, then undefined. */
  lemma AllRateLimitedDefault(respond: nat -> Response)
    requires forall k :: 0 <= k < DefaultRetries ==> RateLimited(respond(k))
    ensures RetryResult(respond, DefaultRetries) == Undefined
    ensures RetryWaits(respond, DefaultRetries) == [1000, 2000, 4000]
  {
    AllRateLimited(respond, DefaultRetries);
  }

  /**
   * An error is thrown only after every attempt was made and none succeeded,
   * and it is the last attempt's own error, which was not a 429.
   */
  lemma RethrowOnlyOnLast(respond: nat -> Response, retries: nat)
    ensures RetryResult(respond, retries).Threw? <==>
      (retries > 0 && (forall j :: 0 <= j < retries ==> !respond(j).Ok?) && !RateLimited(respond(retries - 1)))
    ensures RetryResult(respond, retries).Threw? ==>
      Attempts(respond, retries) == retries &&
      RetryResult(respond, retries).message == ErrorMessage(respond(retries - 1))
  {
    FirstOkSpec(respond, retries);
    if retries > 0 && (forall j :: 0 <= j < retries ==> !respond(j).Ok?) {
      FirstOkNone(respond, retries);
    }
  }

  /** Every entry is a rate-limit wait or a retry notice. */
  predicate OnlyRetryNotices(log: seq<LogEntry>)
  {
    forall i :: 0 <= i < |log| ==> log[i].RateLimitWait? || log[i].AttemptFailed?
  }

  /** transcribeChunk logs nothing but rate-limit waits and retry notices. */
  lemma {:induction false} RetryLogsNotices(respond: nat -> Response, retries: nat, a: nat)
    ensures OnlyRetryNotices(RetryFrom(respond, retries, a).log)
    decreases retries - a
  {
    if a < retries && !respond(a).Ok? && (RateLimited(respond(a)) || a + 1 < retries) {
      RetryLogsNotices(respond, retries, a + 1);
      var rest := RetryFrom(respond, retries, a + 1).log;
      var entry := if RateLimited(respond(a)) then RateLimitWait(WaitTime(a)) else AttemptFailed(a);
      var log := RetryFrom(respond, retries, a).log;
      assert log == [entry] + rest;
      forall i | 1 <= i < |log|
        ensures log[i].RateLimitWait? || log[i].AttemptFailed?
      {
        assert log[i] == rest[i - 1];
      }
    }
  }
}
