/** The polling helpers of utils.go: the sequential decision rule of `waitFor`
    and the job-status predicate of `WaitForSuccessJobFinish`.

    Time is abstract: one predicate call per tick, one second per tick, and the
    predicate's answers are given as a sequence. The model stops when that
    sequence runs out (`StillPolling`). */
module Utils {
  import opened Wrappers
  import Common

  /** The status strings a job goes through (job.go). */
  datatype JobStatus = New | Pending | Waiting | Running | Successful | Failed | Error | Canceled
  {
    function Name(): string
    {
      match this
      case New => "new"
      case Pending => "pending"
      case Waiting => "waiting"
      case Running => "running"
      case Successful => "successful"
      case Failed => "failed"
      case Error => "error"
      case Canceled => "canceled"
    }

    predicate IsTerminal() { this in {Successful, Failed, Error, Canceled} }
  }

  /** What one call of the predicate returns: `(done, err)`. */
  datatype Check = Check(done: bool, err: Option<Common.Error>)

  /** How `waitFor` ends. */
  datatype Wait =
    | Succeeded                 // nil
    | Aborted(err: Common.Error) // the predicate's error, unchanged
    | TimedOut                  // "a timeout occurred"
    | StillPolling              // the given answers ran out first

  // ---------------------------------------------------------------------------
  // The job-status predicate

  /** The `switch` on `job.Status`: "successful" is done, the three failure
      statuses are done with an error naming them, anything else keeps going. */
  function StatusCheck(status: string): (c: Check)
    ensures c.done <==> status in {"successful", "failed", "error", "canceled"}
    ensures c.err.Some? <==> status in {"failed", "error", "canceled"}
    ensures c.err.Some? ==> c.err.value == Common.BadJobStatus(status)
  {
    if status == Successful.Name() then Check(true, None)
    else if status == Failed.Name() then Check(true, Some(Common.BadJobStatus(Failed.Name())))
    else if status == Error.Name() then Check(true, Some(Common.BadJobStatus(Error.Name())))
    else if status == Canceled.Name() then Check(true, Some(Common.BadJobStatus(Canceled.Name())))
    else Check(false, None)
  }

  /** The whole predicate: a `GetJob` error is passed on with `done = false`. */
  function JobCheck(poll: Result<string, Common.Error>): (c: Check)
    ensures poll.Err? ==> c == Check(false, Some(poll.error))
    ensures poll.Ok? ==> c == StatusCheck(poll.value)
  {
    match poll
    case Err(e) => Check(false, Some(e))
    case Ok(status) => StatusCheck(status)
  }

  /** A known status is terminal exactly when the predicate reports done. */
  lemma StatusCheckOnKnownStatuses(s: JobStatus)
    ensures StatusCheck(s.Name()).done <==> s.IsTerminal()
    ensures StatusCheck(s.Name()).err.Some? <==> s in {Failed, Error, Canceled}
  {
  }

  // ---------------------------------------------------------------------------
  // The polling loop

  /** `waitFor` from the point where `elapsed` seconds have passed and
      `checks` are the predicate's next answers: the verdict and the number of
      predicate calls made. */
  function Poll(timeout: int, elapsed: nat, checks: seq<Check>): (Wait, nat)
    decreases |checks|
  {
    if timeout >= 0 && elapsed >= timeout then (TimedOut, 0)
    else if checks == [] then (StillPolling, 0)
    else if checks[0].err.Some? then (Aborted(checks[0].err.value), 1)
    else if checks[0].done then (Succeeded, 1)
    else
      var (w, calls) := Poll(timeout, elapsed + 1, checks[1..]);
      (w, calls + 1)
  }

  /** `waitFor`: before every tick the overall timeout is checked (unless it is
      negative), then one second passes and the predicate is called once. */
  method WaitFor(timeout: int, checks: seq<Check>) returns (w: Wait, calls: nat)
    ensures (w, calls) == Poll(timeout, 0, checks)
    ensures calls <= |checks|
    ensures timeout == 0 ==> w == TimedOut && calls == 0
  {
    var elapsed: nat := 0;
    calls := 0;
    while true
      invariant calls == elapsed <= |checks|
      invariant Poll(timeout, 0, checks) == var (v, n) := Poll(timeout, elapsed, checks[elapsed..]); (v, n + elapsed)
      decreases |checks| - elapsed
    {
      if timeout >= 0 && elapsed >= timeout {
        return TimedOut, calls;
      }
      if elapsed == |checks| {
        return StillPolling, calls;
      }
      // time.Sleep(1 * time.Second), then the predicate
      var result := checks[elapsed];
      elapsed := elapsed + 1;
      calls := calls + 1;
      if result.err.Some? {
        return Aborted(result.err.value), calls;
      }
      if result.done {
        return Succeeded, calls;
      }
      assert checks[elapsed - 1..][1..] == checks[elapsed..];
    }
  }

  /** `WaitForSuccessJobFinish`: `waitFor` over the job-status predicate; `polls`
      are the results of the successive `GetJob` calls. */
  method WaitForSuccessJobFinish(secs: int, polls: seq<Result<string, Common.Error>>)
    returns (w: Wait, calls: nat)
    ensures (w, calls) == Poll(secs, 0, JobChecks(polls))
  {
    w, calls := WaitFor(secs, JobChecks(polls));
  }

  function JobChecks(polls: seq<Result<string, Common.Error>>): (cs: seq<Check>)
    ensures |cs| == |polls|
    ensures forall i :: 0 <= i < |polls| ==> cs[i] == JobCheck(polls[i])
  {
    seq(|polls|, i requires 0 <= i < |polls| => JobCheck(polls[i]))
  }

  // ---------------------------------------------------------------------------
  // Properties of the decision rule

  /** The index of the first answer that ends the loop (done, or an error), or
      `|checks|` when there is none. */
  function FirstVerdict(checks: seq<Check>): (k: nat)
    ensures k <= |checks|
    ensures forall i :: 0 <= i < k ==> !checks[i].done && checks[i].err.None?
    ensures k < |checks| ==> checks[k].done || checks[k].err.Some?
  {
    if checks == [] then 0
    else if checks[0].done || checks[0].err.Some? then 0
    else FirstVerdict(checks[1..]) + 1
  }

  /** How a decisive answer ends the loop: an error wins over `done`. */
  function Verdict(c: Check): Wait
  {
    if c.err.Some? then Aborted(c.err.value) else Succeeded
  }

  /** The number of ticks the overall timeout allows from `elapsed` on
      (`None`: unlimited, for a negative timeout). */
  function TicksLeft(timeout: int, elapsed: nat): Option<nat>
  {
    if timeout < 0 then None else if elapsed >= timeout then Some(0) else Some(timeout - elapsed)
  }

  /** The whole behaviour of `waitFor`: it ends at the first decisive answer
      if the timeout allows that many ticks, with a timeout as soon as it does
      not, and it never calls the predicate more often than that. */
  lemma {:induction false} PollCharacterised(timeout: int, elapsed: nat, checks: seq<Check>)
    ensures var k := FirstVerdict(checks);
      var left := TicksLeft(timeout, elapsed);
      Poll(timeout, elapsed, checks) ==
        if left.Some? && left.value <= k then (TimedOut, left.value)
        else if k < |checks| then (Verdict(checks[k]), k + 1)
        else (StillPolling, |checks|)
    decreases |checks|
  {
    if timeout >= 0 && elapsed >= timeout {
    } else if checks == [] {
    } else if checks[0].err.Some? || checks[0].done {
    } else {
      PollCharacterised(timeout, elapsed + 1, checks[1..]);
      assert FirstVerdict(checks) == FirstVerdict(checks[1..]) + 1;
      if FirstVerdict(checks[1..]) < |checks[1..]| {
        assert checks[1..][FirstVerdict(checks[1..])] == checks[FirstVerdict(checks)];
      }
    }
  }

  /** A negative timeout switches the overall deadline check off: the decision
      rule never ends with `TimedOut` for it. */
  lemma {:induction false} NegativeTimeoutSkipsDeadline(timeout: int, elapsed: nat, checks: seq<Check>)
    requires timeout < 0
    ensures Poll(timeout, elapsed, checks).0 != TimedOut
    decreases |checks|
  {
    if checks != [] && checks[0].err.None? && !checks[0].done {
      NegativeTimeoutSkipsDeadline(timeout, elapsed + 1, checks[1..]);
    }
  }

  /** A predicate that keeps answering `(false, nil)` ends in a timeout after
      exactly `timeout` calls. */
  lemma {:induction false} TimeoutAfterExactTicks(timeout: nat, checks: seq<Check>)
    requires |checks| >= timeout
    requires forall i :: 0 <= i < |checks| ==> checks[i] == Check(false, None)
    ensures Poll(timeout, 0, checks) == (TimedOut, timeout)
  {
    PollCharacterised(timeout, 0, checks);
  }

  /** An answer that is both done and an error ends the loop with the error. */
  lemma {:induction false} ErrorWinsOverDone(timeout: int, checks: seq<Check>, e: Common.Error)
    requires timeout != 0
    requires |checks| > 0 && checks[0] == Check(true, Some(e))
    ensures Poll(timeout, 0, checks) == (Aborted(e), 1)
  {
  }

  /** A job seen as new, pending, running and then successful, polled with
      enough time, ends without error after four calls. */
  lemma JobReachesSuccess(secs: int)
    requires secs < 0 || secs >= 4
    ensures var polls := [Ok("new"), Ok("pending"), Ok("running"), Ok("successful")];
      Poll(secs, 0, JobChecks(polls)) == (Succeeded, 4)
  {
    var polls: seq<Result<string, Common.Error>> := [Ok("new"), Ok("pending"), Ok("running"), Ok("successful")];
    var cs := JobChecks(polls);
    assert cs[0] == Check(false, None) && cs[1] == Check(false, None) && cs[2] == Check(false, None);
    assert cs[3] == Check(true, None);
    assert cs[1..][1..][1..][0] == cs[3];
    assert FirstVerdict(cs[1..][1..][1..]) == 0;
    assert FirstVerdict(cs) == 3;
    PollCharacterised(secs, 0, cs);
  }

  /** A job that fails on the third poll ends with the error naming "failed". */
  lemma JobFailsOnThirdPoll(secs: int)
    requires secs < 0 || secs >= 3
    ensures var polls := [Ok("new"), Ok("running"), Ok("failed")];
      Poll(secs, 0, JobChecks(polls)) == (Aborted(Common.BadJobStatus("failed")), 3)
  {
    var polls: seq<Result<string, Common.Error>> := [Ok("new"), Ok("running"), Ok("failed")];
    var cs := JobChecks(polls);
    assert cs[0] == Check(false, None) && cs[1] == Check(false, None);
    assert cs[2] == Check(true, Some(Common.BadJobStatus("failed")));
    assert cs[1..][1..][0] == cs[2];
    assert FirstVerdict(cs[1..][1..]) == 0;
    assert FirstVerdict(cs) == 2;
    PollCharacterised(secs, 0, cs);
  }
}
