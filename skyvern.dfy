/** The task-runner client (SkyvernService): URL normalisation in
    create_task and the wait_for_completion polling loop, over a scripted
    stand-in for the remote service. */
module Skyvern {
  import opened Values
  import opened Environment

  datatype TaskStatus = Created | Queued | Running | Completed | Terminated | Failed | Canceled

  /** The four statuses that end wait_for_completion. */
  predicate IsTerminal(s: TaskStatus) {
    s == Completed || s == Failed || s == Terminated || s == Canceled
  }

  /** What a status request reports: the status and, when the remote
      includes it, `extracted_information`. */
  datatype TaskResult = TaskResult(status: TaskStatus, extractedInformation: Option<Json>)

  /** One scripted answer of the remote to a status request, with the time
      (in seconds) the request takes. */
  datatype PollStep = PollStep(result: TaskResult, latency: nat)

  /** The body create_task posts to the remote. */
  datatype TaskRequest = TaskRequest(
    url: string,
    navigationGoal: string,
    dataExtractionGoal: string,
    navigationPayload: Dict,
    proxyLocation: string)

  datatype TaskHandle = TaskHandle(taskId: Id)

  /** The default arguments of wait_for_completion. */
  const DefaultPollingInterval: nat := 10
  const DefaultTimeout: nat := 3000

  const SecondsPerDay: nat := 86400

  // ---------------------------------------------------------------------
  // URL normalisation

  predicate HasScheme(url: string) {
    "http://" <= url || "https://" <= url
  }

  /** create_task sends every url with an explicit scheme, https:// unless
      the url already starts with http:// or https://. */
  function NormalizeUrl(url: string): (r: string)
    ensures HasScheme(r)
    ensures r == url <==> HasScheme(url)
    ensures !HasScheme(url) ==> "https://" <= r
    ensures |url| <= |r| && r[|r| - |url|..] == url
    ensures !HasScheme(url) ==> |r| == |url| + 8
  {
    if HasScheme(url) then url else "https://" + url
  }

  lemma NormalizeUrlIdempotent(url: string)
    ensures NormalizeUrl(NormalizeUrl(url)) == NormalizeUrl(url)
  {
  }

  /** The output recorded for a finished task: `extracted_information`, or
      the empty object when the remote omitted it. */
  function OutputOf(r: TaskResult): Json {
    r.extractedInformation.GetOr(JObject(map[]))
  }

  // ---------------------------------------------------------------------
  // The polling loop

  /** The deadline test reads `(now - start).seconds`. With `dayWrap` it is
      what the code computes: the seconds component of a timedelta, which
      restarts at zero every day. Without it, the total elapsed seconds. */
  function ElapsedSeconds(elapsed: nat, dayWrap: bool): nat {
    if dayWrap then elapsed % SecondsPerDay else elapsed
  }

  datatype WaitOutcome = Finished(result: TaskResult) | TimedOut | Exhausted

  /** How a wait ends, how many status requests it made and the elapsed
      time when it ends. `Exhausted` means the script of remote answers ran
      out before the loop ended. */
  datatype Wait = Wait(outcome: WaitOutcome, polls: nat, elapsed: nat)

  /** wait_for_completion, started `elapsed` seconds after its start time,
      against the remote answers `steps`: check the deadline, request the
      status, stop on a terminal one, otherwise sleep `interval` and repeat. */
  function PollFrom(steps: seq<PollStep>, elapsed: nat, interval: nat, timeout: nat, dayWrap: bool): (w: Wait)
    ensures w.polls <= |steps| && elapsed <= w.elapsed
    ensures w.outcome.Finished? ==>
      1 <= w.polls && steps[w.polls - 1].result == w.outcome.result && IsTerminal(w.outcome.result.status)
    ensures w.outcome.Exhausted? ==> w.polls == |steps|
    decreases |steps|
  {
    if ElapsedSeconds(elapsed, dayWrap) > timeout then Wait(TimedOut, 0, elapsed)
    else if steps == [] then Wait(Exhausted, 0, elapsed)
    else if IsTerminal(steps[0].result.status) then
      Wait(Finished(steps[0].result), 1, elapsed + steps[0].latency)
    else
      var w := PollFrom(steps[1..], elapsed + steps[0].latency + interval, interval, timeout, dayWrap);
      w.(polls := w.polls + 1)
  }

  /** A wait requests statuses in order and stops at the first terminal
      one, which it returns; a wait that ran out of answers used them all;
      time only moves forward. */
  lemma {:induction false} PollStopsAtFirstTerminal(steps: seq<PollStep>, elapsed: nat, interval: nat, timeout: nat, dayWrap: bool)
    ensures var w := PollFrom(steps, elapsed, interval, timeout, dayWrap);
      && elapsed <= w.elapsed
      && (w.outcome.Finished? ==>
            && 1 <= w.polls
            && steps[w.polls - 1].result == w.outcome.result
            && IsTerminal(w.outcome.result.status))
      && (w.outcome.Exhausted? ==> w.polls == |steps|)
      && (forall j :: 0 <= j < w.polls && !(w.outcome.Finished? && j == w.polls - 1) ==>
            !IsTerminal(steps[j].result.status))
    decreases |steps|
  {
    if ElapsedSeconds(elapsed, dayWrap) <= timeout && steps != [] && !IsTerminal(steps[0].result.status) {
      var e' := elapsed + steps[0].latency + interval;
      PollStopsAtFirstTerminal(steps[1..], e', interval, timeout, dayWrap);
      var w, w' := PollFrom(steps, elapsed, interval, timeout, dayWrap), PollFrom(steps[1..], e', interval, timeout, dayWrap);
      forall j | 1 <= j < w.polls && !(w.outcome.Finished? && j == w.polls - 1)
        ensures !IsTerminal(steps[j].result.status)
      {
        assert steps[j] == steps[1..][j - 1];
      }
    }
  }

  /** The elapsed time at the deadline check before the j-th status request
      (j counted from 0), when every earlier request got a non-terminal answer. */
  function CheckTime(steps: seq<PollStep>, elapsed: nat, interval: nat, j: nat): nat
    requires j <= |steps|
    decreases j
  {
    if j == 0 then elapsed
    else CheckTime(steps[1..], elapsed + steps[0].latency + interval, interval, j - 1)
  }

  /** Timeout law, both readings of the clock: the loop gives up only at a
      check where more than `timeout` seconds have elapsed, never earlier. */
  lemma {:induction false} PollTimesOutOnlyLate(steps: seq<PollStep>, elapsed: nat, interval: nat, timeout: nat, dayWrap: bool)
    ensures var w := PollFrom(steps, elapsed, interval, timeout, dayWrap);
      w.outcome.TimedOut? ==> w.elapsed == CheckTime(steps, elapsed, interval, w.polls) > timeout
    decreases |steps|
  {
    var w := PollFrom(steps, elapsed, interval, timeout, dayWrap);
    if ElapsedSeconds(elapsed, dayWrap) > timeout {
    } else if steps != [] && !IsTerminal(steps[0].result.status) {
      PollTimesOutOnlyLate(steps[1..], elapsed + steps[0].latency + interval, interval, timeout, dayWrap);
    }
  }

  /** With the total elapsed time (the corrected reading) every status
      request is made before the deadline has passed, and a wait that runs
      out of answers never passed it. Together with PollTimesOutOnlyLate:
      the loop stops at the first check past the deadline. */
  lemma {:induction false} PollRequestsInTime(steps: seq<PollStep>, elapsed: nat, interval: nat, timeout: nat)
    ensures var w := PollFrom(steps, elapsed, interval, timeout, false);
      && (forall j :: 0 <= j < w.polls ==> CheckTime(steps, elapsed, interval, j) <= timeout)
      && (w.outcome.Exhausted? ==> CheckTime(steps, elapsed, interval, |steps|) <= timeout)
    decreases |steps|
  {
    var w := PollFrom(steps, elapsed, interval, timeout, false);
    if elapsed > timeout || steps == [] || IsTerminal(steps[0].result.status) {
    } else {
      var e' := elapsed + steps[0].latency + interval;
      PollRequestsInTime(steps[1..], e', interval, timeout);
      forall j | 0 <= j < w.polls
        ensures CheckTime(steps, elapsed, interval, j) <= timeout
      {
        if j > 0 {
          assert CheckTime(steps, elapsed, interval, j) == CheckTime(steps[1..], e', interval, j - 1);
        }
      }
    }
  }

  /** The code as written never times out when `timeout` is a day or more:
      the seconds component of a timedelta is always below 86400. */
  lemma {:induction false} PollAsWrittenIgnoresLongTimeouts(steps: seq<PollStep>, elapsed: nat, interval: nat, timeout: nat)
    requires timeout >= SecondsPerDay
    ensures !PollFrom(steps, elapsed, interval, timeout, true).outcome.TimedOut?
    decreases |steps|
  {
    if steps != [] && !IsTerminal(steps[0].result.status) {
      PollAsWrittenIgnoresLongTimeouts(steps[1..], elapsed + steps[0].latency + interval, interval, timeout);
    }
  }

  /** With the default arguments, one status request that takes a day makes
      the code as written poll again 86410 seconds after it started, far past
      its 3000-second limit; the corrected reading times out there. */
  lemma PollAsWrittenPollsPastDeadline()
    ensures var steps := [PollStep(TaskResult(Running, None), SecondsPerDay), PollStep(TaskResult(Completed, None), 0)];
      && PollFrom(steps, 0, DefaultPollingInterval, DefaultTimeout, true) == Wait(Finished(TaskResult(Completed, None)), 2, 86410)
      && CheckTime(steps, 0, DefaultPollingInterval, 1) == 86410 > DefaultTimeout
      && PollFrom(steps, 0, DefaultPollingInterval, DefaultTimeout, false) == Wait(TimedOut, 1, 86410)
  {
    var steps := [PollStep(TaskResult(Running, None), SecondsPerDay), PollStep(TaskResult(Completed, None), 0)];
    assert steps[1..] == [PollStep(TaskResult(Completed, None), 0)];
  }

  // ---------------------------------------------------------------------
  // Terminal answers consumed by a sequence of waits

  /** The terminal answers among `steps`, in order. */
  function Terminals(steps: seq<PollStep>): (r: seq<TaskResult>)
    ensures |r| <= |steps|
    ensures forall k :: 0 <= k < |r| ==> IsTerminal(r[k].status)
  {
    if steps == [] then []
    else (if IsTerminal(steps[0].result.status) then [steps[0].result] else []) + Terminals(steps[1..])
  }

  lemma {:induction false} TerminalsAppend(a: seq<PollStep>, b: seq<PollStep>)
    ensures Terminals(a + b) == Terminals(a) + Terminals(b)
    decreases |a|
  {
    if a == [] {
      assert a + b == b;
    } else {
      assert (a + b)[1..] == a[1..] + b;
      TerminalsAppend(a[1..], b);
    }
  }

  /** A result is a terminal answer of `steps` exactly when some answer in
      `steps` carries it with a terminal status; with TerminalsAppend this
      makes Terminals the terminal answers and nothing else, in order. */
  lemma {:induction false} TerminalsMembership(steps: seq<PollStep>, x: TaskResult)
    ensures x in Terminals(steps) <==>
      exists j :: 0 <= j < |steps| && steps[j].result == x && IsTerminal(x.status)
    decreases |steps|
  {
    if steps != [] {
      TerminalsMembership(steps[1..], x);
      if x in Terminals(steps[1..]) {
        var j :| 0 <= j < |steps[1..]| && steps[1..][j].result == x && IsTerminal(x.status);
        assert steps[j + 1].result == x;
      }
      if exists j :: 0 <= j < |steps| && steps[j].result == x && IsTerminal(x.status) {
        var j :| 0 <= j < |steps| && steps[j].result == x && IsTerminal(x.status);
        if j > 0 { assert steps[1..][j - 1].result == x; }
      }
    }
  }

  /** A wait consumes non-terminal answers and, when it finishes, exactly
      one terminal answer: the one it returns. */
  lemma {:induction false} PollConsumesOneTerminal(steps: seq<PollStep>, elapsed: nat, interval: nat, timeout: nat, dayWrap: bool)
    ensures var w := PollFrom(steps, elapsed, interval, timeout, dayWrap);
      Terminals(steps[..w.polls]) == if w.outcome.Finished? then [w.outcome.result] else []
    decreases |steps|
  {
    var w := PollFrom(steps, elapsed, interval, timeout, dayWrap);
    if ElapsedSeconds(elapsed, dayWrap) > timeout || steps == [] {
      assert steps[..w.polls] == [];
    } else if IsTerminal(steps[0].result.status) {
      TakeSplits(steps, 1);
    } else {
      var e' := elapsed + steps[0].latency + interval;
      var w' := PollFrom(steps[1..], e', interval, timeout, dayWrap);
      assert w.polls == w'.polls + 1 && w.outcome == w'.outcome;
      PollConsumesOneTerminal(steps[1..], e', interval, timeout, dayWrap);
      TakeSplits(steps, w.polls);
    }
  }

  lemma TakeSplits<T>(s: seq<T>, n: nat)
    requires 0 < n <= |s|
    ensures s[..n] != [] && s[..n][0] == s[0] && s[..n][1..] == s[1..][..n - 1]
  {
  }

  /** One non-terminal answer before the deadline: the wait from answer
      `done` on goes on as the wait from answer `done + 1` on, one status
      request later. */
  lemma PollResumes(steps: seq<PollStep>, done: nat, elapsed: nat, interval: nat, timeout: nat, done': nat, elapsed': nat)
    requires done < |steps| && elapsed <= timeout && !IsTerminal(steps[done].result.status)
    requires done' == done + 1 && elapsed' == elapsed + steps[done].latency + interval
    requires var w, rest := PollFrom(steps, 0, interval, timeout, false), PollFrom(steps[done..], elapsed, interval, timeout, false);
      w.outcome == rest.outcome && w.polls == rest.polls + done && w.elapsed == rest.elapsed
    ensures var w, rest := PollFrom(steps, 0, interval, timeout, false), PollFrom(steps[done'..], elapsed', interval, timeout, false);
      w.outcome == rest.outcome && w.polls == rest.polls + done' && w.elapsed == rest.elapsed
  {
    assert steps[done..][1..] == steps[done'..];
  }

  // ---------------------------------------------------------------------
  // The client

  /** SkyvernService over a stand-in for the remote: `posted` is every task
      the remote has received, in order, and the remote numbers tasks in
      that order; `script` is the answers it will give to status requests. */
  class SkyvernService {
    const clock: Clock
    var posted: seq<TaskRequest>
    var script: seq<PollStep>

    constructor (clock: Clock, script: seq<PollStep>)
      ensures this.clock == clock && posted == [] && this.script == script
    {
      this.clock := clock;
      posted := [];
      this.script := script;
    }

    /** create_task: normalise the url and post the task. */
    method CreateTask(url: string, navigationGoal: string, dataExtractionGoal: string, navigationPayload: Option<Dict>)
      returns (task: TaskHandle)
      modifies this
      ensures posted == old(posted) +
        [TaskRequest(NormalizeUrl(url), navigationGoal, dataExtractionGoal, OrEmpty(navigationPayload), "RESIDENTIAL")]
      ensures task.taskId == |old(posted)|
      ensures script == old(script)
    {
      var target := if !("http://" <= url) && !("https://" <= url) then "https://" + url else url;
      task := TaskHandle(|posted|);
      posted := posted + [TaskRequest(target, navigationGoal, dataExtractionGoal, OrEmpty(navigationPayload), "RESIDENTIAL")];
    }

    /** get_task_status: the next scripted answer, after its latency; None
        when the script has run out. */
    method GetTaskStatus(taskId: Id) returns (r: Option<TaskResult>)
      modifies this, clock
      ensures old(script) == [] ==> r == None && script == [] && clock.now == old(clock.now)
      ensures old(script) != [] ==>
        && r == Some(old(script)[0].result)
        && script == old(script)[1..]
        && clock.now == old(clock.now) + old(script)[0].latency
      ensures posted == old(posted)
    {
      if script == [] {
        r := None;
      } else {
        r := Some(script[0].result);
        clock.Advance(script[0].latency);
        script := script[1..];
      }
    }

    /** wait_for_completion, with the deadline measured in total elapsed
        seconds (see PollAsWrittenPollsPastDeadline for the code as written). */
    method WaitForCompletion(taskId: Id, pollingInterval: nat, timeout: nat) returns (outcome: WaitOutcome)
      modifies this, clock
      ensures var w := PollFrom(old(script), 0, pollingInterval, timeout, false);
        && outcome == w.outcome
        && script == old(script)[w.polls..]
        && clock.now == old(clock.now) + w.elapsed
      ensures posted == old(posted)
    {
      var start := clock.now;
      ghost var s0 := script;
      ghost var done: nat, elapsed: nat := 0, 0;
      while true
        invariant clock.now == start + elapsed
        invariant done <= |s0| && script == s0[done..]
        invariant var w, rest := PollFrom(s0, 0, pollingInterval, timeout, false),
                                 PollFrom(s0[done..], elapsed, pollingInterval, timeout, false);
          w.outcome == rest.outcome && w.polls == rest.polls + done && w.elapsed == rest.elapsed
        invariant posted == old(posted)
        decreases |script|
      {
        var e := clock.now - start;
        assert e == elapsed;
        if e > timeout {
          return TimedOut;
        }
        var status := GetTaskStatus(taskId);
        if status.None? {
          assert PollFrom(s0[done..], elapsed, pollingInterval, timeout, false) == Wait(Exhausted, 0, elapsed);
          return Exhausted;
        }
        if IsTerminal(status.value.status) {
          assert PollFrom(s0[done..], elapsed, pollingInterval, timeout, false)
              == Wait(Finished(status.value), 1, elapsed + s0[done].latency);
          assert s0[done..][1..] == s0[done + 1..];
          return Finished(status.value);
        }
        clock.Advance(pollingInterval);
        ghost var done', elapsed' := done + 1, elapsed + s0[done].latency + pollingInterval;
        PollResumes(s0, done, elapsed, pollingInterval, timeout, done', elapsed');
        assert script == s0[done'..];
        done, elapsed := done', elapsed';
      }
    }
  }
}
