/** The bounded retry of connect(callback, retry): what a chain of connection
    attempts does when every setup fails. */
module RetryChain {
  import opened Billing
  import opened IabHelper

  /** The retries left carried by the successive retries a chain posts,
      starting from an attempt with `retry` left. */
  function Countdown(retry: nat): (r: seq<nat>)
    ensures |r| == retry
  {
    if retry == 0 then [] else [retry - 1] + Countdown(retry - 1)
  }

  /** The delays of those retries: 10000/retry ms for the attempt that still
      had `retry` left. */
  function DelaySchedule(retry: nat): (r: seq<nat>)
    ensures |r| == retry
  {
    if retry == 0 then [] else [RetryDelay(retry)] + DelaySchedule(retry - 1)
  }

  /** The retry counts of the posted retries among `outs`, in order. */
  function ScheduledRetries(outs: seq<Output>): seq<nat> {
    if outs == [] then []
    else if outs[0].ScheduleRetry? then [outs[0].retry] + ScheduledRetries(outs[1..])
    else ScheduledRetries(outs[1..])
  }

  /** The delays of the posted retries among `outs`, in order. */
  function ScheduledDelays(outs: seq<Output>): seq<nat> {
    if outs == [] then []
    else if outs[0].ScheduleRetry? then [outs[0].delayMs] + ScheduledDelays(outs[1..])
    else ScheduledDelays(outs[1..])
  }

  lemma {:induction false} ScheduledAppend(a: seq<Output>, b: seq<Output>)
    ensures ScheduledRetries(a + b) == ScheduledRetries(a) + ScheduledRetries(b)
    ensures ScheduledDelays(a + b) == ScheduledDelays(a) + ScheduledDelays(b)
    decreases |a|
  {
    if a == [] {
      assert a + b == b;
    } else {
      assert (a + b)[1..] == a[1..] + b;
      ScheduledAppend(a[1..], b);
    }
  }

  /** Outputs that only keep the connection chain going. */
  predicate IsRetryPlumbing(o: Output) {
    o.ScheduleRetry? || o.StartConnection?
  }

  datatype Chain = Chain(state: State, outputs: seq<Output>, attempts: nat)

  /** The outputs of a failing chain: retry plumbing, then one billing
      request as the very last output, which is the callback's own request
      unless the callback is a payment (whose request is a connection). */
  predicate ChainShaped(outs: seq<Output>, callback: Callback) {
    && |outs| >= 1
    && (forall i :: 0 <= i < |outs| - 1 ==> IsRetryPlumbing(outs[i]))
    && outs[|outs| - 1].IsBillingRequest()
    && (!callback.MakePaymentInternal? ==> !IsRetryPlumbing(outs[|outs| - 1]))
  }

  /** Prepending one round (a posted retry and the connection it starts)
      to a chain's outputs. */
  lemma PrependSchedule(r: Output, c: Output, rest: seq<Output>)
    requires r.ScheduleRetry? && c.StartConnection?
    ensures ScheduledRetries([r, c] + rest) == [r.retry] + ScheduledRetries(rest)
    ensures ScheduledDelays([r, c] + rest) == [r.delayMs] + ScheduledDelays(rest)
  {
    var outs := [r, c] + rest;
    assert outs[1..] == [c] + rest;
    assert outs[1..][1..] == rest;
  }

  lemma PrependRound(r: Output, c: Output, rest: seq<Output>, callback: Callback)
    requires r.ScheduleRetry? && c.StartConnection? && ChainShaped(rest, callback)
    ensures ChainShaped([r, c] + rest, callback)
  {
    var outs := [r, c] + rest;
    assert outs[|outs| - 1] == rest[|rest| - 1];
    forall i | 0 <= i < |outs| - 1
      ensures IsRetryPlumbing(outs[i])
    {
      if i >= 2 {
        assert outs[i] == rest[i - 2];
      }
    }
  }

  /** The last round: the callback's single request, and no retry posted. */
  lemma LastSchedule(o: Output)
    requires !o.ScheduleRetry?
    ensures ScheduledRetries([o]) == [] && ScheduledDelays([o]) == []
  {
    assert [o][1..] == [];
  }

  /** Connect runs again, with one retry fewer, when the retry posted by a
      failed setup of `s` falls due. */
  function RetryFired(s: State, t1: Transition, a: Attempt): (t2: Transition)
    requires a.retry > 0
  {
    Connect(t1.state.(timers := t1.state.timers - {s.nextId}), a.callback, a.retry - 1)
  }

  /** One round of a failing chain with retries left: the failed setup posts
      a retry, and the retry, once due, registers the next listener. */
  function FailedRound(s: State, a: Attempt): (t: Transition)
    requires 0 < a.retry <= MaxRetry
    ensures t.outputs == [ScheduleRetry(s.nextId, RetryDelay(a.retry), a.retry - 1), StartConnection(s.nextId + 1)]
    ensures !t.state.connected
    ensures s.nextId + 1 in t.state.conns && t.state.conns[s.nextId + 1] == Attempt(a.callback, a.retry - 1)
  {
    var t1 := PostRetry(s, a);
    var t2 := RetryFired(s, t1, a);
    Transition(t2.state, t1.outputs + t2.outputs)
  }

  /** Let every setup attempt of the chain that starts at listener `id` fail
      with `code`, firing each posted retry when it is due, until the
      callback finally runs with no retries left. */
  function FailEveryAttempt(s: State, id: nat, code: int): (c: Chain)
    requires id in s.conns && s.conns[id].retry <= MaxRetry && code != OK
    ensures c.attempts == s.conns[id].retry + 1 && c.attempts <= MaxRetry + 1
    ensures ScheduledRetries(c.outputs) == Countdown(s.conns[id].retry)
    ensures ScheduledDelays(c.outputs) == DelaySchedule(s.conns[id].retry)
    ensures |c.outputs| == 2 * s.conns[id].retry + 1
    ensures !c.state.connected
    decreases s.conns[id].retry, 1
  {
    if s.conns[id].retry == 0 then LastAttempt(s, s.conns[id])
    else RetriedAttempt(s, id, code)
  }

  /** The attempt with no retries left: the callback runs anyway, issuing
      its single request, and no retry is posted. */
  function LastAttempt(s: State, a: Attempt): (c: Chain)
    ensures c.attempts == 1 && |c.outputs| == 1 && !c.state.connected
    ensures ScheduledRetries(c.outputs) == [] && ScheduledDelays(c.outputs) == []
    ensures ChainShaped(c.outputs, a.callback)
  {
    var t := GiveUp(s, a);
    LastSchedule(t.outputs[0]);
    assert t.outputs == [t.outputs[0]];
    Chain(t.state, t.outputs, 1)
  }

  /** An attempt with retries left: one failed round, then the chain of the
      connection that round started. */
  function RetriedAttempt(s: State, id: nat, code: int): (c: Chain)
    requires id in s.conns && 0 < s.conns[id].retry <= MaxRetry && code != OK
    ensures c.attempts == s.conns[id].retry + 1 && c.attempts <= MaxRetry + 1
    ensures ScheduledRetries(c.outputs) == Countdown(s.conns[id].retry)
    ensures ScheduledDelays(c.outputs) == DelaySchedule(s.conns[id].retry)
    ensures |c.outputs| == 2 * s.conns[id].retry + 1
    ensures !c.state.connected
    decreases s.conns[id].retry, 0
  {
    var a := s.conns[id];
    var round := FailedRound(s, a);
    var c := FailEveryAttempt(round.state, s.nextId + 1, code);
    PrependSchedule(round.outputs[0], round.outputs[1], c.outputs);
    Chain(c.state, round.outputs + c.outputs, c.attempts + 1)
  }

  /** Until the callback finally runs, a failing chain only posts retries
      and starts connections; the callback's own request comes last. */
  lemma {:induction false} FailingChainShape(s: State, id: nat, code: int)
    requires id in s.conns && s.conns[id].retry <= MaxRetry && code != OK
    ensures ChainShaped(FailEveryAttempt(s, id, code).outputs, s.conns[id].callback)
    decreases s.conns[id].retry
  {
    var a := s.conns[id];
    if a.retry > 0 {
      var round := FailedRound(s, a);
      FailingChainShape(round.state, s.nextId + 1, code);
      PrependRound(round.outputs[0], round.outputs[1], FailEveryAttempt(round.state, s.nextId + 1, code).outputs, a.callback);
    }
  }

  /** The rounds of FailEveryAttempt are the helper's own steps: the failed
      setup event, then the retry timer firing. */
  lemma ChainFollowsSteps(s: State, id: nat, code: int)
    requires id in s.conns && s.conns[id].retry <= MaxRetry && code != OK
    ensures var a := s.conns[id];
      var t1 := Step(s, SetupFinished(id, code));
      && (a.retry > 0 ==>
            var t2 := Step(t1.state, RetryDue(s.nextId));
            Transition(t2.state, t1.outputs + t2.outputs) == FailedRound(s, a))
      && (a.retry == 0 ==> t1 == GiveUp(s, a))
  {
  }

  /** The retry counts of a chain strictly decrease, and its delays never
      shrink: 10000/retry grows as the retries run out, from 500 ms with the
      full budget of 20 up to 10000 ms for the last retry. */
  lemma {:induction false} ScheduleIsMonotone(retry: nat)
    ensures forall i, j :: 0 <= i < j < retry ==> Countdown(retry)[i] > Countdown(retry)[j]
    ensures forall i, j :: 0 <= i < j < retry ==> DelaySchedule(retry)[i] <= DelaySchedule(retry)[j]
    ensures forall i :: 0 <= i < retry ==> DelaySchedule(retry)[i] == RetryDelay(retry - i)
  {
    DelayScheduleAt(retry);
    CountdownAt(retry);
    forall i, j | 0 <= i < j < retry
      ensures DelaySchedule(retry)[i] <= DelaySchedule(retry)[j]
    {
      DivAntitone(RetryBaseDelayMs, retry - i, retry - j);
    }
  }

  lemma {:induction false} CountdownAt(retry: nat)
    ensures forall i :: 0 <= i < retry ==> Countdown(retry)[i] == retry - 1 - i
  {
    if retry > 0 {
      CountdownAt(retry - 1);
      forall i | 0 < i < retry
        ensures Countdown(retry)[i] == retry - 1 - i
      {
        assert Countdown(retry)[i] == Countdown(retry - 1)[i - 1];
      }
    }
  }

  lemma {:induction false} DelayScheduleAt(retry: nat)
    ensures forall i :: 0 <= i < retry ==> DelaySchedule(retry)[i] == RetryDelay(retry - i)
  {
    if retry > 0 {
      DelayScheduleAt(retry - 1);
      forall i | 0 < i < retry
        ensures DelaySchedule(retry)[i] == RetryDelay(retry - i)
      {
        assert DelaySchedule(retry)[i] == DelaySchedule(retry - 1)[i - 1];
      }
    }
  }

  /** A chain started by ensureConnected with the default budget makes at
      most 21 setup attempts, posting 20 retries from 500 ms up to 10000 ms,
      before its callback runs anyway. */
  lemma DefaultChainBound(s: State, id: nat, code: int)
    requires id in s.conns && code != OK && s.conns[id].retry == MaxRetry
    ensures var c := FailEveryAttempt(s, id, code);
      && c.attempts == 21
      && |ScheduledDelays(c.outputs)| == 20
      && ScheduledDelays(c.outputs)[0] == 500
      && ScheduledDelays(c.outputs)[19] == 10000
  {
    DelayScheduleAt(MaxRetry);
  }
}
