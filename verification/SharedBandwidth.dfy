/** The scheduler object itself: its queue is updated in place, and every method is proved
    against the functions of module Bandwidth. */
module SharedBandwidthLink {
  import opened Wrappers
  import opened Bandwidth

  datatype TransferError = InvalidSize

  datatype ScheduleError = InvalidSchedule

  /** Every body reduced by `share`, none removed yet. */
  function Reduced(jobs: seq<Job>, share: real): (reduced: seq<Job>)
    ensures |reduced| == |jobs|
    ensures forall i | 0 <= i < |jobs| :: reduced[i] == jobs[i].(remaining := jobs[i].remaining - share)
  {
    seq(|jobs|, i requires 0 <= i < |jobs| => jobs[i].(remaining := jobs[i].remaining - share))
  }

  lemma {:induction false} DrainReduced(jobs: seq<Job>, share: real, tolerance: real)
    ensures Drain(Reduced(jobs, share), 0.0, tolerance) == Drain(jobs, share, tolerance)
    ensures Finished(Reduced(jobs, share), 0.0, tolerance) == Finished(jobs, share, tolerance)
  {
    if jobs != [] {
      DrainReduced(jobs[1..], share, tolerance);
      assert Reduced(jobs, share)[1..] == Reduced(jobs[1..], share);
    }
  }

  /** Bodies with at most a ten-millionth of a byte left are resolved, and no others. */
  lemma ResolvedAtTheTolerance(jobs: seq<Job>, job: Job)
    requires job in jobs
    ensures job in Drain(jobs, 0.0, DONE_TOLERANCE) <==> job.remaining > 0.0000001
  {
    DrainKeepsTheRest(jobs, DONE_TOLERANCE);
  }

  lemma {:induction false} DrainKeepsTheRest(jobs: seq<Job>, tolerance: real)
    ensures forall job | job in jobs :: job in Drain(jobs, 0.0, tolerance) <==> job.remaining > tolerance
    ensures forall job | job in Drain(jobs, 0.0, tolerance) :: job in jobs
  {
    if jobs != [] {
      DrainKeepsTheRest(jobs[1..], tolerance);
      assert jobs == [jobs[0]] + jobs[1..];
    }
  }

  class SharedBandwidth {
    const steps: seq<BandwidthStep>
    const started: real
    var last: real
    var pending: seq<Job>
    var resolved: seq<nat>
    var nextId: nat

    ghost predicate Valid()
      reads this
    {
      State().Valid()
    }

    ghost function State(): Link
      reads this
    {
      Link(steps, started, last, pending, nextId)
    }

    constructor (schedule: seq<BandwidthStep>, now: real)
      requires ValidSchedule(schedule)
      ensures Valid() && State() == Link(schedule, now, now, [], 0) && resolved == []
    {
      steps, started, last := schedule, now, now;
      pending, resolved, nextId := [], [], 0;
    }

    /** Checks the schedule as the original constructor does, which throws on a bad one. */
    static method Create(schedule: seq<BandwidthStep>, now: real) returns (link: Result<SharedBandwidth, ScheduleError>)
      ensures link.Ok? <==>
                && |schedule| > 0 && schedule[0].afterMs == 0.0
                && (forall i | 0 <= i < |schedule| :: schedule[i].bytesPerSecond > 0.0)
                && (forall i | 1 <= i < |schedule| :: schedule[i - 1].afterMs < schedule[i].afterMs)
      ensures link.Ok? ==> fresh(link.value) && link.value.Valid()
                           && link.value.State() == Link(schedule, now, now, [], 0) && link.value.resolved == []
    {
      if |schedule| == 0 || schedule[0].afterMs != 0.0 {
        return Err(InvalidSchedule);
      }
      for i := 0 to |schedule|
        invariant forall k | 0 <= k < i :: schedule[k].bytesPerSecond > 0.0
        invariant forall k | 1 <= k < i :: schedule[k - 1].afterMs < schedule[k].afterMs
      {
        if || schedule[i].bytesPerSecond <= 0.0
           || schedule[i].afterMs < 0.0
           || (i > 0 && schedule[i].afterMs <= schedule[i - 1].afterMs)
        {
          if schedule[i].afterMs < 0.0 {
            StartsAtZero(schedule, i);
          }
          return Err(InvalidSchedule);
        }
      }
      var created := new SharedBandwidth(schedule, now);
      link := Ok(created);
    }

    static lemma StartsAtZero(schedule: seq<BandwidthStep>, i: nat)
      requires i < |schedule| && schedule[0].afterMs == 0.0 && schedule[i].afterMs < 0.0
      ensures !ValidSchedule(schedule)
    {
      if ValidSchedule(schedule) {
        Ascending(schedule, 0, i);
      }
    }

    method TakeShare(share: real)
      modifies this`pending
      ensures pending == Reduced(old(pending), share)
    {
      var k := 0;
      while k < |pending|
        invariant 0 <= k <= |pending| == |old(pending)|
        invariant forall i | 0 <= i < k :: pending[i] == Reduced(old(pending), share)[i]
        invariant forall i | k <= i < |pending| :: pending[i] == old(pending)[i]
      {
        pending := pending[k := pending[k].(remaining := pending[k].remaining - share)];
        k := k + 1;
      }
    }

    /** Splices finished bodies out of the queue from its end, resolving each as it goes. */
    method ResolveFinished()
      modifies this`pending, this`resolved
      ensures pending == Drain(old(pending), 0.0, DONE_TOLERANCE)
      ensures resolved == old(resolved) + Finished(old(pending), 0.0, DONE_TOLERANCE)
    {
      ghost var jobs := pending;
      var i := |pending|;
      while i > 0
        invariant 0 <= i <= |jobs|
        invariant pending == jobs[..i] + Drain(jobs[i..], 0.0, DONE_TOLERANCE)
        invariant resolved == old(resolved) + Finished(jobs[i..], 0.0, DONE_TOLERANCE)
      {
        i := i - 1;
        ghost var tail := Drain(jobs[i + 1..], 0.0, DONE_TOLERANCE);
        assert jobs[i..][1..] == jobs[i + 1..] && jobs[i..][0] == jobs[i] == pending[i];
        assert jobs[..i + 1] == jobs[..i] + [jobs[i]];
        assert pending[i + 1..] == tail;
        if pending[i].remaining <= DONE_TOLERANCE {
          resolved := resolved + [pending[i].id];
          pending := pending[..i] + pending[i + 1..];
        }
      }
      assert jobs[0..] == jobs;
    }

    /** Accounts for the time since the last call: integrates the rate, then shares the budget. */
    method Advance(now: real)
      requires Valid()
      modifies this`last, this`pending, this`resolved
      ensures Valid() && State() == Bandwidth.Advance(old(State()), now, DONE_TOLERANCE)
      ensures resolved == old(resolved) + Resolved(old(pending), Earned(old(State()), now), DONE_TOLERANCE)
    {
      var budget := 0.0;
      for i := 0 to |steps|
        invariant budget == EarnedBy(steps, started, i, last, now)
        invariant last == old(last) && pending == old(pending) && resolved == old(resolved)
      {
        var from := Max(last, started + steps[i].afterMs);
        var to := if i + 1 < |steps| then Min(now, started + steps[i + 1].afterMs) else now;
        budget := budget + Earn(Max(0.0, to - from), steps[i].bytesPerSecond);
      }
      last := now;
      SpendBudget(budget);
    }

    /** Repeats equal rounds until the budget or the queue is exhausted. */
    method SpendBudget(earned: real)
      requires AllAbove(pending, 0.0)
      modifies this`pending, this`resolved
      ensures pending == Spend(old(pending), earned, DONE_TOLERANCE)
      ensures resolved == old(resolved) + Resolved(old(pending), earned, DONE_TOLERANCE)
    {
      hide Spend, Resolved, Drain, Finished, Times, Bandwidth.Share;
      var budget := earned;
      while budget > 0.0 && |pending| > 0
        invariant AllAbove(pending, 0.0)
        invariant Spend(pending, budget, DONE_TOLERANCE) == Spend(old(pending), earned, DONE_TOLERANCE)
        invariant resolved + Resolved(pending, budget, DONE_TOLERANCE)
               == old(resolved) + Resolved(old(pending), earned, DONE_TOLERANCE)
        decreases |pending|, if budget > 0.0 then 1 else 0
      {
        OneRound(pending, budget, DONE_TOLERANCE);
        var share := Bandwidth.Share(pending, budget);
        DrainReduced(pending, share, DONE_TOLERANCE);
        var handedOut := share * |pending| as real;
        assert handedOut == Times(share, |pending|) by {
          TimesIsProduct(share, |pending|);
        }
        budget := budget - handedOut;
        TakeShare(share);
        ResolveFinished();
      }
      NoRound(pending, budget, DONE_TOLERANCE);
    }

    /** Queues a body of the given size, after accounting for those already pending. */
    method Transfer(bytes: real, now: real) returns (outcome: Result<Option<nat>, TransferError>)
      requires Valid()
      modifies this
      ensures Valid()
      ensures outcome.Err? <==> bytes < 0.0
      ensures State() == Admit(old(State()), now, bytes, DONE_TOLERANCE)
      ensures bytes <= 0.0 ==> resolved == old(resolved)
      ensures bytes == 0.0 ==> outcome == Ok(None)
      ensures bytes > 0.0 ==>
                && outcome == Ok(Some(old(nextId)))
                && resolved == old(resolved) + Resolved(old(pending), Earned(old(State()), now), DONE_TOLERANCE)
    {
      if bytes < 0.0 {
        return Err(InvalidSize);
      }
      if bytes == 0.0 {
        return Ok(None);
      }
      Advance(now);
      pending := pending + [Job(nextId, bytes)];
      outcome := Ok(Some(nextId));
      nextId := nextId + 1;
    }
  }
}
