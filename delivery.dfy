/** The delivery loop of a confirmed broadcast and the process-wide cell that
    keeps the statistics of the last one.

    Each direct message is sent to one member after the other, in the order of
    the recipient list. A send is abstracted as its outcome: delivered, refused
    because the member's direct messages are closed (Forbidden), or any other
    error. Neither kind of failure stops the loop. After every fifth member, and
    after the last one, the loop asks for the progress panel to be updated; that
    request may fail, and the failure is ignored, so the loop's counters never
    depend on it. The pause between sends is a scheduler concern and is not part
    of the model. */
module Delivery {
  import opened Messages

  /** What one send to one member came to. */
  datatype SendOutcome = Delivered | Forbidden | OtherError(reason: string)

  /** A progress update: how many members have been handled, and how many of
      those got the message and how many did not. */
  datatype Progress = Progress(done: nat, success: nat, failed: nat)

  /** A direct message and the member it is addressed to. */
  datatype Letter = Letter(to: Member, message: Outgoing)

  /** The progress panel is refreshed every this many members. */
  const PushEvery: nat := 5

  /** Members whose message was delivered, among the outcomes so far. */
  function Successes(outcomes: seq<SendOutcome>): nat
  {
    if outcomes == [] then 0
    else Successes(outcomes[..|outcomes| - 1]) + (if outcomes[|outcomes| - 1].Delivered? then 1 else 0)
  }

  /** Members whose send raised, Forbidden or otherwise, among the outcomes so far. */
  function Failures(outcomes: seq<SendOutcome>): nat
  {
    if outcomes == [] then 0
    else Failures(outcomes[..|outcomes| - 1]) + (if outcomes[|outcomes| - 1].Delivered? then 0 else 1)
  }

  /** Whether the loop pushes a progress update once `done` members out of
      `total` have been handled. */
  predicate PushesAt(done: nat, total: nat)
  {
    done % PushEvery == 0 || done == total
  }

  /** The progress updates pushed while handling the given outcomes, in order,
      each reporting the counters as they stood at that moment. */
  function PushLog(outcomes: seq<SendOutcome>, total: nat): seq<Progress>
  {
    if outcomes == [] then []
    else
      var n := |outcomes|;
      PushLog(outcomes[..n - 1], total) +
      (if PushesAt(n, total) then [Progress(n, Successes(outcomes), Failures(outcomes))] else [])
  }

  /** The member counts at which updates were pushed. */
  function Dones(log: seq<Progress>): (r: seq<nat>)
    ensures |r| == |log|
  {
    if log == [] then [] else Dones(log[..|log| - 1]) + [log[|log| - 1].done]
  }

  /** The counts at which a run over `total` members pushes progress, written
      out directly: every multiple of five up to `total`, then `total` itself
      when it is not one. */
  function PushPoints(total: nat): seq<nat>
  {
    seq(total / PushEvery, j => PushEvery * (j + 1)) + (if total % PushEvery == 0 then [] else [total])
  }

  /** Every member is counted exactly once, as a success or as a failure. */
  lemma {:induction false} TallyTotal(outcomes: seq<SendOutcome>)
    ensures Successes(outcomes) + Failures(outcomes) == |outcomes|
  {
    if outcomes != [] {
      TallyTotal(outcomes[..|outcomes| - 1]);
    }
  }

  /** The success counter is the number of Delivered outcomes, whatever their
      order; so the failure counter is the number of the others, Forbidden and
      any other error alike. */
  lemma {:induction false} TallyCountsOutcomes(outcomes: seq<SendOutcome>)
    ensures Successes(outcomes) == multiset(outcomes)[Delivered]
    ensures Failures(outcomes) == |outcomes| - multiset(outcomes)[Delivered]
  {
    if outcomes != [] {
      var n := |outcomes|;
      TallyCountsOutcomes(outcomes[..n - 1]);
      assert outcomes == outcomes[..n - 1] + [outcomes[n - 1]];
      assert multiset(outcomes) == multiset(outcomes[..n - 1]) + multiset{outcomes[n - 1]};
    }
  }

  /** A Forbidden send or any other error adds one failure and no success. */
  lemma {:induction false} FailureCountsOnlyFailed(outcomes: seq<SendOutcome>, last: SendOutcome)
    requires !last.Delivered?
    ensures Successes(outcomes + [last]) == Successes(outcomes)
    ensures Failures(outcomes + [last]) == Failures(outcomes) + 1
  {
    assert (outcomes + [last])[..|outcomes|] == outcomes;
  }

  /** Every pushed update reports the counters as they stood after the first
      `done` members: a count that is a push point, and success and failure
      figures that add up to it. */
  lemma {:induction false} PushLogReportsTally(outcomes: seq<SendOutcome>, total: nat)
    ensures forall j :: 0 <= j < |PushLog(outcomes, total)| ==>
              var p := PushLog(outcomes, total)[j];
              && 1 <= p.done <= |outcomes|
              && PushesAt(p.done, total)
              && p.success == Successes(outcomes[..p.done])
              && p.failed == Failures(outcomes[..p.done])
              && p.success + p.failed == p.done
  {
    if outcomes != [] {
      var n := |outcomes|;
      var prefix := outcomes[..n - 1];
      PushLogReportsTally(prefix, total);
      TallyTotal(outcomes);
      assert outcomes[..n] == outcomes;
      forall d | 0 <= d <= n - 1
        ensures prefix[..d] == outcomes[..d]
      {
      }
    }
  }

  /** Before the last member, the pushes are exactly at the multiples of five so far. */
  lemma {:induction false} PushLogDones(outcomes: seq<SendOutcome>, total: nat)
    requires |outcomes| <= total
    ensures Dones(PushLog(outcomes, total)) ==
              seq(|outcomes| / PushEvery, j => PushEvery * (j + 1)) +
              (if |outcomes| == total && total % PushEvery != 0 then [total] else [])
  {
    if outcomes != [] {
      var n := |outcomes|;
      var prefix := outcomes[..n - 1];
      PushLogDones(prefix, total);
      var log := PushLog(outcomes, total);
      if PushesAt(n, total) {
        assert log[..|log| - 1] == PushLog(prefix, total);
        assert Dones(log) == Dones(PushLog(prefix, total)) + [n];
      } else {
        assert log == PushLog(prefix, total);
      }
    }
  }

  /** A whole run over `total` members pushes exactly at the push points: at
      5, 10, ... and at `total`, which is ceil(total / 5) updates in all. */
  lemma PushLogAtPushPoints(outcomes: seq<SendOutcome>)
    ensures Dones(PushLog(outcomes, |outcomes|)) == PushPoints(|outcomes|)
    ensures |PushLog(outcomes, |outcomes|)| == (|outcomes| + PushEvery - 1) / PushEvery
  {
    PushLogDones(outcomes, |outcomes|);
  }

  /** The loop of a confirmed broadcast: send the composed message to every
      member in order, count each outcome, and push progress at the push
      points. It returns the final counters, the letters sent and the progress
      updates pushed. */
  method DeliverAll(members: seq<Member>, data: MessageData, invite: string, outcomes: seq<SendOutcome>)
    returns (success: nat, failed: nat, sent: seq<Letter>, pushes: seq<Progress>)
    requires |outcomes| == |members|
    ensures success == Successes(outcomes) && failed == Failures(outcomes)
    ensures success + failed == |members|
    ensures pushes == PushLog(outcomes, |members|)
    ensures |sent| == |members|
    ensures forall i :: 0 <= i < |members| ==> sent[i] == Letter(members[i], Compose(data, invite))
  {
    var total := |members|;
    success, failed, sent, pushes := 0, 0, [], [];
    for i := 0 to total
      invariant success == Successes(outcomes[..i]) && failed == Failures(outcomes[..i])
      invariant pushes == PushLog(outcomes[..i], total)
      invariant |sent| == i
      invariant forall k :: 0 <= k < i ==> sent[k] == Letter(members[k], Compose(data, invite))
    {
      var message := Compose(data, invite);
      sent := sent + [Letter(members[i], message)];
      match outcomes[i] {
        case Delivered =>
          success := success + 1;
        case Forbidden =>
          failed := failed + 1;
        case OtherError(_) =>
          failed := failed + 1;
      }
      assert outcomes[..i + 1][..i] == outcomes[..i];
      if (i + 1) % PushEvery == 0 || i == total - 1 {
        pushes := pushes + [Progress(i + 1, success, failed)];
      }
    }
    assert outcomes[..total] == outcomes;
    TallyTotal(outcomes);
  }

  /** The statistics of a finished broadcast as /info shows them. */
  datatype Summary = NoBroadcastsYet | Last(success: nat, failed: nat, total: nat, at: nat)

  /** The process-wide record of the last finished broadcast. It starts empty,
      is overwritten once at the end of each broadcast, and is only read
      elsewhere. Timestamps are given by the caller. */
  class StatsCell {
    var success: nat
    var failed: nat
    var total: nat
    var timestamp: Option<nat>

    constructor ()
      ensures success == 0 && failed == 0 && total == 0 && timestamp == None
      ensures Summarize() == NoBroadcastsYet
    {
      success, failed, total, timestamp := 0, 0, 0, None;
    }

    /** Replace the record with the figures of a run that finished at `now`. */
    method Overwrite(s: nat, f: nat, t: nat, now: nat)
      modifies this
      ensures success == s && failed == f && total == t && timestamp == Some(now)
      ensures Summarize() == Last(s, f, t, now)
    {
      success, failed, total, timestamp := s, f, t, Some(now);
    }

    /** What /info reports: nothing until a broadcast has finished, then the
      figures of the last one. */
    function Summarize(): (r: Summary)
      reads this
      ensures r.NoBroadcastsYet? <==> timestamp.None?
      ensures r.Last? ==> r.success == success && r.failed == failed && r.total == total && Some(r.at) == timestamp
    {
      if timestamp.None? then NoBroadcastsYet else Last(success, failed, total, timestamp.value)
    }
  }
}
