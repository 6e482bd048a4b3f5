/** The confirmation view that /news attaches to its panel: three buttons
    (confirm, edit, cancel) and a timeout. Every button handler first checks
    that the person who pressed it is one of the administrators; anyone else
    gets a private error and nothing about the view changes. Any administrator
    may press any button, not only the one who ran /news.

    The view keeps the flags the source keeps: `confirmed` (written when a
    broadcast is confirmed and never read), one `disabled` flag per button,
    whether the view has been stopped, and whether it is still attached to the
    message. `panel` is the panel the view last put on the message. */
module ConfirmView {
  import opened Messages
  import opened Delivery

  /** The view's buttons: confirm, edit and cancel. */
  const ButtonCount: nat := 3

  /** The private replies to a button pressed by someone who is not an administrator. */
  const ConfirmDenied: string := "Только администратор может подтвердить рассылку"
  const EditDenied: string := "Только администратор может редактировать"
  const CancelDenied: string := "Только администратор может отменить"

  /** The answer to a button press: a private error, or the handler ran. */
  datatype Reply = Denied(text: string) | Accepted

  /** The panels the view puts on the message. */
  datatype Panel =
    | AwaitingConfirmation          // the confirmation panel /news sent
    | Started(recipients: nat)      // "sending has started", progress 0 of all
    | Finished(success: nat, failed: nat, total: nat)
    | EditPrompt                    // "edit the message and run /news again"
    | Cancelled
    | Expired                       // the confirmation timed out

  class BroadcastView {
    const admins: seq<int>
    const members: seq<Member>
    const data: MessageData
    const invite: string

    var confirmed: bool
    var disabled: seq<bool>
    var stopped: bool
    var attached: bool
    var panel: Panel

    ghost predicate Valid()
      reads this
    {
      |disabled| == ButtonCount
    }

    predicate AllDisabled()
      reads this
    {
      forall i :: 0 <= i < |disabled| ==> disabled[i]
    }

    /** A fresh view: nothing confirmed, every button enabled, running and
        attached to the confirmation panel. */
    constructor (admins: seq<int>, members: seq<Member>, data: MessageData, invite: string)
      ensures Valid()
      ensures this.admins == admins && this.members == members && this.data == data && this.invite == invite
      ensures !confirmed && !stopped && attached && panel == AwaitingConfirmation
      ensures forall i :: 0 <= i < |disabled| ==> !disabled[i]
    {
      this.admins, this.members, this.data, this.invite := admins, members, data, invite;
      confirmed, stopped, attached := false, false, true;
      disabled := [false, false, false];
      panel := AwaitingConfirmation;
    }

    /** Disable every button, leaving everything else as it was. */
    method DisableAllItems()
      modifies this`disabled
      ensures |disabled| == |old(disabled)| && AllDisabled()
    {
      for i := 0 to |disabled|
        invariant |disabled| == |old(disabled)|
        invariant forall k :: 0 <= k < i ==> disabled[k]
      {
        disabled := disabled[i := true];
      }
    }

    /** The confirm button. An administrator's press records the confirmation,
        disables every button before the first send, shows the start panel and
        runs the broadcast; anyone else's press changes nothing. */
    method Confirm(user: int, outcomes: seq<SendOutcome>, stats: StatsCell, now: nat)
      returns (reply: Reply, sent: seq<Letter>, pushes: seq<Progress>)
      requires Valid() && |outcomes| == |members|
      modifies this, stats
      ensures Valid()
      ensures user !in admins ==>
                && reply == Denied(ConfirmDenied) && sent == [] && pushes == []
                && unchanged(this) && unchanged(stats)
      ensures user in admins ==>
                && reply == Accepted && confirmed && AllDisabled() && attached == old(attached)
                && Broadcasted(outcomes, stats, now, sent, pushes)
                && (members == [] ==> panel == Started(0) && stopped == old(stopped))
    {
      if user !in admins {
        return Denied(ConfirmDenied), [], [];
      }
      confirmed := true;
      DisableAllItems();
      panel := Started(|members|);
      sent, pushes := DoBroadcast(outcomes, stats, now);
      reply := Accepted;
    }

    /** What a completed broadcast leaves behind: every member sent the composed
        message in order, progress pushed at the push points, the statistics
        cell holding the final counters, and, when there was at least one
        member, the final panel shown and the view stopped. */
    ghost predicate Broadcasted(outcomes: seq<SendOutcome>, stats: StatsCell, now: nat,
                                sent: seq<Letter>, pushes: seq<Progress>)
      requires |outcomes| == |members|
      reads this, stats
    {
      && |sent| == |members|
      && (forall i :: 0 <= i < |members| ==> sent[i] == Letter(members[i], Compose(data, invite)))
      && pushes == PushLog(outcomes, |members|)
      && stats.Summarize() == Last(Successes(outcomes), Failures(outcomes), |members|, now)
      && (members != [] ==> panel == Finished(Successes(outcomes), Failures(outcomes), |members|) && stopped)
    }

    /** The broadcast itself, run only from a confirmation that has already
        disabled every button, so every send happens with the buttons disabled
        and they stay so. The progress updates the loop pushes are
        returned as a log; the final panel replaces the last of them. After the
        loop the statistics cell is overwritten with the final counters. The
        final panel then shows the success rate, which divides by the number of
        members: with no member that division raises, so the panel is not
        replaced and the view is not stopped. */
    method DoBroadcast(outcomes: seq<SendOutcome>, stats: StatsCell, now: nat)
      returns (sent: seq<Letter>, pushes: seq<Progress>)
      requires |outcomes| == |members|
      requires Valid() && confirmed && AllDisabled()
      modifies this`panel, this`stopped, stats
      ensures Valid() && confirmed && AllDisabled()
      ensures Broadcasted(outcomes, stats, now, sent, pushes)
      ensures members == [] ==> panel == old(panel) && stopped == old(stopped)
    {
      var success, failed;
      success, failed, sent, pushes := DeliverAll(members, data, invite, outcomes);
      stats.Overwrite(success, failed, |members|, now);
      if |members| > 0 {
        panel := Finished(success, failed, |members|);
        stopped := true;
      }
    }

    /** The edit button. An administrator's press replaces the panel with the
        edit prompt, detaches the view from the message and stops it; the
        buttons' own flags and `confirmed` are left as they were. Anyone
        else's press changes nothing. */
    method Edit(user: int) returns (reply: Reply)
      requires Valid()
      modifies this
      ensures Valid()
      ensures user !in admins ==> reply == Denied(EditDenied) && unchanged(this)
      ensures user in admins ==>
                && reply == Accepted && panel == EditPrompt && !attached && stopped
                && confirmed == old(confirmed) && disabled == old(disabled)
    {
      if user !in admins {
        return Denied(EditDenied);
      }
      panel := EditPrompt;
      attached := false;
      stopped := true;
      reply := Accepted;
    }

    /** The cancel button. An administrator's press disables every button,
        shows the cancellation panel and stops the view. Anyone else's press
        changes nothing. */
    method Cancel(user: int) returns (reply: Reply)
      requires Valid()
      modifies this
      ensures Valid()
      ensures user !in admins ==> reply == Denied(CancelDenied) && unchanged(this)
      ensures user in admins ==>
                && reply == Accepted && AllDisabled() && panel == Cancelled && stopped
                && confirmed == old(confirmed) && attached == old(attached)
    {
      if user !in admins {
        return Denied(CancelDenied);
      }
      DisableAllItems();
      panel := Cancelled;
      stopped := true;
      reply := Accepted;
    }

    /** The timeout handler. It disables every button and tries to show the
        timeout panel; when the message can no longer be edited the failure is
        ignored and the panel stays as it was. */
    method OnTimeout(messageReachable: bool)
      requires Valid()
      modifies this`disabled, this`panel
      ensures Valid() && AllDisabled()
      ensures panel == if messageReachable then Expired else old(panel)
    {
      DisableAllItems();
      if messageReachable {
        panel := Expired;
      }
    }
  }
}
