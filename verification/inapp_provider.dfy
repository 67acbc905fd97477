/** The dashboard provider: one inbox row per delivery message. */
module InAppInbox {
  import opened Base
  import opened DeliveryRows

  datatype NotificationType =
    | ApprovalRequest | ApprovalResult | WorkflowEvent | AgentEvent | System | Briefing | Insight

  datatype Notification = Notification(
    org: OrgId, user: Option<UserId>, kind: NotificationType, title: string, body: string,
    actionUrl: Option<string>, deliveryId: DeliveryId)

  function ParseType(hint: string): Option<NotificationType>
  {
    match hint
    case "approval_request" => Some(ApprovalRequest)
    case "approval_result" => Some(ApprovalResult)
    case "workflow_event" => Some(WorkflowEvent)
    case "agent_event" => Some(AgentEvent)
    case "system" => Some(System)
    case "briefing" => Some(Briefing)
    case "insight" => Some(Insight)
    case _ => None
  }

  function TypeOf(m: Message): NotificationType
  {
    if m.approvalRequest.Some? then ApprovalRequest
    else if m.typeHint.None? then System
    else
      var parsed := ParseType(m.typeHint.value);
      if parsed.Some? then parsed.value else System
  }

  /** A type by its stored name. */
  function NameOf(kind: NotificationType): string
  {
    match kind
    case ApprovalRequest => "approval_request"
    case ApprovalResult => "approval_result"
    case WorkflowEvent => "workflow_event"
    case AgentEvent => "agent_event"
    case System => "system"
    case Briefing => "briefing"
    case Insight => "insight"
  }

  /** Parsing is the inverse of naming. */
  lemma ParsesNames(hint: string, kind: NotificationType)
    ensures ParseType(NameOf(kind)) == Some(kind)
    ensures ParseType(hint).Some? ==> hint == NameOf(ParseType(hint).value)
  {
  }

  /** An approval is shown as one whatever the hint says; any other message by its hint, if that names a type,
      and as a system message otherwise. */
  lemma TypeShown(m: Message, kind: NotificationType)
    ensures TypeOf(m) == ApprovalRequest <==> m.approvalRequest.Some? || m.typeHint == Some(NameOf(ApprovalRequest))
    ensures m.approvalRequest.None? && m.typeHint == Some(NameOf(kind)) ==> TypeOf(m) == kind
    ensures m.approvalRequest.None? && (forall k :: m.typeHint != Some(NameOf(k))) ==> TypeOf(m) == System
  {
    if m.approvalRequest.None? && m.typeHint.Some? { ParsesNames(m.typeHint.value, kind); }
  }

  /** The inbox row written for a delivery. */
  function Render(id: DeliveryId, r: Row): Notification
  {
    var m := r.message;
    Notification(r.org, m.recipient, TypeOf(m), m.subject, m.body, m.actionUrl, id)
  }

  /** The committed inbox rows that carry one delivery's id. */
  function Copies(inbox: seq<Notification>, id: DeliveryId): seq<Notification>
  {
    if inbox == [] then []
    else
      var front, last := inbox[..|inbox| - 1], inbox[|inbox| - 1];
      Copies(front, id) + (if last.deliveryId == id then [last] else [])
  }

  lemma CopiesAppend(inbox: seq<Notification>, n: Notification, id: DeliveryId)
    ensures Copies(inbox + [n], id) == Copies(inbox, id) + (if n.deliveryId == id then [n] else [])
  {
    assert (inbox + [n])[..|inbox|] == inbox;
  }

  /** They are just those, each as often as it is there. */
  lemma {:induction false} CopiesAreThose(inbox: seq<Notification>, id: DeliveryId, n: Notification)
    ensures multiset(Copies(inbox, id))[n] == if n.deliveryId == id then multiset(inbox)[n] else 0
    decreases inbox
  {
    if inbox != [] {
      var front, last := inbox[..|inbox| - 1], inbox[|inbox| - 1];
      assert inbox == front + [last];
      CopiesAreThose(front, id, n);
    }
  }

  /** The inbox table as one session sees it: committed rows, then rows only flushed so far. */
  class InAppProvider {
    var committed: seq<Notification>
    var flushed: seq<Notification>

    constructor ()
      ensures committed == [] && flushed == []
    {
      committed, flushed := [], [];
    }

    /** Inserts and flushes one inbox row; the returned metadata is the row's position. */
    method Deliver(id: DeliveryId, claimed: Row) returns (notification: nat)
      modifies this
      ensures committed == old(committed) && flushed == old(flushed) + [Render(id, claimed)]
      ensures notification == |committed| + |old(flushed)|
      ensures (committed + flushed)[notification] == Render(id, claimed)
    {
      var m := claimed.message;
      var kind := System;
      if m.approvalRequest.Some? {
        kind := ApprovalRequest;
      } else if m.typeHint.Some? {
        var parsed := ParseType(m.typeHint.value);
        if parsed.Some? { kind := parsed.value; }
      }
      notification := |committed| + |flushed|;
      flushed := flushed + [Notification(claimed.org, m.recipient, kind, m.subject, m.body, m.actionUrl, id)];
    }

    method Commit()
      modifies this
      ensures committed == old(committed + flushed) && flushed == []
    {
      committed, flushed := committed + flushed, [];
    }
  }
}
