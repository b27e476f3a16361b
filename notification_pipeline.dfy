/**
 * The notification intake pipeline (`NotificationService`): store a new
 * notification as `sent`; for the channels `email` and `sms` hand it to the
 * delivery queue and then mark it `pushed`.
 *
 * The `notifications` table is a map from identifier to row, the queue is the
 * sequence of messages it has accepted, and a ghost log records the store and
 * queue effects in the order they happen.
 */
module Notifications {
  import opened Wrappers
  import opened Configuration
  import opened Entities

  /** `NotificationResponseDto`: what is published and returned. */
  datatype NotificationResponse = NotificationResponse(
    id: Guid, template: string, channel: string, retryCount: int,
    recipient: string, payload: Json, requestedAt: Time)

  /** One externally visible effect of the pipeline. */
  datatype Effect =
    | Inserted(id: Guid)                         // notificationRepository.AddAsync
    | Published(id: Guid)                        // queueService.SendToQueueAsync
    | StatusUpdated(id: Guid, status: string)    // notificationRepository.UpdateStatusAsync

  /** What the pipeline throws. */
  datatype PipelineError =
    | NotificationNotFound(message: string)      // NotificationNotFoundException
    | QueuePublishFailed                         // any exception out of SendToQueueAsync

  const NotFoundMessage: string := "Notification not found."

  /** The channels that are queued for delivery; the comparison is exact (case-sensitive). */
  predicate IsQueuedChannel(channel: string) {
    channel == "sms" || channel == "email"
  }

  /** `UPDATE notifications SET status = @Status, delivered_at = @DeliveredAt WHERE id = @Id`. */
  function UpdateStatus(rows: map<Guid, Notification>, id: Guid, status: string, deliveredAt: Option<Time>): (r: map<Guid, Notification>)
    ensures r.Keys == rows.Keys
    ensures id in rows ==> r[id] == rows[id].(status := status, deliveredAt := deliveredAt)
    ensures forall g :: g in rows && g != id ==> r[g] == rows[g]
  {
    if id in rows then rows[id := rows[id].(status := status, deliveredAt := deliveredAt)] else rows
  }

  /** The response built from a stored notification and the caller's payload. */
  function ResponseFor(n: Notification, template: string, channel: string, recipient: string, payload: Json): NotificationResponse {
    NotificationResponse(n.id, template, channel, n.retryCount, recipient, payload, n.requestedAt)
  }

  /** The effect that must come before `e` for the same notification, if any. */
  function Prerequisite(e: Effect): Option<Effect> {
    match e
    case Inserted(_) => None
    case Published(id) => Some(Inserted(id))
    case StatusUpdated(id, _) => Some(Published(id))
  }

  /** Every status update follows a publish of that notification, and every publish follows its insertion. */
  ghost predicate EffectsOrdered(log: seq<Effect>) {
    forall j :: 0 <= j < |log| && Prerequisite(log[j]).Some? ==>
      exists i :: 0 <= i < j && log[i] == Prerequisite(log[j]).value
  }

  /** Appending an effect whose prerequisite already happened keeps the log ordered. */
  lemma AppendKeepsOrder(log: seq<Effect>, e: Effect)
    requires EffectsOrdered(log)
    requires Prerequisite(e).Some? ==> Prerequisite(e).value in log
    ensures EffectsOrdered(log + [e])
  {
    var log' := log + [e];
    forall j | 0 <= j < |log'| && Prerequisite(log'[j]).Some?
      ensures exists i :: 0 <= i < j && log'[i] == Prerequisite(log'[j]).value
    {
      if j < |log| {
        var i :| 0 <= i < j && log[i] == Prerequisite(log[j]).value;
        assert log'[i] == log[i];
      } else {
        var i :| 0 <= i < |log| && log[i] == Prerequisite(e).value;
        assert log'[i] == log[i];
      }
    }
  }

  /**
   * Rows are stored under their own non-empty identifier with status `sent`
   * or `pushed`, and a `pushed` row is an `email`/`sms` notification whose
   * message is in the queue.
   */
  ghost predicate RowsConsistent(rows: map<Guid, Notification>, queue: seq<NotificationResponse>) {
    && (forall id :: id in rows ==>
          && rows[id].id == id && id != EmptyGuid
          && (rows[id].status == StatusSent || rows[id].status == StatusPushed))
    && (forall id :: id in rows && rows[id].status == StatusPushed ==>
          && rows[id].channel.Some? && IsQueuedChannel(rows[id].channel.value)
          && exists k :: 0 <= k < |queue| && queue[k].id == id)
  }

  /** Storing a new `sent` row under a fresh identifier keeps the rows consistent. */
  lemma InsertKeepsConsistent(rows: map<Guid, Notification>, queue: seq<NotificationResponse>, n: Notification)
    requires RowsConsistent(rows, queue)
    requires n.id != EmptyGuid && n.id !in rows && n.status == StatusSent
    ensures RowsConsistent(rows[n.id := n], queue)
  {
  }

  /**
   * Queueing the message of a stored `email`/`sms` row and then marking it
   * `pushed` keeps the rows consistent.
   */
  lemma PushKeepsConsistent(rows: map<Guid, Notification>, queue: seq<NotificationResponse>, message: NotificationResponse)
    requires RowsConsistent(rows, queue)
    requires message.id in rows && rows[message.id].channel.Some? && IsQueuedChannel(rows[message.id].channel.value)
    ensures RowsConsistent(UpdateStatus(rows, message.id, StatusPushed, None), queue + [message])
  {
    var rows' := UpdateStatus(rows, message.id, StatusPushed, None);
    var queue' := queue + [message];
    forall g | g in rows' && rows'[g].status == StatusPushed
      ensures exists k :: 0 <= k < |queue'| && queue'[k].id == g
    {
      if g == message.id {
        assert queue'[|queue|].id == g;
      } else {
        var k :| 0 <= k < |queue| && queue[k].id == g;
        assert queue'[k] == queue[k];
      }
    }
  }

  /** `NotificationService` over the notifications table and the delivery queue. */
  class NotificationPipeline {
    var notifications: map<Guid, Notification>
    var queue: seq<NotificationResponse>
    ghost var effects: seq<Effect>

    /** The stored rows are consistent with the queue, and the effect log is ordered. */
    ghost predicate Valid()
      reads this
    {
      RowsConsistent(notifications, queue) && EffectsOrdered(effects)
    }

    constructor ()
      ensures Valid()
      ensures notifications == map[] && queue == [] && effects == []
    {
      notifications := map[];
      queue := [];
      effects := [];
    }

    /** `GetByIdAsync`: the stored row, or `NotificationNotFoundException`. */
    function GetById(id: Guid): (r: Result<Notification, PipelineError>)
      reads this
      ensures r.Ok? <==> id in notifications
      ensures r.Ok? ==> r.value == notifications[id]
      ensures r.Err? ==> r.error == NotificationNotFound(NotFoundMessage)
    {
      if id in notifications then Ok(notifications[id]) else Err(NotificationNotFound(NotFoundMessage))
    }

    /** `queueService.SendToQueueAsync(message)`: the queue either accepts the message or throws. */
    method Publish(message: NotificationResponse) returns (accepted: bool)
      modifies this`queue, this`effects
      ensures accepted ==> queue == old(queue) + [message] && effects == old(effects) + [Published(message.id)]
      ensures !accepted ==> queue == old(queue) && effects == old(effects)
    {
      accepted :| true;
      if accepted {
        queue := queue + [message];
        effects := effects + [Published(message.id)];
      }
    }

    /**
     * `ProcessNotificationAsync(template, channel, recipient, payload)` at time
     * `now`. `id` is the identifier the new notification received.
     */
    method ProcessNotification(template: string, channel: string, recipient: string, payload: Json, now: Time)
      returns (r: Result<Option<NotificationResponse>, PipelineError>, ghost id: Guid)
      requires Valid()
      modifies this
      ensures Valid()
      ensures id != EmptyGuid && id !in old(notifications)
      ensures var n := NewNotification(id, template, channel, recipient, Some(payload), now);
              var response := ResponseFor(n, template, channel, recipient, payload);
              && (!IsQueuedChannel(channel) ==>
                    && r == Ok(None)
                    && notifications == old(notifications)[id := n]
                    && queue == old(queue)
                    && effects == old(effects) + [Inserted(id)])
              && (IsQueuedChannel(channel) && r.Ok? ==>
                    && r == Ok(Some(response))
                    && notifications == old(notifications)[id := n.(status := StatusPushed, deliveredAt := None)]
                    && queue == old(queue) + [response]
                    && effects == old(effects) + [Inserted(id), Published(id), StatusUpdated(id, StatusPushed)])
              && (r.Err? ==>
                    && IsQueuedChannel(channel)
                    && r == Err(QueuePublishFailed)
                    && notifications == old(notifications)[id := n]
                    && queue == old(queue)
                    && effects == old(effects) + [Inserted(id)])
    {
      var newId := NewGuid(notifications.Keys);
      id := newId;
      var notification := NewNotification(newId, template, channel, recipient, Some(payload), now);
      InsertKeepsConsistent(notifications, queue, notification);
      notifications := notifications[newId := notification];
      AppendKeepsOrder(effects, Inserted(newId));
      effects := effects + [Inserted(newId)];
      if IsQueuedChannel(channel) {
        var response := ResponseFor(notification, template, channel, recipient, payload);
        ghost var before := effects;
        ghost var queueBefore := queue;
        assert before[|before| - 1] == Inserted(newId);
        AppendKeepsOrder(before, Published(newId));
        var accepted := Publish(response);
        if !accepted {
          return Err(QueuePublishFailed), id;
        }
        PushKeepsConsistent(notifications, queueBefore, response);
        notifications := UpdateStatus(notifications, newId, StatusPushed, None);
        assert effects[|effects| - 1] == Published(newId);
        AppendKeepsOrder(effects, StatusUpdated(newId, StatusPushed));
        effects := effects + [StatusUpdated(newId, StatusPushed)];
        r := Ok(Some(response));
      } else {
        r := Ok(None);
      }
    }
  }

  /**
   * After intake the record can be read back: `sent` for any channel other than
   * exactly `email` or `sms` (with no queue message), `pushed` with no delivery
   * time once the queue accepted it, and still `sent` if the queue threw.
   */
  method IntakeThenRead(p: NotificationPipeline, template: string, channel: string, recipient: string, payload: Json, now: Time)
    returns (r: Result<Option<NotificationResponse>, PipelineError>, ghost id: Guid)
    requires p.Valid()
    modifies p
    ensures p.Valid()
    ensures var stored := p.GetById(id);
            && stored.Ok? && stored.value.template == Some(template) && stored.value.channel == Some(channel)
            && stored.value.recipient == Some(recipient) && stored.value.payload == Some(payload)
            && stored.value.retryCount == 0 && stored.value.requestedAt == now && stored.value.deliveredAt.None?
            && stored.value.status == (if IsQueuedChannel(channel) && r.Ok? then StatusPushed else StatusSent)
    ensures |p.queue| == |old(p.queue)| + (if IsQueuedChannel(channel) && r.Ok? then 1 else 0)
    ensures r.Ok? && r.value.Some? ==> r.value.value.id == id && r.value.value.payload == payload
    ensures !IsQueuedChannel(channel) ==> r == Ok(None)
  {
    r, id := p.ProcessNotification(template, channel, recipient, payload, now);
  }
}
