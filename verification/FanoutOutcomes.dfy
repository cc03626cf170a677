/** What one handling of a pending message does, case by case, in terms of the tables, the
    bulk topic and the clock. `worlds` are the answers up to the end or the cut. */
module FanoutOutcomes {
  import opened Options
  import opened Keys
  import opened Fanout
  import Delivery

  datatype Rows = Rows(mailings: map<string, Mailing>, triggers: map<Ref, Trigger>, bulk: seq<Delivery.Message>,
                       now: nat)

  /** The messages of the first `n` users were published, in order, and nothing else. */
  predicate MailingSpread(bulk: seq<Delivery.Message>, bulk': seq<Delivery.Message>, id: string, templateId: string,
                          payload: string, channel: string, users: seq<string>, n: nat)
  {
    && n <= |users| && |bulk'| == |bulk| + n && bulk <= bulk'
    && forall i | 0 <= i < n ::
        bulk'[|bulk| + i] == Delivery.Message(users[i], templateId, payload, channel, ForMailing(id, users[i]), None)
  }

  /** The same for a trigger; `stamp` is the update that the handler read. */
  predicate TriggerSpread(bulk: seq<Delivery.Message>, bulk': seq<Delivery.Message>, id: string, stamp: nat,
                          templateId: string, payload: string, channel: string, users: seq<string>, n: nat)
  {
    && n <= |users| && |bulk'| == |bulk| + n && bulk <= bulk'
    && forall i | 0 <= i < n ::
        bulk'[|bulk| + i] ==
        Delivery.Message(users[i], templateId, payload, channel, ForTrigger(id, stamp, users[i]), None)
  }

  function Fewer(a: int, b: nat): nat {
    if a < 0 then 0 else if a < b then a else b
  }

  /** Only the status of this mailing changed, if it has a row. */
  predicate OnlyFailed(before: Rows, after: Rows, id: string) {
    after == before.(mailings := if id in before.mailings
                                 then before.mailings[id := before.mailings[id].(status := Failed)]
                                 else before.mailings)
  }

  /** The mailing counts as sent from now on. */
  predicate MailingMarked(before: Rows, after: Rows, id: string) {
    && after.triggers == before.triggers && after.now == before.now + 1
    && after.mailings == if id in before.mailings
                         then before.mailings[id := before.mailings[id].(status := Sent, sentAt := Some(before.now))]
                         else before.mailings
  }

  predicate TriggerMarked(before: Rows, after: Rows, ref: Ref)
    requires ref in before.triggers
  {
    && after.mailings == before.mailings && after.now == before.now + 1
    && after.triggers == before.triggers[ref := before.triggers[ref].(lastSent := Some(before.now))]
  }

  predicate Unmarked(before: Rows, after: Rows) {
    after.mailings == before.mailings && after.triggers == before.triggers && after.now == before.now
  }

  /** A mailing: without template it fails for good, without audience it fails and is retried;
      otherwise everyone gets a message and then the mailing is marked. */
  predicate MailingHandled(id: string, templateId: string, payload: string, worlds: seq<World>, before: Rows,
                           after: Rows, acked: bool)
  {
    if worlds == [] then after == before && !acked
    else if worlds[0].channel.None? then OnlyFailed(before, after, id) && acked
    else if |worlds| == 1 then after == before && !acked
    else if worlds[1].audience.None? then OnlyFailed(before, after, id) && !acked
    else
      var users := worlds[1].audience.value;
      && MailingSpread(before.bulk, after.bulk, id, templateId, payload, worlds[0].channel.value, users,
                       Fewer(|worlds| - 2, |users|))
      && (if |worlds| - 2 > |users| then MailingMarked(before, after, id) && acked
          else Unmarked(before, after) && !acked)
  }

  /** A trigger: unknown, inactive or without template it is dropped, without audience retried. */
  predicate TriggerHandled(ref: Ref, templateId: string, payload: string, worlds: seq<World>, before: Rows,
                           after: Rows, acked: bool)
  {
    if worlds == [] then after == before && !acked
    else if ref !in before.triggers || !before.triggers[ref].active then after == before && acked
    else if |worlds| == 1 then after == before && !acked
    else if worlds[1].channel.None? then after == before && acked
    else if |worlds| == 2 || worlds[2].audience.None? then after == before && !acked
    else
      var users := worlds[2].audience.value;
      && TriggerSpread(before.bulk, after.bulk, before.triggers[ref].id, before.triggers[ref].lastUpdate, templateId,
                       payload, worlds[1].channel.value, users, Fewer(|worlds| - 3, |users|))
      && (if |worlds| - 3 > |users| then TriggerMarked(before, after, ref) && acked
          else Unmarked(before, after) && !acked)
  }

  /** What a handling of the message leaves behind. */
  predicate PendingHandled(head: Pending, worlds: seq<World>, before: Rows, after: Rows, acked: bool) {
    match head
    case Garbage => after == before && (acked <==> worlds != [])
    case MailingMessage(id, templateId, _, payload) =>
      MailingHandled(id, templateId, payload, worlds, before, after, acked)
    case TriggerMessage(ref, templateId, payload) =>
      TriggerHandled(ref, templateId, payload, worlds, before, after, acked)
  }

  /** The offset of this partition alone moves, by one, and only on an acknowledgement. */
  predicate OffsetMoved(topic: map<string, Partition>, topic': map<string, Partition>, p: string, acked: bool)
    requires p in topic
  {
    topic' == if acked then topic[p := topic[p].(committed := topic[p].committed + 1)] else topic
  }

  // ---------- The publishing loop ----------

  /** The bulk messages of the first `n` users for a job. */
  predicate Appends(bulk: seq<Delivery.Message>, bulk': seq<Delivery.Message>, job: Job, head: Pending, channel: string,
                    users: seq<string>, n: nat)
    requires !head.Garbage?
  {
    && n <= |users| && |bulk'| == |bulk| + n && bulk <= bulk'
    && forall i | 0 <= i < n :: bulk'[|bulk| + i] == BulkMessage(job, head, channel, users[i])
  }

  /** The job was spread over the users as far as the answers go, and marked if they suffice. */
  predicate JobSpread(job: Job, head: Pending, channel: string, users: seq<string>, answers: nat, before: Rows,
                      after: Rows)
    requires !head.Garbage? && (job.TriggerJob? ==> job.ref in before.triggers)
  {
    && Appends(before.bulk, after.bulk, job, head, channel, users, Fewer(answers, |users|))
    && (if answers <= |users| then Unmarked(before, after)
        else if job.MailingJob? then MailingMarked(before, after, job.id)
        else TriggerMarked(before, after, job.ref))
  }

  /** The job's audience was resolved, if the answers go so far, and the job spread over it. */
  predicate Resolved(job: Job, head: Pending, channel: string, answers: seq<World>, before: Rows, after: Rows,
                     done: bool)
    requires !head.Garbage? && (job.TriggerJob? ==> job.ref in before.triggers)
  {
    if answers == [] then after == before && !done
    else if answers[0].audience.None? then
      !done && if job.MailingJob? then OnlyFailed(before, after, job.id) else after == before
    else
      var users := answers[0].audience.value;
      JobSpread(job, head, channel, users, |answers| - 1, before, after) && (done <==> |answers| - 1 > |users|)
  }

  lemma MailingResolved(head: Pending, worlds: seq<World>, before: Rows, after: Rows, done: bool)
    requires head.MailingMessage? && |worlds| >= 1 && worlds[0].channel.Some?
    requires Resolved(MailingJob(head.id), head, worlds[0].channel.value, worlds[1..], before, after, done)
    ensures PendingHandled(head, worlds, before, after, done)
  {
  }

  lemma TriggerResolved(head: Pending, worlds: seq<World>, before: Rows, after: Rows, done: bool)
    requires head.TriggerMessage? && head.ref in before.triggers && before.triggers[head.ref].active
    requires |worlds| >= 2 && worlds[1].channel.Some?
    requires var t := before.triggers[head.ref];
             Resolved(TriggerJob(head.ref, t.id, t.lastUpdate), head, worlds[1].channel.value, worlds[2..], before,
                      after, done)
    ensures PendingHandled(head, worlds, before, after, done)
  {
  }

  /** Handlings that end or are cut before the audience is asked for. */
  lemma EndsEarly(head: Pending, worlds: seq<World>, before: Rows, after: Rows, done: bool)
    requires match head
             case Garbage => false
             case MailingMessage(id, _, _, _) =>
               worlds != [] && worlds[0].channel.None? && OnlyFailed(before, after, id) && done
             case TriggerMessage(ref, _, _) =>
               && after == before && worlds != []
               && if ref !in before.triggers || !before.triggers[ref].active then done
                  else if |worlds| == 1 then !done else worlds[1].channel.None? && done
    ensures PendingHandled(head, worlds, before, after, done)
  {
  }
}
