/** What the SMS protocol leaves in the tables, told row by row without the functions that compute the rows. */
module SmsOutcomes {
  import opened Basics
  import opened SmsModel
  import opened SmsDelivery

  /** A row that holds a received SMS: the conversation is its recipient and sender, an empty id is no id. */
  predicate Holds(row: Row, sms: Sms) {
    && row.received && row.body == sms.body
    && row.thread.provider == sms.to && row.thread.phone == sms.from
    && (if sms.id == "" then row.providerId.None? else row.providerId.Some? && row.providerId.value == sms.id)
  }

  ghost predicate Kept(messages: seq<Row>, sms: Sms) {
    exists i :: 0 <= i < |messages| && Holds(messages[i], sms)
  }

  lemma StoredIsKept(messages: seq<Row>, sms: Sms)
    ensures Stored(messages, sms) <==> Kept(messages, sms)
  {
    forall row: Row
      ensures AsInserted(row) == RowOf(sms) <==> Holds(row, sms)
    {
      RowHolds(row, sms);
    }
  }

  lemma RowHolds(row: Row, sms: Sms)
    ensures AsInserted(row) == RowOf(sms) <==> Holds(row, sms)
  {
  }

  /** In every run a received SMS is in the gateway's buffer or in a row of its own numbers, text and id. */
  lemma {:induction false} ReceivedSmsKept(events: seq<Event>, s: State, sms: Sms)
    requires Reaches(events, s) && sms in s.received
    ensures sms in s.buffer || Kept(s.messages, sms)
  {
    NoSmsLost(events, s, sms);
    StoredIsKept(s.messages, sms);
  }

  /** Acknowledged means kept. */
  lemma {:induction false} AckedSmsKept(events: seq<Event>, s: State, sms: Sms)
    requires Reaches(events, s) && sms in s.received && sms.id in s.acks
    ensures Kept(s.messages, sms)
  {
    ReachableInv(events, s);
    AckOnlyAfterStoring(events, s, sms.id);
    StoredIsKept(s.messages, sms);
  }

  // ---------------------------------------------------------------- the gateway's buffer over a run

  /** The gateway was given this SMS at event i, and no acknowledgement of its id has arrived since. */
  ghost predicate UnackedSince(events: seq<Event>, sms: Sms, i: int) {
    && 0 <= i < |events| && events[i] == GatewayReceives(sms)
    && forall j :: i < j < |events| ==> events[j] != AckArrives(sms.id)
  }

  lemma StepBuffer(s: State, e: Event)
    requires Possible(s, e)
    ensures forall sms :: sms in Apply(s, e).received <==> sms in s.received || e == GatewayReceives(sms)
    ensures forall sms :: sms in Apply(s, e).buffer <==>
                            e == GatewayReceives(sms) || (sms in s.buffer && e != AckArrives(sms.id))
  {
    if e.Run? { StatementKeepsLink(s, e.handler); }
  }

  /** What was received, and what of it is still buffered. */
  lemma {:induction false} BufferedExactly(events: seq<Event>, s: State, sms: Sms)
    requires Reaches(events, s)
    ensures sms in s.received <==> GatewayReceives(sms) in events
    ensures sms in s.buffer <==> exists i :: UnackedSince(events, sms, i)
  {
    if events != [] {
      var before, e := events[..|events| - 1], events[|events| - 1];
      var r :| Reaches(before, r) && Enabled(r, e) && s == Apply(r, e);
      BufferedExactly(before, r, sms);
      StepBuffer(r, e);
      assert events == before + [e];
      UnackedExtends(before, e, sms);
    }
  }

  lemma UnackedExtends(before: seq<Event>, e: Event, sms: Sms)
    ensures (exists i :: UnackedSince(before + [e], sms, i)) <==>
            e == GatewayReceives(sms) || ((exists i :: UnackedSince(before, sms, i)) && e != AckArrives(sms.id))
  {
    var all := before + [e];
    if e == GatewayReceives(sms) {
      assert UnackedSince(all, sms, |before|);
    } else {
      forall i ensures UnackedSince(all, sms, i) <==> UnackedSince(before, sms, i) && e != AckArrives(sms.id) {
        if UnackedSince(all, sms, i) {
          assert all[i] == before[i] && all[|before|] == e;
          forall j | i < j < |before| ensures before[j] != AckArrives(sms.id) {
            assert all[j] == before[j];
          }
        }
      }
    }
  }

  // ---------------------------------------------------------------- where every row comes from

  /** A row's conversation, text and direction stay; so does the id of an inbound row. */
  predicate SameText(a: Row, b: Row) {
    && a.thread == b.thread && a.body == b.body && a.received == b.received
    && (a.received ==> a.providerId == b.providerId)
  }

  /** The row a handler's job asks for. */
  ghost predicate Asked(job: Job, row: Row) {
    match job
    case Receive(sms) => Holds(row, sms)
    case Send(thread, body) => !row.received && row.thread == thread && row.body == body
    case Resend(_, _) => false
  }

  /** A step keeps every row's text and adds at most one row, which a handler was asked for. */
  ghost predicate RowsGrow(s: State, after: seq<Row>) {
    && |s.messages| <= |after| <= |s.messages| + 1
    && (forall i :: 0 <= i < |s.messages| ==> SameText(s.messages[i], after[i]))
    && (|after| > |s.messages| ==> exists h <- s.handlers :: Asked(s.handlers[h].job, after[|s.messages|]))
  }

  /** Only new messages insert a row. */
  ghost predicate NoResendInserts(s: State) {
    forall h <- s.handlers :: s.handlers[h].job.Resend? ==>
      s.handlers[h].stage.Requeue? || s.handlers[h].stage.AwaitProvider?
  }

  lemma RunGrows(s: State, h: int)
    requires Inv(s) && NoResendInserts(s) && h in s.handlers && Runnable(s, s.handlers[h].stage)
    ensures RowsGrow(s, RunNext(s, h).messages)
  {
    var r := RunNext(s, h);
    if s.handlers[h].stage.InsertRow? && |r.messages| > |s.messages| {
      assert Asked(s.handlers[h].job, r.messages[|s.messages|]);
    }
  }

  lemma StepRows(s: State, e: Event)
    requires Inv(s) && NoResendInserts(s) && Enabled(s, e)
    ensures RowsGrow(s, Apply(s, e).messages)
  {
    if e.Run? { RunGrows(s, e.handler); }
  }

  lemma StepInserts(s: State, e: Event)
    requires NoResendInserts(s) && Possible(s, e)
    ensures NoResendInserts(Apply(s, e))
  {
  }

  /** A step starts handlers only for its own event; the others keep their jobs. */
  lemma StepJobs(s: State, e: Event, h: int)
    requires Possible(s, e) && h in Apply(s, e).handlers
    ensures var job := Apply(s, e).handlers[h].job;
            (h in s.handlers && job == s.handlers[h].job) || (job.Send? ==> e == BeginSend(job.thread, job.body))
  {
  }

  ghost predicate Sourced(events: seq<Event>, s: State) {
    && (forall i :: 0 <= i < |s.messages| ==> RowSourced(events, s, s.messages[i]))
    && (forall h <- s.handlers ::
          s.handlers[h].job.Send? ==> BeginSend(s.handlers[h].job.thread, s.handlers[h].job.body) in events)
  }

  /** An inbound row holds an SMS the gateway received, a sent row is what a send asked for. */
  ghost predicate RowSourced(events: seq<Event>, s: State, row: Row) {
    if row.received then exists sms <- s.received :: Holds(row, sms) else BeginSend(row.thread, row.body) in events
  }

  lemma StepSourced(events: seq<Event>, s: State, e: Event)
    requires Inv(s) && NoResendInserts(s) && Enabled(s, e) && Sourced(events, s)
    ensures Sourced(events + [e], Apply(s, e))
  {
    var r := Apply(s, e);
    StepRows(s, e);
    StepBuffer(s, e);
    forall i | 0 <= i < |r.messages| ensures RowSourced(events + [e], r, r.messages[i]) {
      if i < |s.messages| {
        assert RowSourced(events, s, s.messages[i]) && SameText(s.messages[i], r.messages[i]);
      } else {
        var h :| h in s.handlers && Asked(s.handlers[h].job, r.messages[i]);
        assert s.handlers[h].job.Receive? ==> s.handlers[h].job.sms in s.received;
      }
    }
    forall h | h in r.handlers && r.handlers[h].job.Send?
      ensures BeginSend(r.handlers[h].job.thread, r.handlers[h].job.body) in events + [e]
    {
      StepJobs(s, e, h);
    }
  }

  /** Over every run, each row holds a received SMS or is a message that was asked to be sent. */
  lemma {:induction false} EveryRowHasASource(events: seq<Event>, s: State)
    requires Reaches(events, s)
    ensures Sourced(events, s) && NoResendInserts(s)
  {
    if events != [] {
      var before, e := events[..|events| - 1], events[|events| - 1];
      var r :| Reaches(before, r) && Enabled(r, e) && s == Apply(r, e);
      EveryRowHasASource(before, r);
      ReachableInv(before, r);
      StepSourced(before, r, e);
      StepInserts(r, e);
      assert events == before + [e];
    }
  }

  // ---------------------------------------------------------------- what one operation writes

  /** The conversations afterwards: the thread's row is there and visible, the others are as before. */
  predicate ShowsThread(before: map<Thread, bool>, after: map<Thread, bool>, thread: Thread) {
    && thread in after && !after[thread] && after.Keys == before.Keys + {thread}
    && forall other <- before :: other != thread ==> after[other] == before[other]
  }

  predicate HasId(messages: seq<Row>, id: string) {
    exists i :: 0 <= i < |messages| && messages[i].providerId == Some(id)
  }

  /** Left alone, a delivery adds one delivered row with the SMS's content unless its id is known. */
  lemma DeliveryWrites(s: State, sms: Sms) returns (k: nat)
    requires Inv(s) && sms in s.wire
    ensures var r := RunAlone(Apply(s, Deliver(sms)), s.nextHandler, k);
            && s.nextHandler !in r.handlers
            && (forall id :: id in r.acks <==> id in s.acks || (id == sms.id && id != ""))
            && if sms.id != "" && HasId(s.messages, sms.id)
               then r.messages == s.messages && r.conversations == s.conversations
               else && |r.messages| == |s.messages| + 1 && r.messages[..|s.messages|] == s.messages
                    && Holds(r.messages[|s.messages|], sms) && r.messages[|s.messages|].status == DELIVERED
                    && ShowsThread(s.conversations, r.conversations, Thread(sms.to, sms.from))
  {
    k := DeliveryCompletes(s, sms);
    assert sms.id != "" ==> (Taken(s.messages, Some(sms.id)) <==> HasId(s.messages, sms.id));
  }

  /** The row of a send or a retry before sendSms has replied. */
  ghost predicate Waiting(s: State, h: int, job: Job, row: int) {
    h in s.handlers && s.handlers[h] == Handler(job, AwaitProvider(row))
  }

  lemma {:induction false} InsertsPending(s: State, h: int, thread: Thread, body: string)
    requires h in s.handlers && s.handlers[h] == Handler(Send(thread, body), InsertRow)
    ensures var r := RunAlone(s, h, 1);
            && r.messages == s.messages + [Row(None, thread, body, false, PENDING)]
            && r.conversations == s.conversations && Waiting(r, h, Send(thread, body), |s.messages|)
            && r.acks == s.acks
  {
    assert RunAlone(RunNext(s, h), h, 0) == RunNext(s, h);
  }

  /** Left alone, a send writes a pending row and shows its conversation before sendSms is asked. */
  lemma SendWaits(s: State, thread: Thread, body: string) returns (k: nat)
    ensures var r := RunAlone(Apply(s, BeginSend(thread, body)), s.nextHandler, k);
            && r.messages == s.messages + [Row(None, thread, body, false, PENDING)]
            && ShowsThread(s.conversations, r.conversations, thread)
            && Waiting(r, s.nextHandler, Send(thread, body), |s.messages|) && r.acks == s.acks
  {
    var h := s.nextHandler;
    var started := Apply(s, BeginSend(thread, body));
    assert started.handlers[h] == Handler(Send(thread, body), SelectThread);
    var selected := RunNext(started, h);
    if thread in s.conversations && !s.conversations[thread] {
      k := 2;
      InsertsPending(selected, h, thread, body);
      assert RunAlone(started, h, 2) == RunAlone(selected, h, 1);
    } else {
      k := 3;
      var upserted := RunNext(selected, h);
      InsertsPending(upserted, h, thread, body);
      assert RunAlone(started, h, 3) == RunAlone(selected, h, 2) == RunAlone(upserted, h, 1);
    }
  }

  /** What the provider's reply makes of the waiting row k; the other rows stay. */
  ghost predicate Replied(before: seq<Row>, after: seq<Row>, k: nat, reply: Reply, named: bool)
    requires k < |before| && (named ==> reply.Sent?)
  {
    && |after| == |before| && (forall i :: 0 <= i < |before| && i != k ==> after[i] == before[i])
    && after[k].thread == before[k].thread && after[k].body == before[k].body && after[k].received == before[k].received
    && after[k].status == (if reply.SendFailed? then FAILED else SENT)
    && after[k].providerId == (if named then reply.messageId else before[k].providerId)
  }

  /** The id the provider gave is the id of another row. */
  ghost predicate NamesAnother(messages: seq<Row>, k: nat, reply: Reply) {
    reply.Sent? && reply.messageId.Some? &&
    exists i :: 0 <= i < |messages| && i != k && messages[i].providerId == reply.messageId
  }

  lemma CollidesExactly(messages: seq<Row>, k: nat, reply: Reply)
    requires k < |messages| && reply.Sent?
    ensures NamesAnother(messages, k, reply) <==>
            Taken(messages[k := messages[k].(providerId := None)], reply.messageId)
  {
    var cleared := messages[k := messages[k].(providerId := None)];
    if i :| 0 <= i < |messages| && i != k && messages[i].providerId == reply.messageId {
      assert cleared[i] == messages[i];
    }
  }

  /** A send's row follows the reply; the provider's id is left out if another row has it. The send then ends. */
  lemma {:induction false} SendSettles(s: State, h: int, thread: Thread, body: string, k: nat, reply: Reply)
    requires k < |s.messages| && Waiting(s, h, Send(thread, body), k)
    ensures var r := RunAlone(Apply(s, ProviderReplies(h, reply)), h, 1);
            && Replied(s.messages, r.messages, k, reply, reply.Sent? && !NamesAnother(s.messages, k, reply))
            && r.conversations == s.conversations && r.acks == s.acks && h !in r.handlers
  {
    if reply.Sent? { CollidesExactly(s.messages, k, reply); }
    var settled := Apply(s, ProviderReplies(h, reply));
    assert settled.handlers[h] == Handler(Send(thread, body), Touch);
    assert RunAlone(settled, h, 1) == RunAlone(RunNext(settled, h), h, 0);
  }

  /** A retry makes its row pending again before sendSms is asked, and touches nothing else. */
  lemma RetryWaits(s: State, k: nat)
    requires Possible(s, BeginRetry(k))
    ensures var r := RunAlone(Apply(s, BeginRetry(k)), s.nextHandler, 1);
            && |r.messages| == |s.messages|
            && (forall i :: 0 <= i < |s.messages| && i != k ==> r.messages[i] == s.messages[i])
            && r.messages[k].status == PENDING && r.messages[k].providerId == s.messages[k].providerId
            && r.messages[k].thread == s.messages[k].thread && r.messages[k].body == s.messages[k].body
            && r.messages[k].received == s.messages[k].received
            && Waiting(r, s.nextHandler, Resend(s.messages[k].thread, s.messages[k].body), k)
            && r.conversations == s.conversations && r.acks == s.acks
  {
    var started, h := Apply(s, BeginRetry(k)), s.nextHandler;
    assert RunAlone(started, h, 1) == RunAlone(RunNext(started, h), h, 0);
  }

  /** A retry's row follows the reply too, but stays pending when the provider's id is another row's. */
  lemma RetrySettles(s: State, h: int, thread: Thread, body: string, k: nat, reply: Reply)
    requires k < |s.messages| && Waiting(s, h, Resend(thread, body), k)
    ensures var r := Apply(s, ProviderReplies(h, reply));
            && (if NamesAnother(s.messages, k, reply) then r.messages == s.messages
                else Replied(s.messages, r.messages, k, reply, reply.Sent?))
            && r.conversations == s.conversations && r.acks == s.acks && h !in r.handlers
  {
    if reply.Sent? { CollidesExactly(s.messages, k, reply); }
  }

  /** Losing a race for a key ends a handler with nothing written and nothing acknowledged. */
  lemma LostRaceEnds(s: State, h: int)
    requires h in s.handlers
    requires || (s.handlers[h].stage.InsertThread? && ThreadOf(s.handlers[h].job) in s.conversations)
             || (s.handlers[h].stage.InsertRow? && s.handlers[h].job.Receive? && s.handlers[h].job.sms.id != "" &&
                 HasId(s.messages, s.handlers[h].job.sms.id))
    ensures Possible(s, Run(h)) && Apply(s, Run(h)) == s.(handlers := s.handlers - {h})
  {
    if s.handlers[h].stage.InsertRow? { assert Taken(s.messages, Some(s.handlers[h].job.sms.id)); }
  }

  /** A receipt sets the status of the rows with its id; hiding sets one flag; a crash ends the handlers alone. */
  lemma TableSteps(s: State, id: string, status: Status, thread: Thread)
    ensures var r := Apply(s, Receipt(id, status));
            && r == s.(messages := r.messages) && |r.messages| == |s.messages|
            && forall i :: 0 <= i < |s.messages| ==>
                 SameText(s.messages[i], r.messages[i]) && r.messages[i].providerId == s.messages[i].providerId &&
                 r.messages[i].status == if s.messages[i].providerId == Some(id) then status else s.messages[i].status
    ensures var r := Apply(s, Hide(thread));
            && r == s.(conversations := r.conversations) && r.conversations.Keys == s.conversations.Keys
            && forall other <- s.conversations :: r.conversations[other] == (s.conversations[other] || other == thread)
    ensures Apply(s, Crash) == s.(handlers := map[])
  {
  }
}
