/** What holds in every reachable state of the SMS protocol. */
module SmsDelivery {
  import opened Basics
  import opened SmsModel

  // ---------------------------------------------------------------- the invariant, clause by clause

  ghost predicate IdsApart(s: State) {
    forall a, b :: a in s.received && b in s.received && a.id == b.id && a.id != "" ==> a == b
  }

  /** The gateway's buffer, the link and the inbound handlers hold only what was received. */
  ghost predicate Genuine(s: State) {
    && s.buffer <= s.received && s.wire <= s.received
    && (forall h <- s.handlers :: s.handlers[h].job.Receive? ==> s.handlers[h].job.sms in s.received)
  }

  /** The UNIQUE constraint on provider_message_id. */
  ghost predicate UniqueIds(messages: seq<Row>) {
    forall i, j :: 0 <= i < j < |messages| && messages[i].providerId.Some? ==>
      messages[i].providerId != messages[j].providerId
  }

  /** Inbound rows with an id store a received SMS; ids of sent rows belong to no received SMS. */
  ghost predicate RowGenuine(s: State, row: Row) {
    if row.received then
      row.providerId != Some("") && (row.providerId.Some? ==> exists sms <- s.received :: RowOf(sms) == AsInserted(row))
    else
      row.providerId.Some? && row.providerId.value != "" ==> forall sms <- s.received :: sms.id != row.providerId.value
  }

  ghost predicate RowsGenuine(s: State) {
    forall i :: 0 <= i < |s.messages| ==> RowGenuine(s, s.messages[i])
  }

  predicate NeedsThread(stage: Stage) {
    stage.InsertRow? || stage.Requeue? || stage.AwaitProvider? || stage.Touch? || stage.Unremove?
  }

  /** Whose row a stage is about to change. */
  predicate ChangesRow(stage: Stage) { stage.Requeue? || stage.AwaitProvider? }

  ghost predicate ThreadsExist(s: State) {
    && (forall i :: 0 <= i < |s.messages| ==> s.messages[i].thread in s.conversations)
    && (forall h <- s.handlers ::
          NeedsThread(s.handlers[h].stage) ==> ThreadOf(s.handlers[h].job) in s.conversations)
  }

  ghost predicate HandlersSound(s: State) {
    && (forall h <- s.handlers :: h < s.nextHandler)
    && (forall h <- s.handlers :: s.handlers[h].stage.Touch? && s.handlers[h].job.Receive? ==>
          Stored(s.messages, s.handlers[h].job.sms))
    && (forall h <- s.handlers :: ChangesRow(s.handlers[h].stage) ==>
          !s.handlers[h].job.Receive? && 0 <= s.handlers[h].stage.row < |s.messages| &&
            !s.messages[s.handlers[h].stage.row].received)
  }

  ghost predicate NothingLost(s: State) {
    forall sms <- s.received :: sms in s.buffer || Stored(s.messages, sms)
  }

  ghost predicate AcksEarned(s: State) {
    forall id <- s.acks :: id != "" && exists sms :: sms in s.received && sms.id == id && Stored(s.messages, sms)
  }

  ghost predicate Inv(s: State) {
    && IdsApart(s) && Genuine(s) && UniqueIds(s.messages) && RowsGenuine(s)
    && ThreadsExist(s) && HandlersSound(s) && NothingLost(s) && AcksEarned(s)
  }

  // ---------------------------------------------------------------- steps

  /** Inbound rows are never dropped, or changed but for their status. */
  ghost predicate KeepsInbound(before: seq<Row>, after: seq<Row>) {
    |before| <= |after|
    && forall i :: 0 <= i < |before| && before[i].received ==> AsInserted(after[i]) == AsInserted(before[i])
  }

  lemma StoredStays(before: seq<Row>, after: seq<Row>, sms: Sms)
    requires KeepsInbound(before, after) && Stored(before, sms)
    ensures Stored(after, sms)
  {
    var i :| 0 <= i < |before| && AsInserted(before[i]) == RowOf(sms);
    assert AsInserted(after[i]) == RowOf(sms);
  }

  /** A row with the id of a received SMS is that SMS. */
  lemma TakenMeansStored(s: State, sms: Sms)
    requires IdsApart(s) && RowsGenuine(s) && sms in s.received && sms.id != "" && Taken(s.messages, Some(sms.id))
    ensures Stored(s.messages, sms)
  {
    var i :| 0 <= i < |s.messages| && s.messages[i].providerId == Some(sms.id);
    assert RowGenuine(s, s.messages[i]);
    var other :| other in s.received && RowOf(other) == AsInserted(s.messages[i]);
    assert other == sms;
  }

  lemma AppendUnique(messages: seq<Row>, row: Row)
    requires UniqueIds(messages) && !Taken(messages, row.providerId)
    ensures UniqueIds(messages + [row])
  {
  }

  lemma UpdateUnique(messages: seq<Row>, k: nat, row: Row)
    requires UniqueIds(messages) && k < |messages|
    requires row.providerId == messages[k].providerId ||
             !Taken(messages[k := messages[k].(providerId := None)], row.providerId)
    ensures UniqueIds(messages[k := row])
  {
    var cleared := messages[k := messages[k].(providerId := None)];
    if row.providerId != messages[k].providerId && row.providerId.Some? {
      forall i | 0 <= i < |messages| && i != k ensures messages[i].providerId != row.providerId {
        assert cleared[i] == messages[i];
      }
    }
  }

  lemma FinishKeeps(s: State, h: int)
    requires Inv(s)
    ensures Inv(Finish(s, h))
  {
    assert forall i <- Finish(s, h).handlers :: Finish(s, h).handlers[i] == s.handlers[i];
  }

  /** A handler may move to a stage whose needs are met. */
  ghost predicate StageFits(s: State, job: Job, stage: Stage) {
    && (NeedsThread(stage) ==> ThreadOf(job) in s.conversations)
    && (stage.Touch? && job.Receive? ==> Stored(s.messages, job.sms))
    && (ChangesRow(stage) ==> !job.Receive? && 0 <= stage.row < |s.messages| && !s.messages[stage.row].received)
  }

  lemma GotoKeeps(s: State, h: int, stage: Stage)
    requires Inv(s) && h in s.handlers && StageFits(s, s.handlers[h].job, stage)
    ensures Inv(Goto(s, h, stage))
  {
    assert forall i <- Goto(s, h, stage).handlers :: i != h ==> Goto(s, h, stage).handlers[i] == s.handlers[i];
  }

  lemma StartKeeps(s: State, job: Job, stage: Stage)
    requires Inv(s) && StageFits(s, job, stage) && (job.Receive? ==> job.sms in s.received)
    ensures Inv(Start(s, job, stage))
  {
    var r := Start(s, job, stage);
    assert forall i <- r.handlers :: i != s.nextHandler ==> r.handlers[i] == s.handlers[i];
  }

  lemma GatewayKeeps(s: State, sms: Sms)
    requires Inv(s) && Enabled(s, GatewayReceives(sms))
    ensures Inv(Apply(s, GatewayReceives(sms)))
  {
    var r := Apply(s, GatewayReceives(sms));
    forall i | 0 <= i < |s.messages| ensures RowGenuine(r, s.messages[i]) {
      assert RowGenuine(s, s.messages[i]);
    }
  }

  lemma AckKeeps(s: State, job: Job)
    requires Inv(s)
    requires job.Receive? && job.sms.id != "" ==> job.sms in s.received && Stored(s.messages, job.sms)
    ensures Inv(Ack(s, job))
  {
    var r := Ack(s, job);
    forall i | 0 <= i < |s.messages| ensures RowGenuine(r, s.messages[i]) {
      assert RowGenuine(s, s.messages[i]);
    }
  }

  lemma LookupKeeps(s: State, h: int)
    requires Inv(s) && h in s.handlers && s.handlers[h].stage.Lookup?
    ensures Inv(RunNext(s, h))
  {
    var job := s.handlers[h].job;
    if job.Receive? && job.sms.id != "" && Taken(s.messages, Some(job.sms.id)) {
      TakenMeansStored(s, job.sms);
      FinishKeeps(s, h);
      AckKeeps(Finish(s, h), job);
    } else {
      GotoKeeps(s, h, SelectThread);
    }
  }

  lemma SelectKeeps(s: State, h: int)
    requires Inv(s) && h in s.handlers && s.handlers[h].stage.SelectThread?
    ensures Inv(RunNext(s, h))
  {
    var thread := ThreadOf(s.handlers[h].job);
    GotoKeeps(s, h, AfterSelect(s, thread));
  }

  /** Conversation rows only ever come to be or change their flag. */
  lemma ThreadsKeep(s: State, conversations: map<Thread, bool>)
    requires Inv(s) && s.conversations.Keys <= conversations.Keys
    ensures Inv(s.(conversations := conversations))
  {
    var r := s.(conversations := conversations);
    forall i | 0 <= i < |s.messages|
      ensures RowGenuine(r, s.messages[i]) && s.messages[i].thread in conversations
    {
      assert RowGenuine(s, s.messages[i]) && s.messages[i].thread in s.conversations;
    }
    forall h | h in s.handlers && ThreadOf(s.handlers[h].job) in s.conversations
      ensures ThreadOf(s.handlers[h].job) in conversations
    {
    }
  }

  lemma UpsertKeeps(s: State, h: int)
    requires Inv(s) && h in s.handlers && (s.handlers[h].stage.InsertThread? || s.handlers[h].stage.Unremove?)
    ensures Inv(RunNext(s, h))
  {
    var thread := ThreadOf(s.handlers[h].job);
    if s.handlers[h].stage.InsertThread? && thread in s.conversations {
      FinishKeeps(s, h);
    } else {
      ThreadsKeep(s, s.conversations[thread := false]);
      GotoKeeps(s.(conversations := s.conversations[thread := false]), h, InsertRow);
    }
  }

  /** A change of the messages table that keeps inbound rows and the constraints keeps the invariant. */
  lemma TableKeeps(s: State, messages: seq<Row>)
    requires Inv(s) && KeepsInbound(s.messages, messages) && UniqueIds(messages)
    requires forall i :: 0 <= i < |messages| ==> messages[i].thread in s.conversations && RowGenuine(s, messages[i])
    requires forall i :: 0 <= i < |s.messages| ==> messages[i].received == s.messages[i].received
    ensures Inv(s.(messages := messages))
  {
    var r := s.(messages := messages);
    forall i | 0 <= i < |messages| ensures RowGenuine(r, messages[i]) {
      assert RowGenuine(s, messages[i]);
    }
    forall sms | Stored(s.messages, sms) ensures Stored(messages, sms) {
      StoredStays(s.messages, messages, sms);
    }
    forall id | id in r.acks ensures exists sms :: sms in r.received && sms.id == id && Stored(messages, sms) {
      var sms :| sms in s.received && sms.id == id && Stored(s.messages, sms);
      assert Stored(messages, sms);
    }
  }

  lemma StoreKeeps(s: State, h: int, sms: Sms)
    requires Inv(s) && h in s.handlers && s.handlers[h] == Handler(Receive(sms), InsertRow)
    ensures Inv(InsertMessage(s, h))
  {
    if Taken(s.messages, RowOf(sms).providerId) {
      FinishKeeps(s, h);
    } else {
      AppendKeeps(s, RowOf(sms));
      assert (s.messages + [RowOf(sms)])[|s.messages|] == RowOf(sms);
      GotoKeeps(s.(messages := s.messages + [RowOf(sms)]), h, Touch);
    }
  }

  lemma InsertRowKeeps(s: State, h: int)
    requires Inv(s) && h in s.handlers && s.handlers[h].stage.InsertRow?
    ensures Inv(RunNext(s, h))
  {
    if s.handlers[h].job.Receive? {
      StoreKeeps(s, h, s.handlers[h].job.sms);
    } else {
      var row := Row(None, s.handlers[h].job.thread, s.handlers[h].job.body, false, PENDING);
      AppendKeeps(s, row);
      GotoKeeps(s.(messages := s.messages + [row]), h, AwaitProvider(|s.messages|));
    }
  }

  lemma AppendKeeps(s: State, row: Row)
    requires Inv(s) && !Taken(s.messages, row.providerId) && RowGenuine(s, row) && row.thread in s.conversations
    ensures Inv(s.(messages := s.messages + [row]))
  {
    var messages := s.messages + [row];
    AppendUnique(s.messages, row);
    forall i | 0 <= i < |messages| ensures messages[i].thread in s.conversations && RowGenuine(s, messages[i]) {
      if i < |s.messages| { assert RowGenuine(s, s.messages[i]) && s.messages[i].thread in s.conversations; }
    }
    TableKeeps(s, messages);
  }

  lemma TouchKeeps(s: State, h: int)
    requires Inv(s) && h in s.handlers && s.handlers[h].stage.Touch?
    ensures Inv(RunNext(s, h))
  {
    FinishKeeps(s, h);
    AckKeeps(Finish(s, h), s.handlers[h].job);
  }

  /** Changing a sent row, but not its conversation, keeps the invariant if its id stays unique and apart. */
  lemma ChangeKeeps(s: State, k: nat, row: Row)
    requires Inv(s) && k < |s.messages| && !s.messages[k].received && !row.received &&
             row.thread == s.messages[k].thread
    requires row.providerId == s.messages[k].providerId ||
             !Taken(s.messages[k := s.messages[k].(providerId := None)], row.providerId)
    requires RowGenuine(s, row)
    ensures Inv(s.(messages := s.messages[k := row]))
  {
    var messages := s.messages[k := row];
    UpdateUnique(s.messages, k, row);
    forall i | 0 <= i < |messages| ensures messages[i].thread in s.conversations && RowGenuine(s, messages[i]) {
      assert RowGenuine(s, s.messages[i]) && s.messages[i].thread in s.conversations;
    }
    TableKeeps(s, messages);
  }

  lemma RequeueKeeps(s: State, h: int)
    requires Inv(s) && h in s.handlers && s.handlers[h].stage.Requeue? && Runnable(s, s.handlers[h].stage)
    ensures Inv(RunNext(s, h))
  {
    var k := s.handlers[h].stage.row;
    var row := s.messages[k].(status := PENDING);
    assert RowGenuine(s, s.messages[k]);
    ChangeKeeps(s, k, row);
    GotoKeeps(s.(messages := s.messages[k := row]), h, AwaitProvider(k));
  }

  lemma SettleKeeps(s: State, h: int, reply: Reply)
    requires Inv(s) && Enabled(s, ProviderReplies(h, reply))
    ensures Inv(Settle(s, h, reply))
  {
    var k := s.handlers[h].stage.row;
    var r := Settle(s, h, reply);
    assert RowGenuine(s, s.messages[k]);
    if r.messages == s.messages && s.handlers[h].job.Resend? {
      FinishKeeps(s, h);
    } else {
      var changed := s.(messages := s.messages[k := r.messages[k]]);
      ChangeKeeps(s, k, r.messages[k]);
      if s.handlers[h].job.Resend? { FinishKeeps(changed, h); } else { GotoKeeps(changed, h, Touch); }
    }
  }

  lemma ReceiptKeeps(s: State, id: string, status: Status)
    requires Inv(s) && Enabled(s, Receipt(id, status))
    ensures Inv(Apply(s, Receipt(id, status)))
  {
    var messages := WithStatus(s.messages, id, status);
    forall i | 0 <= i < |messages|
      ensures messages[i].thread in s.conversations && RowGenuine(s, messages[i])
      ensures AsInserted(messages[i]) == AsInserted(s.messages[i]) || !s.messages[i].received
      ensures messages[i].providerId == s.messages[i].providerId
    {
      assert RowGenuine(s, s.messages[i]) && s.messages[i].thread in s.conversations;
    }
    TableKeeps(s, messages);
  }

  lemma ReleaseKeeps(s: State, id: string)
    requires Inv(s) && id in s.acks
    ensures Inv(Apply(s, AckArrives(id)))
  {
    var r := Apply(s, AckArrives(id));
    var stored :| stored in s.received && stored.id == id && Stored(s.messages, stored);
    forall sms | sms in s.received ensures sms in r.buffer || Stored(s.messages, sms) {
      if sms.id == id { assert sms == stored; }
    }
    forall i | 0 <= i < |s.messages| ensures RowGenuine(r, s.messages[i]) {
      assert RowGenuine(s, s.messages[i]);
    }
  }

  lemma WireKeeps(s: State, e: Event)
    requires Inv(s) && Enabled(s, e) && (e.Transmit? || e.Crash?)
    ensures Inv(Apply(s, e))
  {
    var r := Apply(s, e);
    forall i | 0 <= i < |s.messages| ensures RowGenuine(r, s.messages[i]) {
      assert RowGenuine(s, s.messages[i]);
    }
  }

  lemma RunKeeps(s: State, h: int)
    requires Inv(s) && Enabled(s, Run(h))
    ensures Inv(RunNext(s, h))
  {
    match s.handlers[h].stage
    case Lookup => LookupKeeps(s, h);
    case SelectThread => SelectKeeps(s, h);
    case InsertThread => UpsertKeeps(s, h);
    case Unremove => UpsertKeeps(s, h);
    case InsertRow => InsertRowKeeps(s, h);
    case Requeue(_) => RequeueKeeps(s, h);
    case Touch => TouchKeeps(s, h);
  }

  lemma StepKeepsInv(s: State, e: Event)
    requires Inv(s) && Enabled(s, e)
    ensures Inv(Apply(s, e))
  {
    match e
    case GatewayReceives(sms) => GatewayKeeps(s, sms);
    case Transmit(_) => WireKeeps(s, e);
    case Deliver(sms) => StartKeeps(s, Receive(sms), Lookup);
    case BeginSend(thread, body) => StartKeeps(s, Send(thread, body), SelectThread);
    case BeginRetry(row) =>
      assert RowGenuine(s, s.messages[row]);
      StartKeeps(s, Resend(s.messages[row].thread, s.messages[row].body), Requeue(row));
    case Receipt(id, status) => ReceiptKeeps(s, id, status);
    case Run(h) => RunKeeps(s, h);
    case Fail(h) => FinishKeeps(s, h);
    case ProviderReplies(h, reply) => SettleKeeps(s, h, reply);
    case Hide(thread) => if thread in s.conversations { ThreadsKeep(s, s.conversations[thread := true]); }
    case AckArrives(id) => ReleaseKeeps(s, id);
    case Crash => WireKeeps(s, e);
  }

  // ---------------------------------------------------------------- runs

  /** `s` is a state some run of the protocol leads to. */
  ghost predicate Reaches(events: seq<Event>, s: State) {
    if events == [] then s == Init
    else
      var before, e := events[..|events| - 1], events[|events| - 1];
      exists r :: Reaches(before, r) && Enabled(r, e) && s == Apply(r, e)
  }

  lemma {:induction false} ReachableInv(events: seq<Event>, s: State)
    requires Reaches(events, s)
    ensures Inv(s)
  {
    if events != [] {
      var before, e := events[..|events| - 1], events[|events| - 1];
      var r :| Reaches(before, r) && Enabled(r, e) && s == Apply(r, e);
      ReachableInv(before, r);
      StepKeepsInv(r, e);
    }
  }

  /** Every SMS the gateway received is still in its buffer or in the messages table. */
  lemma {:induction false} NoSmsLost(events: seq<Event>, s: State, sms: Sms)
    requires Reaches(events, s) && sms in s.received
    ensures sms in s.buffer || Stored(s.messages, sms)
  {
    ReachableInv(events, s);
  }

  /** An acknowledgement exists only for an SMS that is stored. */
  lemma {:induction false} AckOnlyAfterStoring(events: seq<Event>, s: State, id: string)
    requires Reaches(events, s) && id in s.acks
    ensures exists sms :: sms in s.received && sms.id == id && Stored(s.messages, sms)
  {
    ReachableInv(events, s);
  }

  /** An SMS with an id is stored at most once, however often it is delivered. */
  lemma {:induction false} StoredAtMostOnce(events: seq<Event>, s: State, sms: Sms, i: nat, j: nat)
    requires Reaches(events, s) && sms.id != "" && i < |s.messages| && j < |s.messages|
    requires s.messages[i].providerId == s.messages[j].providerId == Some(sms.id)
    ensures i == j
  {
    ReachableInv(events, s);
  }

  /** Every stored message has the row of its (own number, remote number) conversation. */
  lemma {:induction false} MessagesHaveThreads(events: seq<Event>, s: State, i: nat)
    requires Reaches(events, s) && i < |s.messages|
    ensures s.messages[i].thread in s.conversations
  {
    ReachableInv(events, s);
  }

  /** A stored row with an id holds exactly what the gateway received under that id. */
  lemma {:induction false} StoredFaithfully(events: seq<Event>, s: State, i: nat, sms: Sms)
    requires Reaches(events, s) && i < |s.messages| && sms in s.received && sms.id != ""
    requires s.messages[i].providerId == Some(sms.id)
    ensures AsInserted(s.messages[i]) == RowOf(sms)
  {
    ReachableInv(events, s);
    assert RowGenuine(s, s.messages[i]);
    assert s.messages[i].received;
    var other :| other in s.received && RowOf(other) == AsInserted(s.messages[i]);
    assert other == sms;
  }

  // ---------------------------------------------------------------- a delivery left to itself

  /** Runs the statements of one handler up to k times with nothing in between. */
  ghost function RunAlone(s: State, h: int, k: nat): State
    decreases k
  {
    if k == 0 || h !in s.handlers || !Runnable(s, s.handlers[h].stage) then s
    else RunAlone(RunNext(s, h), h, k - 1)
  }

  lemma StatementKeepsLink(s: State, h: int)
    requires h in s.handlers && Runnable(s, s.handlers[h].stage)
    ensures var r := RunNext(s, h);
            r.received == s.received && r.buffer == s.buffer && r.wire == s.wire && r.nextHandler == s.nextHandler
  {
  }

  lemma {:induction false} RunAloneKeeps(s: State, h: int, k: nat)
    requires Inv(s)
    ensures var r := RunAlone(s, h, k);
            Inv(r) && r.received == s.received && r.buffer == s.buffer && r.wire == s.wire &&
              r.nextHandler == s.nextHandler
    decreases k
  {
    if k > 0 && h in s.handlers && Runnable(s, s.handlers[h].stage) {
      RunKeeps(s, h);
      StatementKeepsLink(s, h);
      RunAloneKeeps(RunNext(s, h), h, k - 1);
    }
  }

  /** The delivery handler h is through: the tables are as StoresOnce says, and an id has been acknowledged. */
  ghost predicate Received(s: State, r: State, h: int, sms: Sms) {
    && StoresOnce(s.messages, s.conversations, r.messages, r.conversations, sms)
    && h !in r.handlers && r.acks == s.acks + if sms.id == "" then {} else {sms.id}
  }

  lemma {:induction false} AfterUpsert(s: State, h: int, sms: Sms)
    requires h in s.handlers && s.handlers[h] == Handler(Receive(sms), InsertRow)
    requires !Taken(s.messages, RowOf(sms).providerId)
    ensures var r := RunAlone(s, h, 2);
            && r.messages == s.messages + [RowOf(sms)] && r.conversations == s.conversations
            && h !in r.handlers && r.acks == s.acks + if sms.id == "" then {} else {sms.id}
  {
    var inserted := RunNext(s, h);
    assert inserted.handlers[h] == Handler(Receive(sms), Touch);
    assert RunAlone(inserted, h, 1) == RunAlone(RunNext(inserted, h), h, 0);
  }

  /**
    Left alone, a delivery stores a new SMS and un-hides its conversation, skips a known one,
    and acknowledges both.
   */
  lemma DeliveryCompletes(s: State, sms: Sms) returns (k: nat)
    requires Inv(s) && sms in s.wire
    ensures Received(s, RunAlone(Apply(s, Deliver(sms)), s.nextHandler, k), s.nextHandler, sms)
  {
    var h := s.nextHandler;
    var started := Apply(s, Deliver(sms));
    assert started.handlers[h] == Handler(Receive(sms), Lookup);
    var looked := RunNext(started, h);
    if sms.id != "" && Taken(s.messages, Some(sms.id)) {
      k := 1;
      assert RunAlone(started, h, 1) == RunAlone(looked, h, 0) == looked;
    } else {
      assert looked.handlers[h] == Handler(Receive(sms), SelectThread);
      var selected := RunNext(looked, h);
      var thread := Thread(sms.to, sms.from);
      if thread in s.conversations && !s.conversations[thread] {
        k := 4;
        AfterUpsert(selected, h, sms);
        assert s.conversations[thread := false] == s.conversations;
        assert RunAlone(started, h, 4) == RunAlone(looked, h, 3) == RunAlone(selected, h, 2);
      } else {
        k := 5;
        var upserted := RunNext(selected, h);
        AfterUpsert(upserted, h, sms);
        assert RunAlone(started, h, 5) == RunAlone(looked, h, 4) == RunAlone(selected, h, 3) ==
               RunAlone(upserted, h, 2);
      }
    }
  }

  /**
    Delivered twice, an SMS is stored by the second delivery too exactly when it has no id;
    such an SMS adds its row each time and is never acknowledged.
   */
  lemma NoIdNoDedup(s: State, sms: Sms) returns (k: nat, l: nat)
    requires Inv(s) && sms in s.wire
    ensures var first := RunAlone(Apply(s, Deliver(sms)), s.nextHandler, k);
            && Received(s, first, s.nextHandler, sms) && sms in first.wire
            && var second := RunAlone(Apply(first, Deliver(sms)), first.nextHandler, l);
               && Received(first, second, first.nextHandler, sms)
               && (sms.id != "" ==> second.messages == first.messages)
               && (sms.id == "" ==> second.messages == s.messages + [RowOf(sms), RowOf(sms)] && second.acks == s.acks)
  {
    k := DeliveryCompletes(s, sms);
    StartKeeps(s, Receive(sms), Lookup);
    RunAloneKeeps(Apply(s, Deliver(sms)), s.nextHandler, k);
    var first := RunAlone(Apply(s, Deliver(sms)), s.nextHandler, k);
    l := DeliveryCompletes(first, sms);
    StoredIsTaken(s.messages, s.conversations, first.messages, first.conversations, sms);
  }

  lemma StoredIsTaken(m: seq<Row>, c: map<Thread, bool>, m': seq<Row>, c': map<Thread, bool>, sms: Sms)
    requires StoresOnce(m, c, m', c', sms)
    ensures sms.id != "" ==> Taken(m', Some(sms.id))
  {
    if sms.id != "" && !Taken(m, Some(sms.id)) { assert m'[|m|].providerId == Some(sms.id); }
  }

  // ---------------------------------------------------------------- what the assumptions are for

  /** Rows of received messages are genuine, whatever sent messages are called. */
  ghost predicate InboundGenuine(s: State) {
    forall i :: 0 <= i < |s.messages| && s.messages[i].received ==> RowGenuine(s, s.messages[i])
  }

  /** A lookup acknowledges an SMS that is not stored exactly when a sent message has its id. */
  lemma SentIdShadowsExactly(s: State, h: int, sms: Sms)
    requires IdsApart(s) && UniqueIds(s.messages) && InboundGenuine(s)
    requires h in s.handlers && s.handlers[h] == Handler(Receive(sms), Lookup) && sms.id != "" && sms in s.received
    requires sms.id !in s.acks
    ensures sms.id in RunNext(s, h).acks && !Stored(RunNext(s, h).messages, sms)
       <==> exists i :: 0 <= i < |s.messages| && !s.messages[i].received && s.messages[i].providerId == Some(sms.id)
  {
    if i :| 0 <= i < |s.messages| && s.messages[i].providerId == Some(sms.id) {
      if s.messages[i].received {
        assert RowGenuine(s, s.messages[i]);
        var other :| other in s.received && RowOf(other) == AsInserted(s.messages[i]);
        assert other == sms;
      }
      forall j | 0 <= j < |s.messages| && s.messages[j].providerId == Some(sms.id) ensures j == i {
      }
    }
  }

  /**
    A settled retry of an inbound row keeps its SMS stored exactly when the send failed, was
    given the SMS's own id, or was given the id of another row (the retry then throws).
   */
  lemma RetryForgetsExactly(s: State, h: int, sms: Sms, reply: Reply)
    requires UniqueIds(s.messages) && sms.id != ""
    requires Possible(s, ProviderReplies(h, reply)) && s.handlers[h].job.Resend?
    requires AsInserted(s.messages[s.handlers[h].stage.row]) == RowOf(sms)
    ensures var k := s.handlers[h].stage.row;
            Stored(Settle(s, h, reply).messages, sms) <==>
              reply.SendFailed? || reply.messageId == Some(sms.id)
              || Taken(s.messages[k := s.messages[k].(providerId := None)], reply.messageId)
  {
    var k, r := s.handlers[h].stage.row, Settle(s, h, reply);
    forall i | 0 <= i < |s.messages| && i != k ensures s.messages[i].providerId != Some(sms.id) {
    }
    assert AsInserted(r.messages[k]) == RowOf(sms) <==> r.messages[k].providerId == Some(sms.id);
    assert forall i :: 0 <= i < |s.messages| && i != k ==> r.messages[i] == s.messages[i];
  }

  /** A run of possible events, the assumptions not among them. */
  ghost predicate Runs(s: State, events: seq<Event>, r: State)
    decreases |events|
  {
    if events == [] then r == s
    else Possible(s, events[0]) && Runs(Apply(s, events[0]), events[1..], r)
  }

  lemma {:induction false} RunsThen(s: State, events: seq<Event>, r: State, e: Event)
    requires Runs(s, events, r) && Possible(r, e)
    ensures Runs(s, events + [e], Apply(r, e))
    decreases |events|
  {
    if events != [] {
      RunsThen(Apply(s, events[0]), events[1..], r, e);
      assert (events + [e])[1..] == events[1..] + [e];
    } else {
      assert [e][1..] == [];
    }
  }

  /** One send, waiting for the provider. */
  lemma SendingRun(thread: Thread, body: string) returns (events: seq<Event>, s: State)
    ensures Runs(Init, events, s) && s.messages == [Row(None, thread, body, false, PENDING)]
    ensures s.handlers == map[0 := Handler(Send(thread, body), AwaitProvider(0))] && s.nextHandler == 1
    ensures s.received == {} && s.buffer == {} && s.wire == {} && s.acks == {}
  {
    var s1 := Start(Init, Send(thread, body), SelectThread);
    RunsThen(Init, [], Init, BeginSend(thread, body));
    var s2 := Goto(s1, 0, InsertThread);
    RunsThen(Init, [] + [BeginSend(thread, body)], s1, Run(0));
    var s3 := Goto(s2.(conversations := map[thread := false]), 0, InsertRow);
    RunsThen(Init, [] + [BeginSend(thread, body)] + [Run(0)], s2, Run(0));
    RunsThen(Init, [] + [BeginSend(thread, body)] + [Run(0)] + [Run(0)], s3, Run(0));
    events := [] + [BeginSend(thread, body)] + [Run(0)] + [Run(0)] + [Run(0)];
    s := RunNext(s3, 0);
  }

  /** The provider has named the sent message by `id`. */
  lemma SentRun(id: string, thread: Thread, body: string) returns (events: seq<Event>, s: State)
    ensures Runs(Init, events, s) && s.messages == [Row(Some(id), thread, body, false, SENT)]
    ensures s.nextHandler == 1 && s.received == {} && s.buffer == {} && s.wire == {} && s.acks == {}
  {
    var before, sending := SendingRun(thread, body);
    RunsThen(Init, before, sending, ProviderReplies(0, Sent(Some(id))));
    events := before + [ProviderReplies(0, Sent(Some(id)))];
    s := Settle(sending, 0, Sent(Some(id)));
  }

  /** The gateway delivers an SMS. */
  lemma DeliverRun(events: seq<Event>, s: State, sms: Sms) returns (events': seq<Event>, r: State)
    requires Runs(Init, events, s) && s.received == {} && s.buffer == {} && s.wire == {} && s.acks == {}
    ensures Runs(Init, events', r) && r.messages == s.messages && r.received == {sms} && r.buffer == {sms}
    ensures s.nextHandler in r.handlers && r.handlers[s.nextHandler] == Handler(Receive(sms), Lookup)
  {
    var r1 := s.(received := s.received + {sms}, buffer := s.buffer + {sms});
    RunsThen(Init, events, s, GatewayReceives(sms));
    var r2 := r1.(wire := r1.wire + {sms});
    RunsThen(Init, events + [GatewayReceives(sms)], r1, Transmit(sms));
    RunsThen(Init, events + [GatewayReceives(sms)] + [Transmit(sms)], r2, Deliver(sms));
    events' := events + [GatewayReceives(sms)] + [Transmit(sms)] + [Deliver(sms)];
    r := Start(r2, Receive(sms), Lookup);
  }

  /** If sent messages shared ids with received ones, an SMS could be lost: in no buffer and in no row. */
  lemma SentIdLosesSms(sms: Sms, thread: Thread, body: string) returns (events: seq<Event>, s: State)
    requires sms.id != ""
    ensures Runs(Init, events, s) && sms in s.received && sms !in s.buffer && !Stored(s.messages, sms)
  {
    var sent, s1 := SentRun(sms.id, thread, body);
    var delivered, s2 := DeliverRun(sent, s1, sms);
    var h := s1.nextHandler;
    assert s2.messages[0].providerId == Some(sms.id);
    RunsThen(Init, delivered, s2, Run(h));
    var s3 := RunNext(s2, h);
    assert s3 == Ack(Finish(s2, h), Receive(sms));
    RunsThen(Init, delivered + [Run(h)], s3, AckArrives(sms.id));
    events := delivered + [Run(h)] + [AckArrives(sms.id)];
    s := Apply(s3, AckArrives(sms.id));
  }

  lemma {:induction false} RunAloneRuns(events: seq<Event>, s: State, h: int, k: nat) returns (events': seq<Event>)
    requires Runs(Init, events, s)
    ensures Runs(Init, events', RunAlone(s, h, k))
    decreases k
  {
    events' := events;
    if k > 0 && h in s.handlers && Runnable(s, s.handlers[h].stage) {
      RunsThen(Init, events, s, Run(h));
      events' := RunAloneRuns(events + [Run(h)], RunNext(s, h), h, k - 1);
    }
  }

  /** An SMS has been received, transmitted, stored and acknowledged. */
  lemma StoredRun(sms: Sms) returns (events: seq<Event>, s: State)
    requires sms.id != ""
    ensures Runs(Init, events, s) && s.messages == [RowOf(sms)] && s.received == {sms} && s.acks == {sms.id}
    ensures s.nextHandler == 1
  {
    ReachableInv([], Init);
    var s1, s2 := Apply(Init, GatewayReceives(sms)), Init.(received := {sms}, buffer := {sms}, wire := {sms});
    StepKeepsInv(Init, GatewayReceives(sms));
    StepKeepsInv(s1, Transmit(sms));
    assert s1 == Init.(received := {sms}, buffer := {sms}) && s2 == Apply(s1, Transmit(sms));
    RunsThen(Init, [], Init, GatewayReceives(sms));
    RunsThen(Init, [] + [GatewayReceives(sms)], s1, Transmit(sms));
    RunsThen(Init, [] + [GatewayReceives(sms)] + [Transmit(sms)], s2, Deliver(sms));
    var started := Apply(s2, Deliver(sms));
    var k := DeliveryCompletes(s2, sms);
    StepKeepsInv(s2, Deliver(sms));
    RunAloneKeeps(started, 0, k);
    events := RunAloneRuns([] + [GatewayReceives(sms)] + [Transmit(sms)] + [Deliver(sms)], started, 0, k);
    s := RunAlone(started, 0, k);
  }

  /** If a received message could be retried after a failure receipt, its SMS could be lost too. */
  lemma RetryLosesSms(sms: Sms, other: string) returns (events: seq<Event>, s: State)
    requires sms.id != "" && other != sms.id
    ensures Runs(Init, events, s) && sms in s.received && sms !in s.buffer && !Stored(s.messages, sms)
  {
    var before, s0 := StoredRun(sms);
    RunsThen(Init, before, s0, AckArrives(sms.id));
    var s1 := Apply(s0, AckArrives(sms.id));
    events := before + [AckArrives(sms.id)];
    RunsThen(Init, events, s1, Receipt(sms.id, FAILED));
    var s2 := s1.(messages := WithStatus(s1.messages, sms.id, FAILED));
    events := events + [Receipt(sms.id, FAILED)];
    assert s2.messages == [RowOf(sms).(status := FAILED)];
    RunsThen(Init, events, s2, BeginRetry(0));
    var s3 := Start(s2, Resend(s2.messages[0].thread, s2.messages[0].body), Requeue(0));
    events := events + [BeginRetry(0)];
    RunsThen(Init, events, s3, Run(1));
    var s4 := RunNext(s3, 1);
    events := events + [Run(1)];
    assert s4.messages == [RowOf(sms).(status := PENDING)] && s4.handlers[1].stage == AwaitProvider(0);
    RunsThen(Init, events, s4, ProviderReplies(1, Sent(Some(other))));
    RetryForgetsExactly(s4, 1, sms, Sent(Some(other)));
    events := events + [ProviderReplies(1, Sent(Some(other)))];
    s := Settle(s4, 1, Sent(Some(other)));
  }
}
