/**
  Delivery of inbound SMS as a protocol: a gateway that buffers every SMS until it is
  acknowledged, a link that loses, delays and duplicates, and a server whose handlers
  (inbound deliveries and outbound sends) interleave at every database statement, fail at
  any of them, and vanish in crashes. Tables survive crashes; a statement is one step.
 */
module SmsModel {
  import opened Basics

  /** A conversation is identified by the own number and the remote one. */
  datatype Thread = Thread(provider: string, phone: string)

  datatype Sms = Sms(id: string, from: string, to: string, body: string)

  datatype Status = PENDING | SENT | FAILED | DELIVERED

  datatype Row = Row(providerId: Option<string>, thread: Thread, body: string, received: bool, status: Status)

  datatype Job = Receive(sms: Sms) | Send(thread: Thread, body: string) | Resend(thread: Thread, body: string)

  /**
    The statement a handler runs next; AwaitProvider waits for sendSms with its row in place,
    Requeue retries a row.
   */
  datatype Stage =
    | Lookup | SelectThread | InsertThread | Unremove | InsertRow
    | Requeue(row: int) | AwaitProvider(row: int) | Touch

  datatype Handler = Handler(job: Job, stage: Stage)

  /** What sendSms reports: a failure (or a throw), or success with a message id that may be missing. */
  datatype Reply = SendFailed | Sent(messageId: Option<string>)

  datatype State = State(
    received: set<Sms>,             // every SMS the gateway ever received
    buffer: set<Sms>,               // those it still holds
    wire: set<Sms>,                 // those ever transmitted: each may arrive any number of times
    acks: set<string>,              // acknowledgements sent, possibly lost
    conversations: map<Thread, bool>, // the rows, with their removed flag
    messages: seq<Row>,             // rows are never deleted
    handlers: map<int, Handler>,
    nextHandler: int)

  const Init := State({}, {}, {}, {}, map[], [], map[], 0)

  datatype Event =
    | GatewayReceives(sms: Sms)
    | Transmit(sms: Sms)
    | Deliver(sms: Sms)
    | BeginSend(thread: Thread, body: string)
    | BeginRetry(row: int)
    | Receipt(id: string, status: Status)
    | Run(handler: int)
    | Fail(handler: int)
    | ProviderReplies(handler: int, reply: Reply)
    | Hide(thread: Thread)
    | AckArrives(id: string)
    | Crash

  function ThreadOf(job: Job): Thread {
    match job
    case Receive(sms) => Thread(sms.to, sms.from)
    case Send(thread, _) => thread
    case Resend(thread, _) => thread
  }

  /** The row an SMS is stored as; an empty id is stored as NULL. */
  function RowOf(sms: Sms): Row {
    Row(if sms.id == "" then None else Some(sms.id), Thread(sms.to, sms.from), sms.body, true, DELIVERED)
  }

  predicate Taken(messages: seq<Row>, id: Option<string>) {
    id.Some? && exists i :: 0 <= i < |messages| && messages[i].providerId == id
  }

  /** A row as it was inserted, whatever status a receipt has given it since. */
  function AsInserted(row: Row): Row { if row.received then row.(status := DELIVERED) else row }

  ghost predicate Stored(messages: seq<Row>, sms: Sms) {
    exists i :: 0 <= i < |messages| && AsInserted(messages[i]) == RowOf(sms)
  }

  /**
    What an undisturbed delivery does to the tables: nothing for a known id, else one row and
    a visible conversation.
   */
  predicate StoresOnce(messages: seq<Row>, conversations: map<Thread, bool>,
                       messages': seq<Row>, conversations': map<Thread, bool>, sms: Sms) {
    if sms.id != "" && Taken(messages, Some(sms.id)) then
      messages' == messages && conversations' == conversations
    else
      messages' == messages + [RowOf(sms)] && conversations' == conversations[Thread(sms.to, sms.from) := false]
  }

  /** What can happen next at all. */
  ghost predicate Possible(s: State, e: Event) {
    match e
    case GatewayReceives(_) => true
    case Transmit(sms) => sms in s.buffer
    case Deliver(sms) => sms in s.wire
    case BeginSend(_, _) => true
    case BeginRetry(row) => 0 <= row < |s.messages| && s.messages[row].status == FAILED
    case Receipt(_, _) => true
    case Run(h) => h in s.handlers && Runnable(s, s.handlers[h].stage)
    case Fail(h) => h in s.handlers
    case ProviderReplies(h, reply) =>
      h in s.handlers && s.handlers[h].stage.AwaitProvider? && 0 <= s.handlers[h].stage.row < |s.messages|
    case Hide(_) => true
    case AckArrives(id) => id in s.acks
    case Crash => true
  }

  /**
    Assumptions on the environment: the gateway numbers its SMS apart from each other and
    from sent messages, and only sent messages are retried. The lemmas SentIdShadowsExactly
    and RetryForgetsExactly show what each of them is needed for.
   */
  ghost predicate Assumed(s: State, e: Event) {
    match e
    case GatewayReceives(sms) =>
      sms.id != "" ==> !Taken(s.messages, Some(sms.id)) && forall m <- s.received :: m.id != sms.id
    case ProviderReplies(_, reply) =>
      reply.Sent? && reply.messageId.Some? && reply.messageId.value != "" ==>
        forall m <- s.received :: m.id != reply.messageId.value
    case BeginRetry(row) => 0 <= row < |s.messages| && !s.messages[row].received
    case _ => true
  }

  ghost predicate Enabled(s: State, e: Event) { Possible(s, e) && Assumed(s, e) }

  /** A statement can run: the provider is not being waited for, and a row to requeue is there. */
  predicate Runnable(s: State, stage: Stage) {
    !stage.AwaitProvider? && (stage.Requeue? ==> 0 <= stage.row < |s.messages|)
  }

  function Start(s: State, job: Job, stage: Stage): State {
    s.(handlers := s.handlers[s.nextHandler := Handler(job, stage)], nextHandler := s.nextHandler + 1)
  }

  function Goto(s: State, h: int, stage: Stage): State
    requires h in s.handlers
  {
    s.(handlers := s.handlers[h := s.handlers[h].(stage := stage)])
  }

  function Finish(s: State, h: int): State { s.(handlers := s.handlers - {h}) }

  /** ackIncomingSms: nothing is sent for an empty id. */
  function Ack(s: State, job: Job): State {
    if job.Receive? && job.sms.id != "" then s.(acks := s.acks + {job.sms.id}) else s
  }

  function AfterSelect(s: State, thread: Thread): Stage {
    if thread !in s.conversations then InsertThread else if s.conversations[thread] then Unremove else InsertRow
  }

  /** The statement of a handler succeeds, except where a key constraint makes it throw. */
  function RunNext(s: State, h: int): State
    requires h in s.handlers && Runnable(s, s.handlers[h].stage)
  {
    var job, stage := s.handlers[h].job, s.handlers[h].stage;
    var thread := ThreadOf(job);
    match stage
    case Lookup =>
      if job.Receive? && job.sms.id != "" && Taken(s.messages, Some(job.sms.id)) then Ack(Finish(s, h), job)
      else Goto(s, h, SelectThread)
    case SelectThread =>
      Goto(s, h, AfterSelect(s, thread))
    case InsertThread =>
      if thread in s.conversations then Finish(s, h)
      else Goto(s.(conversations := s.conversations[thread := false]), h, InsertRow)
    case Unremove =>
      Goto(if thread in s.conversations then s.(conversations := s.conversations[thread := false]) else s, h, InsertRow)
    case InsertRow => InsertMessage(s, h)
    case Requeue(row) =>
      Goto(s.(messages := s.messages[row := s.messages[row].(status := PENDING)]), h, AwaitProvider(row))
    case Touch => Ack(Finish(s, h), job)
  }

  function InsertMessage(s: State, h: int): State
    requires h in s.handlers
  {
    match s.handlers[h].job
    case Receive(sms) =>
      if Taken(s.messages, RowOf(sms).providerId) then Finish(s, h)
      else Goto(s.(messages := s.messages + [RowOf(sms)]), h, Touch)
    case _ =>
      var thread, body := s.handlers[h].job.thread, s.handlers[h].job.body;
      Goto(s.(messages := s.messages + [Row(None, thread, body, false, PENDING)]), h, AwaitProvider(|s.messages|))
  }

  /** After sendSms: on a key collision a first send advances without the id, a retry throws. */
  function Settle(s: State, h: int, reply: Reply): State
    requires h in s.handlers && s.handlers[h].stage.AwaitProvider? && 0 <= s.handlers[h].stage.row < |s.messages|
  {
    var row, retry := s.handlers[h].stage.row, s.handlers[h].job.Resend?;
    var m := s.messages[row];
    var collides := reply.Sent? && Taken(s.messages[row := m.(providerId := None)], reply.messageId);
    var updated := match reply
      case SendFailed => m.(status := FAILED)
      case Sent(id) => if collides then m.(status := SENT) else m.(status := SENT, providerId := id);
    if retry && collides then Finish(s, h)
    else if retry then Finish(s.(messages := s.messages[row := updated]), h)
    else Goto(s.(messages := s.messages[row := updated]), h, Touch)
  }

  /** A delivery receipt: the rows with its id take its status. */
  function WithStatus(messages: seq<Row>, id: string, status: Status): (r: seq<Row>)
    ensures |r| == |messages|
    ensures forall i :: 0 <= i < |r| ==>
                          r[i] == if messages[i].providerId == Some(id) then messages[i].(status := status)
                                  else messages[i]
  {
    seq(|messages|, i requires 0 <= i < |messages| =>
      if messages[i].providerId == Some(id) then messages[i].(status := status) else messages[i])
  }

  ghost function Apply(s: State, e: Event): State
    requires Possible(s, e)
  {
    match e
    case GatewayReceives(sms) => s.(received := s.received + {sms}, buffer := s.buffer + {sms})
    case Transmit(sms) => s.(wire := s.wire + {sms})
    case Deliver(sms) => Start(s, Receive(sms), Lookup)
    case BeginSend(thread, body) => Start(s, Send(thread, body), SelectThread)
    case BeginRetry(row) => Start(s, Resend(s.messages[row].thread, s.messages[row].body), Requeue(row))
    case Receipt(id, status) => s.(messages := WithStatus(s.messages, id, status))
    case Run(h) => RunNext(s, h)
    case Fail(h) => Finish(s, h)
    case ProviderReplies(h, reply) => Settle(s, h, reply)
    case Hide(thread) =>
      if thread in s.conversations then s.(conversations := s.conversations[thread := true]) else s
    case AckArrives(id) => s.(buffer := set m | m in s.buffer && m.id != id)
    case Crash => s.(handlers := map[])
  }
}
