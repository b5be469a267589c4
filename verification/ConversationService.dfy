/** The conversation service's own methods, run without interference, against the tables of SmsModel. */
module ConversationService {
  import opened Basics
  import opened SmsModel

  class Service {
    var conversations: map<Thread, bool>
    var messages: seq<Row>

    constructor ()
      ensures conversations == map[] && messages == []
    {
      conversations, messages := map[], [];
    }

    method FindByProviderId(id: string) returns (found: bool)
      ensures found <==> Taken(messages, Some(id))
    {
      for i := 0 to |messages|
        invariant forall j :: 0 <= j < i ==> messages[j].providerId != Some(id)
      {
        if messages[i].providerId == Some(id) { return true; }
      }
      return false;
    }

    method UpsertConversation(thread: Thread)
      modifies this`conversations
      ensures conversations == old(conversations)[thread := false]
    {
      if thread !in conversations {
        conversations := conversations[thread := false];
      } else if conversations[thread] {
        conversations := conversations[thread := false];
      }
    }

    /** None for a duplicate; otherwise the stored row. Throws are not possible without interference. */
    method ReceiveMessage(sms: Sms) returns (stored: Option<Row>)
      modifies this
      ensures StoresOnce(old(messages), old(conversations), messages, conversations, sms)
      ensures stored == if sms.id != "" && Taken(old(messages), Some(sms.id)) then None else Some(RowOf(sms))
    {
      if sms.id != "" {
        var existing := FindByProviderId(sms.id);
        if existing { return None; }
      }
      UpsertConversation(Thread(sms.to, sms.from));
      var providerId := None;
      if sms.id != "" { providerId := Some(sms.id); }
      var inserted := Row(providerId, Thread(sms.to, sms.from), sms.body, true, DELIVERED);
      messages := messages + [inserted];
      return Some(inserted);
    }

    /**
      A send stores one row and makes its conversation visible. Its status follows the
      provider's reply; the provider's id is recorded unless another row has it.
     */
    method SendMessage(thread: Thread, body: string, reply: Reply) returns (row: Row)
      modifies this
      ensures messages == old(messages) + [row] && conversations == old(conversations)[thread := false]
      ensures row.thread == thread && row.body == body && !row.received
      ensures row.status == if reply.Sent? then SENT else FAILED
      ensures row.providerId == if reply.Sent? && !Taken(old(messages), reply.messageId) then reply.messageId else None
    {
      UpsertConversation(thread);
      var k := |messages|;
      messages := messages + [Row(None, thread, body, false, PENDING)];
      if reply.SendFailed? {
        messages := messages[k := messages[k].(status := FAILED)];
        return messages[k];
      }
      var collides := false;
      if reply.messageId.Some? { collides := FindByProviderId(reply.messageId.value); }
      ghost var before := messages;
      SameTaken(old(messages), before[k], reply.messageId);
      if collides {
        messages := messages[k := messages[k].(status := SENT)];
      } else {
        messages := messages[k := messages[k].(status := SENT, providerId := reply.messageId)];
      }
      return messages[k];
    }
  }

  lemma SameTaken(messages: seq<Row>, row: Row, id: Option<string>)
    requires row.providerId == None
    ensures Taken(messages + [row], id) <==> Taken(messages, id)
  {
    if id.Some? {
      if Taken(messages, id) {
        var i :| 0 <= i < |messages| && messages[i].providerId == id;
        assert (messages + [row])[i].providerId == id;
      }
    }
  }
}
