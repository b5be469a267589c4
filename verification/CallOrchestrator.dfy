/**
  The call orchestrator as it runs: a class whose methods update the id maps, the call
  records and the event loop's queues in place, one method per stretch of code between
  two awaits. Each method is proved to take the abstract state exactly where the
  corresponding event of CallModel takes it, so what is proved there about all runs
  holds of this class.

  `records` stands for the ActiveCall objects, by call id: a suspended answerCall still
  writes its record after endCall has dropped the call from `activeCalls`.
 */
module Orchestrator {
  import opened Basics
  import opened CallModel

  /** What EndCall does to a tracked call besides the messages it sends and the notifications it forgets. */
  function Untracked(s: State, c: Id): State
    requires c in s.calls
  {
    var call := s.calls[c];
    s.(calls := s.calls[c := call.(ended := true, watchdog := None)],
       timers := ClearTimer(s.timers, call.watchdog),
       active := s.active - {c},
       session := s.session - {c},
       provider := s.provider - {call.providerCallId})
  }

  lemma EndTrackedSplits(s: State, c: Id, trigger: Trigger)
    requires c in s.calls
    ensures CallModel.EndTracked(s, c, trigger) ==
            Untracked(s.(log := s.log + EndEffects(c, s.calls[c], trigger, s.now)), c)
              .(notification := WithoutCall(s.notification, c))
  {
  }

  /** The loop that deletes every entry leading to `v`. */
  method RemoveValue<K(==), V(==)>(m: map<K, V>, v: V) returns (r: map<K, V>)
    ensures r == map k | k in m && m[k] != v :: m[k]
  {
    r := m;
    var keys := m.Keys;
    while keys != {}
      invariant keys <= r.Keys <= m.Keys
      invariant forall k <- r :: r[k] == m[k]
      invariant forall k <- m :: k in r <==> k in keys || m[k] != v
      decreases keys
    {
      var k :| k in keys;
      keys := keys - {k};
      if m[k] == v { r := r - {k}; }
    }
  }

  class CallOrchestrator {
    var records: map<Id, Call>
    var activeCalls: set<Id>
    var sessionToCall: map<Id, Id>
    var providerCallToInternal: map<Id, Id>
    var notificationToCall: map<Id, Id>

    // The event loop: clock, pending timers, suspended operations and what was sent.
    var now: int
    var timers: map<int, Timer>
    var nextTimer: int
    var outbound: map<Id, Outbound>
    var inbound: map<Id, Inbound>
    var attempts: map<int, Attempt>
    var nextAttempt: int
    var batches: map<int, Batch>
    var nextBatch: int
    var log: seq<Effect>

    // History: the ids handed out and when each call last went live.
    ghost var issued: set<Id>
    ghost var lastLive: map<Id, int>

    /** The abstract state. */
    ghost function View(): State
      reads this
    {
      State(now, records, activeCalls, sessionToCall, providerCallToInternal, notificationToCall, timers, nextTimer,
            outbound, inbound, attempts, nextAttempt, batches, nextBatch, issued, lastLive, log)
    }

    constructor ()
      ensures View() == Init
    {
      records, activeCalls := map[], {};
      sessionToCall, providerCallToInternal, notificationToCall := map[], map[], map[];
      now, timers, nextTimer, outbound, inbound := 0, map[], 0, map[], map[];
      attempts, nextAttempt, batches, nextBatch, log := map[], 0, map[], 0, [];
      issued, lastLive := {}, map[];
    }

    /** A call id, a notification id or a provider call id, to the call id it stands for. */
    method ResolveToCallId(id: Id) returns (callId: Id)
      ensures callId == Resolve(View(), id)
    {
      if id in activeCalls { return id; }
      if id in notificationToCall {
        var byNotification := notificationToCall[id];
        if byNotification in activeCalls { return byNotification; }
      }
      if id in providerCallToInternal { return providerCallToInternal[id]; }
      return id;
    }

    // ---------------------------------------------------------------- watchdog

    method ArmWatchdog(callId: Id, timeoutMs: int)
      requires callId in records
      modifies this
      ensures View() == CallModel.ArmWatchdog(old(View()), callId, timeoutMs)
    {
      if records[callId].watchdog.Some? {
        timers := timers - {records[callId].watchdog.value};
      }
      timers := timers[nextTimer := Timer(callId, now + timeoutMs)];
      records := records[callId := records[callId].(watchdog := Some(nextTimer))];
      nextTimer := nextTimer + 1;
    }

    /** The timer callback: it has left the queue, and ends the call if that is still needed. */
    method FireWatchdog(timer: int)
      requires activeCalls <= records.Keys && timer in timers
      modifies this
      ensures View() == CallModel.FireWatchdog(old(View()), timer)
    {
      var callId := timers[timer].call;
      timers := timers - {timer};
      if callId !in activeCalls || records[callId].ended { return; }
      EndCall(callId, OtherTrigger);
    }

    // ---------------------------------------------------------------- ending a call

    /** The messages of one teardown in the order they are sent, and the history branch taken. */
    method SendTeardown(callId: Id, call: Call, trigger: Trigger)
      modifies this`log
      ensures log == old(log) + EndEffects(callId, call, trigger, now)
    {
      log := log + [Disconnected(callId)];
      var reason := CallerDisconnect;
      if trigger.Declined? { reason := DeclinedByUser; }
      log := log + [Cancelled(callId, reason)];
      if trigger.ProviderDisconnected? {
        log := log + [DestroySession(callId, 200)];
      } else {
        log := log + [DestroySession(callId, 0)];
      }
      log := log + [Hangup(callId, call.providerCallId)];
      var durationSeconds := None;
      if call.answeredAt.Some? { durationSeconds := Some(RoundSeconds(now - call.answeredAt.value)); }
      if call.inbound && !call.answered {
        if trigger.Declined? {
          log := log + [History(callId, MarkDeclined)];
          log := log + [NotificationResolved(callId)];
        } else {
          log := log + [History(callId, MarkMissed)];
          log := log + [NotificationMissed(callId)];
        }
      } else if durationSeconds.Some? && durationSeconds.value > 0 {
        log := log + [History(callId, SetDuration(durationSeconds.value))];
      } else if !call.inbound && !call.answered {
        log := log + [History(callId, MarkUnanswered)];
      } else {
        log := log + [History(callId, NoUpdate)];
      }
    }

    method EndCall(requestedId: Id, trigger: Trigger)
      requires activeCalls <= records.Keys
      modifies this
      ensures View() == CallModel.EndCall(old(View()), requestedId, trigger)
    {
      var callId := ResolveToCallId(requestedId);
      if callId !in activeCalls { return; }
      if records[callId].ended { return; }
      EndTracked(callId, trigger);
    }

    method EndTracked(callId: Id, trigger: Trigger)
      requires callId in records
      modifies this
      ensures View() == CallModel.EndTracked(old(View()), callId, trigger)
    {
      EndTrackedSplits(View(), callId, trigger);
      SendTeardown(callId, records[callId], trigger);
      Untrack(callId);
      ForgetNotifications(callId);
    }

    method Untrack(callId: Id)
      requires callId in records
      modifies this
      ensures View() == Untracked(old(View()), callId)
    {
      var call := records[callId];
      records := records[callId := call.(ended := true, watchdog := None)];
      timers := ClearTimer(timers, call.watchdog);
      activeCalls := activeCalls - {callId};
      sessionToCall := sessionToCall - {callId};
      providerCallToInternal := providerCallToInternal - {call.providerCallId};
    }

    method ForgetNotifications(callId: Id)
      modifies this`notificationToCall
      ensures notificationToCall == WithoutCall(old(notificationToCall), callId)
    {
      notificationToCall := RemoveValue(notificationToCall, callId);
    }

    // ---------------------------------------------------------------- outbound calls

    method Track(callId: Id, call: Call)
      modifies this
      ensures View() == CallModel.Track(old(View()), callId, call)
    {
      records := records[callId := call];
      activeCalls := activeCalls + {callId};
      sessionToCall := sessionToCall[callId := callId];
      ArmWatchdog(callId, UNANSWERED_WATCHDOG_MS);
    }

    method BeginOutbound(callId: Id, device: Id, echo: bool, wsAudio: bool)
      modifies this
      ensures View() == StartOutbound(old(View()), callId, device, echo, wsAudio)
    {
      issued := issued + {callId};
      outbound := outbound[callId := Outbound(device, echo, wsAudio, CreatingSession)];
    }

    method OutboundSessionSettled(callId: Id, ok: bool)
      requires callId in outbound
      modifies this
      ensures View() == OpenOutbound(old(View()), callId, ok)
    {
      if ok {
        outbound := outbound[callId := outbound[callId].(stage := Dialing)];
      } else {
        outbound := outbound - {callId};
      }
    }

    method OutboundDialSettled(callId: Id, dialed: Option<Id>)
      requires callId in outbound
      modifies this
      ensures View() == DialOutbound(old(View()), callId, dialed)
    {
      if dialed.None? {
        outbound := outbound - {callId};
      } else if outbound[callId].echo {
        FinishOutbound(callId, dialed.value);
      } else {
        outbound := outbound[callId := outbound[callId].(stage := Patching(dialed.value))];
      }
    }

    method FinishOutbound(callId: Id, providerCallId: Id)
      requires callId in outbound
      modifies this
      ensures View() == TrackOutbound(old(View()), callId, providerCallId)
    {
      var request := outbound[callId];
      outbound := outbound - {callId};
      providerCallToInternal := providerCallToInternal[providerCallId := callId];
      Track(callId, Call(providerCallId, false, request.wsAudio, false, Some(request.device), now, None, false, None));
      log := log + [HistoryRecorded(callId, false)];
    }

    // ---------------------------------------------------------------- inbound calls

    method BeginInbound(callId: Id, providerCallId: Id, wsAudio: bool)
      modifies this
      ensures View() == StartInbound(old(View()), callId, providerCallId, wsAudio)
    {
      issued := issued + {callId};
      providerCallToInternal := providerCallToInternal[providerCallId := callId];
      inbound := inbound[callId := OpeningSession(providerCallId, wsAudio)];
    }

    method InboundSessionSettled(callId: Id, ok: bool)
      requires callId in inbound && inbound[callId].OpeningSession?
      modifies this
      ensures View() == OpenInbound(old(View()), callId, ok)
    {
      var request := inbound[callId];
      if !ok {
        providerCallToInternal := providerCallToInternal - {request.providerCallId};
        inbound := inbound - {callId};
        return;
      }
      inbound := inbound[callId := ReadingNumbers];
      Track(callId, Call(request.providerCallId, true, request.wsAudio, false, None, now, None, false, None));
      log := log + [HistoryRecorded(callId, true)];
    }

    method InboundNumbersSettled(callId: Id, ok: bool)
      modifies this
      ensures View() == AnnounceInbound(old(View()), callId, ok)
    {
      if ok {
        inbound := inbound[callId := Notifying];
        log := log + [Ringing(callId)];
      } else {
        inbound := inbound - {callId};
      }
    }

    method NotificationSettled(callId: Id, created: Option<Id>)
      modifies this
      ensures View() == NotifyInbound(old(View()), callId, created)
    {
      inbound := inbound - {callId};
      if created.Some? && callId in activeCalls {
        notificationToCall := notificationToCall[created.value := callId];
      }
    }

    // ---------------------------------------------------------------- answering

    method MarkLive(callId: Id, device: Option<Id>)
      requires callId in records
      modifies this
      ensures View() == GoLive(old(View()), callId, device)
    {
      records := records[callId := records[callId].(answered := true, device := device, answeredAt := Some(now))];
      lastLive := lastLive[callId := now];
      ArmWatchdog(callId, MAX_CALL_DURATION_MS);
    }

    method AnnounceAnswer(callId: Id, device: Id)
      modifies this`log
      ensures View() == FinishAnswer(old(View()), callId, device)
    {
      log := log + [AnsweredElsewhere(callId, device)];
      log := log + [MarkedAnswered(callId, device)];
      log := log + [NotificationResolved(callId)];
      log := log + [AnswerReply(callId, Success)];
    }

    method AnswerCall(requestedId: Id, device: Id)
      requires activeCalls <= records.Keys
      modifies this
      ensures View() == BeginAnswer(old(View()), requestedId, device)
    {
      var callId := ResolveToCallId(requestedId);
      if callId !in activeCalls {
        log := log + [AnswerReply(callId, NotFound)];
        return;
      }
      if records[callId].answered {
        log := log + [AnswerReply(callId, AlreadyAnswered)];
        return;
      }
      MarkLive(callId, Some(device));
      if !records[callId].inbound {
        AnnounceAnswer(callId, device);
        return;
      }
      if records[callId].wsAudio {
        Suspend(callId, device, PatchingSession);
      } else {
        Suspend(callId, device, AwaitingProvider);
        log := log + [AnswerCommand(callId, device)];
      }
    }

    method Suspend(callId: Id, device: Id, stage: AnswerStage)
      modifies this`attempts, this`nextAttempt
      ensures View() == StartAttempt(old(View()), callId, device, stage)
    {
      attempts := attempts[nextAttempt := Attempt(callId, device, stage)];
      nextAttempt := nextAttempt + 1;
    }

    method UndoAnswer(callId: Id)
      requires callId in records
      modifies this`records
      ensures View() == RollBack(old(View()), callId)
    {
      records := records[callId := records[callId].(answered := false, device := None, answeredAt := None)];
    }

    method AnswerPatchSettled(attempt: int, ok: bool)
      requires attempt in attempts && attempts[attempt].call in records
      modifies this
      ensures View() == ContinueAnswer(old(View()), attempt, ok)
    {
      var callId, device := attempts[attempt].call, attempts[attempt].device;
      if !ok {
        attempts := attempts - {attempt};
        UndoAnswer(callId);
        log := log + [AnswerReply(callId, PrepareFailed)];
        return;
      }
      attempts := attempts[attempt := attempts[attempt].(stage := AwaitingProvider)];
      log := log + [AnswerCommand(callId, device)];
    }

    method ProviderAnswerSettled(attempt: int, ok: bool)
      requires attempt in attempts && attempts[attempt].call in records
      modifies this
      ensures View() == SettleAnswer(old(View()), attempt, ok)
    {
      var callId, device := attempts[attempt].call, attempts[attempt].device;
      attempts := attempts - {attempt};
      if !ok {
        UndoAnswer(callId);
        log := log + [AnswerReply(callId, ProviderFailed)];
        return;
      }
      AnnounceAnswer(callId, device);
    }

    // ---------------------------------------------------------------- media events

    method HandleMediaEvent(sessionId: Id, kind: MediaKind)
      requires activeCalls <= records.Keys
      modifies this
      ensures View() == HandleMedia(old(View()), sessionId, kind)
    {
      if sessionId !in sessionToCall { return; }
      var callId := sessionToCall[sessionId];
      if callId !in activeCalls { return; }
      match kind {
        case ProviderGone => EndCall(callId, ProviderDisconnected);
        case ClientGone => EndCall(callId, OtherTrigger);
        case ProviderUp =>
          if !records[callId].answered && !records[callId].inbound { MarkLive(callId, records[callId].device); }
          log := log + [Connected(callId)];
        case ClientUp =>
        case Digit => log := log + [DtmfToClients(callId)];
        case Candidate => log := log + [CandidateTo(callId, records[callId].device)];
      }
    }

    // ---------------------------------------------------------------- bulk operations

    method BeginEndAll(order: seq<Id>)
      modifies this
      ensures View() == StartBatch(old(View()), EndAll(old(activeCalls), order))
    {
      batches := batches[nextBatch := EndAll(activeCalls, order)];
      nextBatch := nextBatch + 1;
    }

    method EndNext(batch: int)
      requires activeCalls <= records.Keys
      requires batch in batches && batches[batch].EndAll? && batches[batch].todo != []
      modifies this
      ensures View() == StepEndAll(old(View()), batch)
    {
      var callId := batches[batch].todo[0];
      batches := batches[batch := EndAll(batches[batch].started, batches[batch].todo[1..])];
      EndCall(callId, OtherTrigger);
    }

    method BeginReconcile(order: seq<Id>)
      modifies this
      ensures View() == StartBatch(old(View()), Reconcile(order, None))
    {
      batches := batches[nextBatch := Reconcile(order, None)];
      nextBatch := nextBatch + 1;
    }

    /** Looks at the next call of the snapshot: only an answered call that has not ended is queried. */
    method ReconcileNext(batch: int)
      requires batch in batches && batches[batch].Reconcile? && batches[batch].todo != []
      requires activeCalls <= records.Keys
      modifies this
      ensures View() == StepReconcile(old(View()), batch)
    {
      var callId := batches[batch].todo[0];
      var querying := Some(callId);
      if callId !in records || records[callId].ended || !records[callId].answered { querying := None; }
      batches := batches[batch := Reconcile(batches[batch].todo[1..], querying)];
    }

    method ReconcileReplied(batch: int, gone: bool)
      requires activeCalls <= records.Keys
      requires batch in batches && batches[batch].Reconcile? && batches[batch].querying.Some?
      modifies this
      ensures View() == ReplyReconcile(old(View()), batch, gone)
    {
      var callId := batches[batch].querying.value;
      batches := batches[batch := Reconcile(batches[batch].todo, None)];
      if gone { EndCall(callId, OtherTrigger); }
    }

    // ---------------------------------------------------------------- shutdown

    /** Cancels the timers of the tracked calls. */
    method StopTimers()
      requires activeCalls <= records.Keys
      modifies this`timers, this`records
      ensures timers == DisposeAll(old(View())).timers && records == DisposeAll(old(View())).calls
    {
      var tracked := records;
      timers := map t | t in timers && !(exists c <- activeCalls :: tracked[c].watchdog == Some(t)) :: timers[t];
      records := map c | c in tracked :: if c in activeCalls then tracked[c].(watchdog := None) else tracked[c];
    }

    /** dispose: the timers go, then the maps. */
    method Shutdown()
      requires activeCalls <= records.Keys
      modifies this
      ensures View() == DisposeAll(old(View()))
    {
      StopTimers();
      activeCalls := {};
      sessionToCall := map[];
      providerCallToInternal := map[];
      notificationToCall := map[];
    }
  }
}
