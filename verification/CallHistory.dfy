/**
  What the orchestrator's log says about a call and what its record says are the same: in
  every reachable state the answer fields of a record can be read off the messages sent and
  the answers still in flight, and a tracked call's deadline off its answer fields.
 */
module CallHistory {
  import opened Basics
  import opened CallModel
  import opened CallInvariant
  import opened CallSafety
  import opened CallTheorems

  /** An answer to the call was attempted and its failure reported. */
  ghost predicate AnswerFailed(s: State, c: Id) {
    AnswerReply(c, PrepareFailed) in s.log || AnswerReply(c, ProviderFailed) in s.log
  }

  /**
    An inbound call is answered while an attempt is in flight or after its one success, an
    outbound call once its media connected or an answer to it succeeded.
   */
  ghost predicate AnswerTold(s: State, c: Id) {
    c in s.calls ==>
      if s.calls[c].inbound then s.calls[c].answered <==> Attempted(s, c) || AnswerReply(c, Success) in s.log
      else s.calls[c].answered <==> Connected(c) in s.log || AnswerReply(c, Success) in s.log
  }

  /** When the call last went live: when it was answered, or, after roll-backs, at some failed answer. */
  ghost predicate LiveTold(s: State, c: Id) {
    && (c in s.calls && s.calls[c].answered ==> c in s.lastLive && s.calls[c].answeredAt == Some(s.lastLive[c]))
    && (c in s.lastLive ==> c in s.calls && (s.calls[c].answered || AnswerFailed(s, c)))
    && (AnswerFailed(s, c) ==> c in s.lastLive)
  }

  /** The winner of a call is announced to everybody under the device its record keeps. */
  ghost predicate WinnerTold(s: State, c: Id, d: Id) {
    && (MarkedAnswered(c, d) in s.log <==> AnsweredElsewhere(c, d) in s.log)
    && (MarkedAnswered(c, d) in s.log <==>
          c in s.calls && s.calls[c].device == Some(d) && AnswerReply(c, Success) in s.log)
  }

  /** A missed notification goes with a missed history entry. */
  ghost predicate EndTold(s: State, c: Id) {
    NotificationMissed(c) in s.log <==> History(c, MarkMissed) in s.log
  }

  ghost predicate Told(s: State, c: Id) {
    && (Connected(c) in s.log ==> c in s.calls)
    && AnswerTold(s, c) && LiveTold(s, c) && EndTold(s, c)
    && forall d {:trigger WinnerTold(s, c, d)} :: WinnerTold(s, c, d)
  }

  ghost predicate AllTold(s: State) { forall c {:trigger Told(s, c)} :: Told(s, c) }

  // ---------------------------------------------------------------- steps that say nothing about an answer

  /** Messages that report how an answer went, or that the call's media connected. */
  predicate AboutAnswer(e: Effect) {
    e.Connected? || e.AnsweredElsewhere? || e.MarkedAnswered?
    || (e.AnswerReply? && (e.result.Success? || e.result.PrepareFailed? || e.result.ProviderFailed?))
  }

  /** The answer fields of one record, the attempts at it and when it was live are the same. */
  ghost predicate SameAnswer(s: State, s': State, c: Id) {
    && (c in s'.calls <==> c in s.calls)
    && (c in s.calls ==>
          && s'.calls[c].inbound == s.calls[c].inbound && s'.calls[c].answered == s.calls[c].answered
          && s'.calls[c].device == s.calls[c].device && s'.calls[c].answeredAt == s.calls[c].answeredAt)
    && (Attempted(s', c) <==> Attempted(s, c)) && SameLive(s, s', c)
  }

  lemma StaysTold(s: State, s': State, effects: seq<Effect>, c: Id)
    requires Told(s, c) && SameAnswer(s, s', c) && s'.log == s.log + effects
    requires forall e <- effects :: AboutAnswer(e) ==> e.call != c
    requires NotificationMissed(c) in effects <==> History(c, MarkMissed) in effects
    ensures Told(s', c)
  {
    forall e: Effect | e.Connected? || e.AnswerReply? || e.MarkedAnswered? || e.AnsweredElsewhere?
      ensures e in s'.log <==> e in s.log || e in effects
    {
    }
    forall d ensures WinnerTold(s', c, d) {
      assert WinnerTold(s, c, d);
    }
  }

  lemma QuietStaysTold(s: State, s': State, effects: seq<Effect>)
    requires AllTold(s) && s'.log == s.log + effects
    requires forall c {:trigger SameAnswer(s, s', c)} :: SameAnswer(s, s', c)
    requires forall e <- effects :: !AboutAnswer(e) && !e.NotificationMissed? && !(e.History? && e.update == MarkMissed)
    ensures AllTold(s')
  {
    forall c ensures Told(s', c) {
      assert Told(s, c) && SameAnswer(s, s', c);
      StaysTold(s, s', effects, c);
    }
  }

  /** A step after which all records and attempts are the same. */
  lemma SilentStaysTold(s: State, s': State)
    requires AllTold(s) && s'.log == s.log && s'.attempts == s.attempts && s'.lastLive == s.lastLive
    requires s'.calls == s.calls
    ensures AllTold(s')
  {
    forall c ensures SameAnswer(s, s', c) {}
    assert s'.log == s.log + [];
    QuietStaysTold(s, s', []);
  }

  lemma SayingStaysTold(s: State, s': State, e: Effect)
    requires AllTold(s) && s'.log == s.log + [e] && s'.attempts == s.attempts && s'.lastLive == s.lastLive
    requires s'.calls == s.calls && !AboutAnswer(e) && !e.NotificationMissed? && !e.History?
    ensures AllTold(s')
  {
    forall c ensures SameAnswer(s, s', c) {}
    QuietStaysTold(s, s', [e]);
  }

  // ---------------------------------------------------------------- ending

  lemma EndSays(c: Id, call: Call, trigger: Trigger, now: int)
    ensures forall e <- EndEffects(c, call, trigger, now) :: !AboutAnswer(e)
    ensures forall d :: NotificationMissed(d) in EndEffects(c, call, trigger, now) <==>
                        History(d, MarkMissed) in EndEffects(c, call, trigger, now)
  {
    var effects := EndEffects(c, call, trigger, now);
    assert effects[4] == History(c, EndHistory(call, trigger, now));
    if EndHistory(call, trigger, now).MarkMissed? { assert effects[5] == NotificationMissed(c); }
  }

  lemma EndTrackedTells(s: State, c: Id, trigger: Trigger)
    requires AllTold(s) && c in s.calls
    ensures AllTold(EndTracked(s, c, trigger))
  {
    var s' := EndTracked(s, c, trigger);
    var effects := EndEffects(c, s.calls[c], trigger, s.now);
    EndSays(c, s.calls[c], trigger, s.now);
    forall d ensures Told(s', d) {
      assert Told(s, d) && SameAnswer(s, s', d);
      StaysTold(s, s', effects, d);
    }
  }

  lemma EndCallTells(s: State, requested: Id, trigger: Trigger)
    requires AllTold(s) && s.active <= s.calls.Keys
    ensures AllTold(EndCall(s, requested, trigger))
  {
    var c := Resolve(s, requested);
    if c in s.active && !s.calls[c].ended { EndTrackedTells(s, c, trigger); }
  }

  lemma FireTells(s: State, t: int)
    requires AllTold(s) && s.active <= s.calls.Keys && t in s.timers
    ensures AllTold(FireWatchdog(s, t))
  {
    var s1 := s.(timers := s.timers - {t});
    SilentStaysTold(s, s1);
    EndCallTells(s1, s.timers[t].call, OtherTrigger);
  }

  lemma EndAllTells(s: State, b: int)
    requires AllTold(s) && s.active <= s.calls.Keys && b in s.batches && s.batches[b].EndAll? && s.batches[b].todo != []
    ensures AllTold(StepEndAll(s, b))
  {
    EndCallTells(s, s.batches[b].todo[0], OtherTrigger);
    SilentStaysTold(EndCall(s, s.batches[b].todo[0], OtherTrigger), StepEndAll(s, b));
  }

  lemma ReplyTells(s: State, b: int, gone: bool)
    requires AllTold(s) && s.active <= s.calls.Keys && b in s.batches && s.batches[b].Reconcile?
    requires s.batches[b].querying.Some?
    ensures AllTold(ReplyReconcile(s, b, gone))
  {
    var s1 := s.(batches := s.batches[b := Reconcile(s.batches[b].todo, None)]);
    SilentStaysTold(s, s1);
    EndCallTells(s1, s.batches[b].querying.value, OtherTrigger);
  }

  lemma DisposeTells(s: State)
    requires AllTold(s) && s.active <= s.calls.Keys
    ensures AllTold(DisposeAll(s))
  {
    var s' := DisposeAll(s);
    forall c ensures SameAnswer(s, s', c) {}
    assert s'.log == s.log + [];
    QuietStaysTold(s, s', []);
  }

  // ---------------------------------------------------------------- tracking

  /** An id without a record has said nothing. */
  lemma {:induction false} Unheard(s: State, c: Id)
    requires Inv(s) && AllTold(s) && c !in s.calls
    ensures !Attempted(s, c) && c !in s.lastLive && !AnswerFailed(s, c)
    ensures Connected(c) !in s.log && AnswerReply(c, Success) !in s.log
  {
    Parts(s);
    assert Told(s, c);
    SuccessSaid(s.log, c);
  }

  lemma {:induction false} SuccessSaid(log: seq<Effect>, c: Id)
    ensures Successes(log, c) > 0 <==> AnswerReply(c, Success) in log
  {
    if log != [] {
      SuccessSaid(log[1..], c);
      assert log == [log[0]] + log[1..];
    }
  }

  /** The state after a step that gives c its first record. */
  ghost predicate Births(s: State, s': State, c: Id) {
    && s'.calls.Keys == s.calls.Keys + {c} && (forall d <- s.calls :: s'.calls[d] == s.calls[d])
    && !s'.calls[c].answered && s'.attempts == s.attempts && s'.lastLive == s.lastLive
  }

  lemma BirthTells(s: State, s': State, c: Id, effect: Effect)
    requires Inv(s) && AllTold(s) && c !in s.calls && Births(s, s', c)
    requires effect.HistoryRecorded? && s'.log == s.log + [effect]
    ensures AllTold(s')
  {
    forall d ensures Told(s', d) {
      assert Told(s, d);
      if d == c {
        Unheard(s, c);
        forall e ensures WinnerTold(s', c, e) { assert WinnerTold(s, c, e); }
      } else {
        assert SameAnswer(s, s', d);
        StaysTold(s, s', [effect], d);
      }
    }
  }

  lemma TrackInboundTells(s: State, c: Id, p: Id, wsAudio: bool)
    requires Inv(s) && AllTold(s) && c !in s.calls
    ensures AllTold(TrackInbound(s, c, p, wsAudio))
  {
    BirthTells(s, TrackInbound(s, c, p, wsAudio), c, HistoryRecorded(c, true));
  }

  lemma TrackOutboundTells(s: State, c: Id, p: Id)
    requires Inv(s) && AllTold(s) && c !in s.calls && c in s.outbound
    ensures AllTold(TrackOutbound(s, c, p))
  {
    BirthTells(s, TrackOutbound(s, c, p), c, HistoryRecorded(c, false));
  }

  lemma DialTells(s: State, id: Id, dialed: Option<Id>)
    requires Inv(s) && AllTold(s) && id in s.outbound && id !in s.calls
    ensures AllTold(DialOutbound(s, id, dialed))
  {
    if dialed.Some? && s.outbound[id].echo {
      TrackOutboundTells(s, id, dialed.value);
    } else {
      SilentStaysTold(s, DialOutbound(s, id, dialed));
    }
  }

  lemma OpenTells(s: State, id: Id, ok: bool)
    requires Inv(s) && AllTold(s) && id in s.inbound && s.inbound[id].OpeningSession? && id !in s.calls
    ensures AllTold(OpenInbound(s, id, ok))
  {
    if ok {
      TrackInboundTells(s, id, s.inbound[id].providerCallId, s.inbound[id].wsAudio);
    } else {
      SilentStaysTold(s, OpenInbound(s, id, ok));
    }
  }

  lemma AnnounceTells(s: State, id: Id, ok: bool)
    requires AllTold(s)
    ensures AllTold(AnnounceInbound(s, id, ok))
  {
    if ok {
      SayingStaysTold(s, AnnounceInbound(s, id, ok), Ringing(id));
    } else {
      SilentStaysTold(s, AnnounceInbound(s, id, ok));
    }
  }

  lemma NotifyTells(s: State, id: Id, created: Option<Id>)
    requires AllTold(s)
    ensures AllTold(NotifyInbound(s, id, created))
  {
    var s' := NotifyInbound(s, id, created);
    assert s'.calls == s.calls && s'.log == s.log && s'.attempts == s.attempts && s'.lastLive == s.lastLive;
    SilentStaysTold(s, s');
  }

  lemma OutboundTells(s: State, e: Event)
    requires Inv(s) && AllTold(s) && Enabled(s, e)
    requires e.OutboundStart? || e.OutboundSession? || e.OutboundDialed? || e.OutboundPatched?
    ensures AllTold(Apply(s, e))
  {
    match e
    case OutboundStart(id, device, echo, wsAudio) => SilentStaysTold(s, StartOutbound(s, id, device, echo, wsAudio));
    case OutboundSession(id, ok) => SilentStaysTold(s, OpenOutbound(s, id, ok));
    case OutboundDialed(id, dialed) =>
      SetupIsUntracked(s, id);
      DialTells(s, id, dialed);
    case OutboundPatched(id) =>
      SetupIsUntracked(s, id);
      TrackOutboundTells(s, id, s.outbound[id].stage.providerCallId);
  }

  lemma InboundTells(s: State, e: Event)
    requires Inv(s) && AllTold(s) && Enabled(s, e)
    requires e.InboundStart? || e.InboundSession? || e.InboundNumbers? || e.InboundNotified?
    ensures AllTold(Apply(s, e))
  {
    match e
    case InboundStart(id, p, wsAudio) => SilentStaysTold(s, StartInbound(s, id, p, wsAudio));
    case InboundSession(id, ok) =>
      SetupIsUntracked(s, id);
      OpenTells(s, id, ok);
    case InboundNumbers(id, ok) => AnnounceTells(s, id, ok);
    case InboundNotified(id, created) => NotifyTells(s, id, created);
  }

  // ---------------------------------------------------------------- answering

  /** An unanswered call has no success behind it and no attempt in flight. */
  lemma {:induction false} UnansweredUnsaid(s: State, c: Id)
    requires Inv(s) && c in s.calls && !s.calls[c].answered
    ensures AnswerReply(c, Success) !in s.log && !Attempted(s, c)
  {
    Parts(s);
    UnansweredIsFree(s, c);
    SuccessSaid(s.log, c);
  }

  /** All but one call are as before. */
  ghost predicate SameOthers(s: State, s': State, c: Id) {
    forall d {:trigger SameAnswer(s, s', d)} :: d != c ==> SameAnswer(s, s', d)
  }

  lemma OthersStayTold(s: State, s': State, effects: seq<Effect>, c: Id)
    requires AllTold(s) && SameOthers(s, s', c) && s'.log == s.log + effects
    requires forall e <- effects :: (AboutAnswer(e) ==> e.call == c) && !e.NotificationMissed? && !e.History?
    ensures forall d :: d != c ==> Told(s', d)
  {
    forall d | d != c ensures Told(s', d) {
      assert Told(s, d) && SameAnswer(s, s', d);
      StaysTold(s, s', effects, d);
    }
  }

  /** The state after a step in which the call goes live. */
  ghost predicate Answers(s: State, s': State, c: Id) {
    && c in s.calls && !s.calls[c].answered
    && c in s'.calls && s'.calls[c].inbound == s.calls[c].inbound && s'.calls[c].answered
    && s'.calls[c].answeredAt == Some(s.now) && c in s'.lastLive && s'.lastLive[c] == s.now
    && SameOthers(s, s', c)
  }

  lemma MediaUpTells(s: State, c: Id)
    requires Inv(s) && AllTold(s) && c in s.active && !s.calls[c].answered && !s.calls[c].inbound
    ensures AllTold(Say(GoLive(s, c, s.calls[c].device), [Connected(c)]))
  {
    var s' := Say(GoLive(s, c, s.calls[c].device), [Connected(c)]);
    assert forall d :: Attempted(s', d) <==> Attempted(s, d);
    assert Answers(s, s', c);
    OthersStayTold(s, s', [Connected(c)], c);
    UnansweredUnsaid(s, c);
    assert Told(s, c);
    forall d ensures WinnerTold(s', c, d) { assert WinnerTold(s, c, d); }
    assert Connected(c) in s'.log by { assert s'.log[|s.log|] == Connected(c); }
    assert Told(s', c);
  }

  lemma OutboundAnswerTells(s: State, c: Id, device: Id)
    requires Inv(s) && AllTold(s) && c in s.active && !s.calls[c].answered && !s.calls[c].inbound
    ensures AllTold(FreshAnswer(s, c, device))
  {
    var s' := FreshAnswer(s, c, device);
    assert forall d :: Attempted(s', d) <==> Attempted(s, d);
    assert Answers(s, s', c);
    UnansweredUnsaid(s, c);
    SucceedTells(s, s', c, device);
  }

  lemma WinnerFirstTold(s: State, s': State, c: Id, device: Id, d: Id)
    requires Told(s, c) && c in s.calls && AnswerReply(c, Success) !in s.log
    requires c in s'.calls && s'.calls[c].device == Some(device)
    requires s'.log == s.log + [AnsweredElsewhere(c, device), MarkedAnswered(c, device), NotificationResolved(c),
                                AnswerReply(c, Success)]
    ensures WinnerTold(s', c, d)
  {
    assert WinnerTold(s, c, d);
    assert s'.log[|s.log|] == AnsweredElsewhere(c, device) && s'.log[|s.log| + 1] == MarkedAnswered(c, device);
    assert s'.log[|s.log| + 3] == AnswerReply(c, Success);
  }

  lemma SucceedTells(s: State, s': State, c: Id, device: Id)
    requires AllTold(s) && SameOthers(s, s', c) && c in s.calls && AnswerReply(c, Success) !in s.log
    requires c in s'.calls && s'.calls[c].answered && s'.calls[c].device == Some(device)
    requires c in s'.lastLive && s'.calls[c].answeredAt == Some(s'.lastLive[c])
    requires s'.log == s.log + [AnsweredElsewhere(c, device), MarkedAnswered(c, device), NotificationResolved(c),
                                AnswerReply(c, Success)]
    ensures AllTold(s')
  {
    var effects := [AnsweredElsewhere(c, device), MarkedAnswered(c, device), NotificationResolved(c),
                    AnswerReply(c, Success)];
    OthersStayTold(s, s', effects, c);
    assert Told(s, c);
    assert AnswerReply(c, Success) == effects[3] && AnswerReply(c, Success) in s'.log;
    forall d ensures WinnerTold(s', c, d) { WinnerFirstTold(s, s', c, device, d); }
    assert Told(s', c);
  }

  lemma AttemptBegun(s: State, s': State, c: Id, device: Id, stage: AnswerStage)
    requires AnswersExclusive(s) && s'.attempts == s.attempts[s.nextAttempt := Attempt(c, device, stage)]
    ensures Attempted(s', c)
    ensures forall d :: d != c ==> (Attempted(s', d) <==> Attempted(s, d))
  {
    assert s.nextAttempt !in s.attempts;
    assert s'.attempts[s.nextAttempt].call == c;
    forall d | d != c ensures Attempted(s', d) <==> Attempted(s, d) {
      if a :| a in s.attempts && s.attempts[a].call == d { assert s'.attempts[a].call == d; }
    }
  }

  lemma WaitTells(s: State, s': State, c: Id, effects: seq<Effect>)
    requires Inv(s) && AllTold(s) && Answers(s, s', c) && s.calls[c].inbound && Attempted(s', c)
    requires s'.log == s.log + effects && forall e <- effects :: e.AnswerCommand?
    ensures AllTold(s')
  {
    OthersStayTold(s, s', effects, c);
    UnansweredUnsaid(s, c);
    assert Told(s, c);
    forall d ensures WinnerTold(s', c, d) { assert WinnerTold(s, c, d); }
    assert Told(s', c);
  }

  lemma FreshInboundAnswers(s: State, c: Id, device: Id)
    requires AnswersExclusive(s) && c in s.calls && !s.calls[c].answered && s.calls[c].inbound
    ensures Answers(s, FreshAnswer(s, c, device), c) && Attempted(FreshAnswer(s, c, device), c)
    ensures FreshAnswer(s, c, device).log ==
            s.log + (if s.calls[c].wsAudio then [] else [AnswerCommand(c, device)])
  {
    var s' := FreshAnswer(s, c, device);
    AttemptBegun(s, s', c, device, if s.calls[c].wsAudio then PatchingSession else AwaitingProvider);
  }

  lemma InboundAnswerTells(s: State, c: Id, device: Id)
    requires Inv(s) && AllTold(s) && c in s.active && !s.calls[c].answered && s.calls[c].inbound
    ensures AllTold(FreshAnswer(s, c, device))
  {
    var s' := FreshAnswer(s, c, device);
    Parts(s);
    FreshInboundAnswers(s, c, device);
    WaitTells(s, s', c, if s.calls[c].wsAudio then [] else [AnswerCommand(c, device)]);
  }

  lemma BeginAnswerTells(s: State, requested: Id, device: Id)
    requires Inv(s) && AllTold(s)
    ensures AllTold(BeginAnswer(s, requested, device))
  {
    var c := Resolve(s, requested);
    if c !in s.active {
      SayingStaysTold(s, BeginAnswer(s, requested, device), AnswerReply(c, NotFound));
    } else if s.calls[c].answered {
      SayingStaysTold(s, BeginAnswer(s, requested, device), AnswerReply(c, AlreadyAnswered));
    } else if s.calls[c].inbound {
      InboundAnswerTells(s, c, device);
    } else {
      OutboundAnswerTells(s, c, device);
    }
  }

  /** After an attempt is gone nobody tries to answer its call, and no other call's attempts change. */
  lemma AttemptGone(s: State, s': State, a: int)
    requires AnswersExclusive(s) && a in s.attempts && s'.attempts == s.attempts - {a}
    ensures !Attempted(s', s.attempts[a].call)
    ensures forall d :: d != s.attempts[a].call ==> (Attempted(s', d) <==> Attempted(s, d))
  {
    forall d | d != s.attempts[a].call ensures Attempted(s', d) <==> Attempted(s, d) {
      if b :| b in s.attempts && s.attempts[b].call == d { assert b in s'.attempts && s'.attempts[b].call == d; }
    }
  }

  /** The state after an attempt at the call has failed. */
  ghost predicate Fails(s: State, s': State, c: Id) {
    && c in s.calls && c in s.lastLive && AnswerReply(c, Success) !in s.log
    && c in s'.calls && s'.calls[c].inbound && s.calls[c].inbound && !s'.calls[c].answered
    && c in s'.lastLive && !Attempted(s', c) && SameOthers(s, s', c)
  }

  lemma FailureTells(s: State, s': State, c: Id, reply: AnswerResult)
    requires AllTold(s) && Fails(s, s', c) && (reply == PrepareFailed || reply == ProviderFailed)
    requires s'.log == s.log + [AnswerReply(c, reply)]
    ensures AllTold(s')
  {
    OthersStayTold(s, s', [AnswerReply(c, reply)], c);
    assert Told(s, c);
    assert AnswerReply(c, reply) in s'.log by { assert s'.log[|s.log|] == AnswerReply(c, reply); }
    forall d ensures WinnerTold(s', c, d) { assert WinnerTold(s, c, d); }
    assert Told(s', c);
  }

  lemma {:induction false} WithdrawFails(s: State, a: int, s': State)
    requires AnswersExclusive(s) && a in s.attempts && s.attempts[a].call in s.lastLive
    requires s' == Withdraw(s, a).(log := s'.log)
    ensures Fails(s, s', s.attempts[a].call)
  {
    AttemptGone(s, s', a);
    AttemptChanges(s, a);
    SuccessSaid(s.log, s.attempts[a].call);
  }

  lemma FailTells(s: State, a: int, reply: AnswerResult)
    requires Inv(s) && AllTold(s) && a in s.attempts && (reply == PrepareFailed || reply == ProviderFailed)
    ensures AllTold(Say(Withdraw(s, a), [AnswerReply(s.attempts[a].call, reply)]))
  {
    Parts(s);
    var c := s.attempts[a].call;
    var s' := Say(Withdraw(s, a), [AnswerReply(c, reply)]);
    assert Told(s, c);
    WithdrawFails(s, a, s');
    FailureTells(s, s', c, reply);
  }

  lemma ContinueTells(s: State, a: int, ok: bool)
    requires Inv(s) && AllTold(s) && a in s.attempts
    ensures AllTold(ContinueAnswer(s, a, ok))
  {
    var s' := ContinueAnswer(s, a, ok);
    var t := s.attempts[a];
    if ok {
      forall c ensures SameAnswer(s, s', c) {
        if b :| b in s.attempts && s.attempts[b].call == c { assert s'.attempts[b].call == c; }
        if b :| b in s'.attempts && s'.attempts[b].call == c { assert s.attempts[b].call == c; }
      }
      QuietStaysTold(s, s', [AnswerCommand(t.call, t.device)]);
    } else {
      FailTells(s, a, PrepareFailed);
    }
  }

  lemma {:induction false} SettleTells(s: State, a: int, ok: bool)
    requires Inv(s) && AllTold(s) && a in s.attempts
    ensures AllTold(SettleAnswer(s, a, ok))
  {
    Parts(s);
    var s' := SettleAnswer(s, a, ok);
    var c := s.attempts[a].call;
    if ok {
      AttemptGone(s, s', a);
      AttemptChanges(s, a);
      SuccessSaid(s.log, c);
      assert Told(s, c);
      SucceedTells(s, s', c, s.attempts[a].device);
    } else {
      FailTells(s, a, ProviderFailed);
    }
  }

  lemma MediaTells(s: State, sessionId: Id, kind: MediaKind)
    requires Inv(s) && AllTold(s)
    ensures AllTold(HandleMedia(s, sessionId, kind))
  {
    if sessionId in s.session && s.session[sessionId] in s.active {
      var c := s.session[sessionId];
      match kind
      case ProviderGone => EndCallTells(s, c, ProviderDisconnected);
      case ClientGone => EndCallTells(s, c, OtherTrigger);
      case ProviderUp =>
        if !s.calls[c].answered && !s.calls[c].inbound { MediaUpTells(s, c); } else { ConnectedAgainTells(s, c); }
      case ClientUp =>
      case Digit => SayingStaysTold(s, HandleMedia(s, sessionId, kind), DtmfToClients(c));
      case Candidate => SayingStaysTold(s, HandleMedia(s, sessionId, kind), CandidateTo(c, s.calls[c].device));
    }
  }

  /** Media of an inbound or answered call connects: the message changes nothing. */
  lemma ConnectedAgainTells(s: State, c: Id)
    requires AllTold(s) && c in s.calls && (s.calls[c].answered || s.calls[c].inbound)
    ensures AllTold(Say(s, [Connected(c)]))
  {
    var s' := Say(s, [Connected(c)]);
    forall d ensures SameAnswer(s, s', d) {}
    OthersStayTold(s, s', [Connected(c)], c);
    assert Told(s, c);
    forall d ensures WinnerTold(s', c, d) { assert WinnerTold(s, c, d); }
    assert Told(s', c);
  }

  // ---------------------------------------------------------------- every step and every run

  lemma StepTells(s: State, e: Event)
    requires Inv(s) && AllTold(s) && Enabled(s, e)
    ensures AllTold(Apply(s, e))
  {
    match e
    case Tick(_) => SilentStaysTold(s, Apply(s, e));
    case Answer(requested, device) => BeginAnswerTells(s, requested, device);
    case AnswerPatched(a, ok) => ContinueTells(s, a, ok);
    case AnswerSettled(a, ok) => SettleTells(s, a, ok);
    case End(requested, trigger) => EndCallTells(s, requested, trigger);
    case Media(sessionId, kind) => MediaTells(s, sessionId, kind);
    case WatchdogFires(t) => FireTells(s, t);
    case EndAllStart(_) => SilentStaysTold(s, Apply(s, e));
    case EndAllNext(b) => EndAllTells(s, b);
    case ReconcileStart(_) => SilentStaysTold(s, Apply(s, e));
    case ReconcileNext(_) => SilentStaysTold(s, Apply(s, e));
    case ReconcileReply(b, gone) => ReplyTells(s, b, gone);
    case Dispose => DisposeTells(s);
    case _ => if e.InboundStart? || e.InboundSession? || e.InboundNumbers? || e.InboundNotified? {
      InboundTells(s, e);
    } else {
      OutboundTells(s, e);
    }
  }

  lemma {:induction false} RunTells(s: State, es: seq<Event>, s': State)
    requires Inv(s) && AllTold(s) && Reaches(s, es, s')
    ensures AllTold(s')
    decreases |es|
  {
    if es != [] {
      StepTells(s, es[0]);
      StepKeepsInv(s, es[0]);
      RunTells(Apply(s, es[0]), es[1..], s');
    }
  }

  lemma InitTold()
    ensures AllTold(Init)
  {
    forall c ensures Told(Init, c) {
      forall d ensures WinnerTold(Init, c, d) {}
    }
  }

  lemma {:induction false} ReachableTold(es: seq<Event>, s: State, c: Id)
    requires Reaches(Init, es, s)
    ensures Inv(s) && Told(s, c)
  {
    Reachable(es, s);
    InitHolds();
    InitTold();
    RunTells(Init, es, s);
    assert AllTold(s);
  }

  /**
    Who has been answered can be read off the log: an inbound call exactly while an attempt for
    it is in flight or after its one success; an outbound call exactly once its provider's media
    has connected or an answer to it has succeeded.
   */
  lemma {:induction false} AnsweredExactly(es: seq<Event>, s: State, c: Id)
    requires Reaches(Init, es, s) && c in s.calls
    ensures s.calls[c].inbound ==> (s.calls[c].answered <==> Attempted(s, c) || Successes(s.log, c) == 1)
    ensures !s.calls[c].inbound ==>
              (s.calls[c].answered <==> Connected(c) in s.log || AnswerReply(c, Success) in s.log)
  {
    ReachableTold(es, s, c);
    Reachable(es, s);
    SuccessSaid(s.log, c);
  }

  /** Exactly one device wins an answered call, and every announcement names the device in its record. */
  lemma {:induction false} WinnerAnnouncedExactly(es: seq<Event>, s: State, c: Id, d: Id)
    requires Reaches(Init, es, s)
    ensures MarkedAnswered(c, d) in s.log <==>
              c in s.calls && s.calls[c].device == Some(d) && AnswerReply(c, Success) in s.log
    ensures MarkedAnswered(c, d) in s.log <==> AnsweredElsewhere(c, d) in s.log
  {
    ReachableTold(es, s, c);
    assert WinnerTold(s, c, d);
  }

  /** A call's notification becomes a missed one exactly when its history entry does. */
  lemma {:induction false} MissedExactly(es: seq<Event>, s: State, c: Id)
    requires Reaches(Init, es, s)
    ensures NotificationMissed(c) in s.log <==> History(c, MarkMissed) in s.log
  {
    ReachableTold(es, s, c);
  }

  /**
    The one timer of a tracked call, without the history variable: four hours after it was
    answered; ninety seconds after it started while no answer has been attempted; and four
    hours after some earlier moment when every answer failed.
   */
  lemma {:induction false} TimerDueExactly(es: seq<Event>, s: State, c: Id)
    requires Reaches(Init, es, s) && c in s.active
    ensures c in s.calls
    ensures exists t :: TimersOf(s, c) == {t} && t in s.timers &&
              var due := s.timers[t].due;
              && (s.calls[c].answered ==> s.calls[c].answeredAt == Some(due - MAX_CALL_DURATION_MS))
              && (!s.calls[c].answered ==>
                    (due == s.calls[c].startedAt + UNANSWERED_WATCHDOG_MS && !AnswerFailed(s, c)) ||
                    (c in s.lastLive && due == s.lastLive[c] + MAX_CALL_DURATION_MS && AnswerFailed(s, c)))
  {
    ReachableTold(es, s, c);
    WatchdogExact(es, s, c);
    var t :| TimersOf(s, c) == {t} && t in s.timers && s.timers[t].due == Deadline(s, c);
    assert LiveTold(s, c);
  }
}
