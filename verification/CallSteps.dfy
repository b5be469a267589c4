/**
  What each operation of the orchestrator does from start to end when nothing comes in
  between, from any state that satisfies the invariant, with everything it leaves alone;
  and that every other way in which a call ends is the same teardown.
 */
module CallSteps {
  import opened Basics
  import opened CallModel
  import opened CallInvariant
  import opened CallSafety
  import opened CallTheorems

  // ---------------------------------------------------------------- runs of a given list of events

  /** The run of the events from s exists, and ends in s'. */
  lemma {:induction false} Extend(s: State, es: seq<Event>, s1: State, e: Event, s': State)
    requires Inv(s) && Reaches(s, es, s1) && WellFormed(s1) && Enabled(s1, e) && s' == Apply(s1, e)
    ensures Reaches(s, es + [e], s') && Inv(s') && WellFormed(s')
  {
    RunThen(s, es, s1, e);
    ReachableKeepsInv(s, es + [e], s');
  }

  lemma {:induction false} FirstEvent(s: State, e: Event, s': State)
    requires Inv(s) && WellFormed(s) && Enabled(s, e) && s' == Apply(s, e)
    ensures Reaches(s, [e], s') && Inv(s') && WellFormed(s')
  {
    Extend(s, [], s, e, s');
    assert [] + [e] == [e];
  }

  lemma {:induction false} ThenSession(s: State, es: seq<Event>, s1: State, id: Id, ok: bool)
    requires Inv(s) && Reaches(s, es, s1) && WellFormed(s1) && id in s1.inbound && s1.inbound[id].OpeningSession?
    ensures Reaches(s, es + [InboundSession(id, ok)], OpenInbound(s1, id, ok))
    ensures Inv(OpenInbound(s1, id, ok)) && WellFormed(OpenInbound(s1, id, ok))
  {
    Extend(s, es, s1, InboundSession(id, ok), OpenInbound(s1, id, ok));
  }

  lemma {:induction false} ThenNumbers(s: State, es: seq<Event>, s1: State, id: Id, ok: bool)
    requires Inv(s) && Reaches(s, es, s1) && WellFormed(s1) && id in s1.inbound && s1.inbound[id].ReadingNumbers?
    ensures Reaches(s, es + [InboundNumbers(id, ok)], AnnounceInbound(s1, id, ok))
    ensures Inv(AnnounceInbound(s1, id, ok)) && WellFormed(AnnounceInbound(s1, id, ok))
  {
    Extend(s, es, s1, InboundNumbers(id, ok), AnnounceInbound(s1, id, ok));
  }

  lemma {:induction false} ThenNotified(s: State, es: seq<Event>, s1: State, id: Id, created: Option<Id>)
    requires Inv(s) && Reaches(s, es, s1) && WellFormed(s1) && id in s1.inbound && s1.inbound[id].Notifying?
    ensures Reaches(s, es + [InboundNotified(id, created)], NotifyInbound(s1, id, created))
  {
    Extend(s, es, s1, InboundNotified(id, created), NotifyInbound(s1, id, created));
  }

  lemma {:induction false} ThenDialed(s: State, es: seq<Event>, s1: State, id: Id, dialed: Option<Id>)
    requires Inv(s) && Reaches(s, es, s1) && WellFormed(s1) && id in s1.outbound && s1.outbound[id].stage == Dialing
    requires dialed.Some? ==> !ProviderIdInUse(s1, dialed.value)
    ensures Reaches(s, es + [OutboundDialed(id, dialed)], DialOutbound(s1, id, dialed))
    ensures Inv(DialOutbound(s1, id, dialed)) && WellFormed(DialOutbound(s1, id, dialed))
  {
    Extend(s, es, s1, OutboundDialed(id, dialed), DialOutbound(s1, id, dialed));
  }

  lemma {:induction false} ThenPatched(s: State, es: seq<Event>, s1: State, id: Id, p: Id)
    requires Inv(s) && Reaches(s, es, s1) && WellFormed(s1) && id in s1.outbound && s1.outbound[id].stage == Patching(p)
    ensures Reaches(s, es + [OutboundPatched(id)], TrackOutbound(s1, id, p))
  {
    Extend(s, es, s1, OutboundPatched(id), TrackOutbound(s1, id, p));
  }

  // ---------------------------------------------------------------- setting up

  /** One more call with this record, ringing under a 90-second timer, found under its three ids. */
  ghost predicate Tracked(s: State, s': State, id: Id, p: Id, call: Call, incoming: bool) {
    s' == s.(calls := s.calls[id := call.(watchdog := Some(s.nextTimer))],
             active := s.active + {id}, session := s.session[id := id], provider := s.provider[p := id],
             timers := s.timers[s.nextTimer := Timer(id, s.now + 90_000)], nextTimer := s.nextTimer + 1,
             issued := s.issued + {id}, log := s.log + [HistoryRecorded(id, incoming)])
  }

  function OutboundEvents(id: Id, device: Id, echo: bool, wsAudio: bool, p: Id): seq<Event> {
    [OutboundStart(id, device, echo, wsAudio)] + [OutboundSession(id, true)] + [OutboundDialed(id, Some(p))]
  }

  lemma DialRun(s: State, id: Id, device: Id, echo: bool, wsAudio: bool) returns (s2: State)
    requires Inv(s) && id !in s.issued
    ensures Reaches(s, [OutboundStart(id, device, echo, wsAudio)] + [OutboundSession(id, true)], s2) && Inv(s2)
    ensures s2 == s.(issued := s.issued + {id}, outbound := s.outbound[id := Outbound(device, echo, wsAudio, Dialing)])
  {
    var e1, e2 := OutboundStart(id, device, echo, wsAudio), OutboundSession(id, true);
    var s1 := StartOutbound(s, id, device, echo, wsAudio);
    FirstEvent(s, e1, s1);
    s2 := OpenOutbound(s1, id, true);
    Extend(s, [e1], s1, e2, s2);
  }

  lemma NotSetUp(s: State, id: Id)
    requires Inv(s) && id !in s.issued
    ensures id !in s.outbound && id !in s.inbound && id !in s.calls && id !in s.active
  {
    Parts(s);
  }

  lemma StillFree(s: State, s1: State, id: Id, p: Id)
    requires !ProviderIdInUse(s, p) && s1.provider == s.provider
    requires s1.outbound.Keys == s.outbound.Keys + {id} && s1.outbound[id].stage == Dialing
    requires forall i <- s.outbound :: i != id ==> s1.outbound[i] == s.outbound[i]
    ensures !ProviderIdInUse(s1, p)
  {
  }

  /** Tracking the call that is in set-up, by whichever way, amounts to this. */
  lemma TrackingDone(s: State, s1: State, id: Id, o: Outbound, p: Id)
    requires id !in s.outbound && s1 == s.(issued := s.issued + {id}, outbound := s.outbound[id := o])
    ensures Tracked(s, TrackOutbound(s1, id, p), id, p,
                    Call(p, false, o.wsAudio, false, Some(o.device), s.now, None, false, None), false)
  {
    assert s.outbound[id := o] - {id} == s.outbound;
  }

  /** An echo call is tracked as soon as it is dialled. */
  lemma EchoCallRings(s: State, id: Id, device: Id, wsAudio: bool, p: Id) returns (s': State)
    requires Inv(s) && id !in s.issued && !ProviderIdInUse(s, p)
    ensures Reaches(s, OutboundEvents(id, device, true, wsAudio, p), s')
    ensures Tracked(s, s', id, p, Call(p, false, wsAudio, false, Some(device), s.now, None, false, None), false)
  {
    NotSetUp(s, id);
    var s2 := DialRun(s, id, device, true, wsAudio);
    StillFree(s, s2, id, p);
    TrackingDone(s, s2, id, Outbound(device, true, wsAudio, Dialing), p);
    s' := TrackOutbound(s2, id, p);
    ThenDialed(s, [OutboundStart(id, device, true, wsAudio)] + [OutboundSession(id, true)], s2, id, Some(p));
  }

  lemma DialedRun(s: State, id: Id, device: Id, wsAudio: bool, p: Id) returns (s3: State)
    requires Inv(s) && id !in s.issued && !ProviderIdInUse(s, p)
    ensures Reaches(s, OutboundEvents(id, device, false, wsAudio, p), s3) && Inv(s3) && WellFormed(s3)
    ensures s3 == s.(issued := s.issued + {id},
                     outbound := s.outbound[id := Outbound(device, false, wsAudio, Patching(p))])
  {
    NotSetUp(s, id);
    var s2 := DialRun(s, id, device, false, wsAudio);
    StillFree(s, s2, id, p);
    s3 := DialOutbound(s2, id, Some(p));
    ThenDialed(s, [OutboundStart(id, device, false, wsAudio)] + [OutboundSession(id, true)], s2, id, Some(p));
  }

  /** Any other call once its session has been patched as well. */
  lemma OutboundCallRings(s: State, id: Id, device: Id, wsAudio: bool, p: Id) returns (s': State)
    requires Inv(s) && id !in s.issued && !ProviderIdInUse(s, p)
    ensures Reaches(s, OutboundEvents(id, device, false, wsAudio, p) + [OutboundPatched(id)], s')
    ensures Tracked(s, s', id, p, Call(p, false, wsAudio, false, Some(device), s.now, None, false, None), false)
  {
    NotSetUp(s, id);
    var s3 := DialedRun(s, id, device, wsAudio, p);
    TrackingDone(s, s3, id, Outbound(device, false, wsAudio, Patching(p)), p);
    s' := TrackOutbound(s3, id, p);
    ThenPatched(s, OutboundEvents(id, device, false, wsAudio, p), s3, id, p);
  }

  /** An outbound call whose session fails leaves nothing behind but its used-up id... */
  lemma {:induction false} OutboundSessionFails(s: State, id: Id, device: Id, echo: bool, wsAudio: bool)
    requires Inv(s) && id !in s.issued
    ensures Reaches(s, [OutboundStart(id, device, echo, wsAudio)] + [OutboundSession(id, false)],
                    s.(issued := s.issued + {id}))
  {
    NotSetUp(s, id);
    var e1 := OutboundStart(id, device, echo, wsAudio);
    var s1 := StartOutbound(s, id, device, echo, wsAudio);
    FirstEvent(s, e1, s1);
    assert s.outbound[id := Outbound(device, echo, wsAudio, CreatingSession)] - {id} == s.outbound;
    Extend(s, [e1], s1, OutboundSession(id, false), s.(issued := s.issued + {id}));
  }

  /** ...and so does one that cannot be dialled. */
  lemma {:induction false} OutboundDialFails(s: State, id: Id, device: Id, echo: bool, wsAudio: bool)
    requires Inv(s) && id !in s.issued
    ensures Reaches(s, [OutboundStart(id, device, echo, wsAudio)] + [OutboundSession(id, true)]
                       + [OutboundDialed(id, None)], s.(issued := s.issued + {id}))
  {
    NotSetUp(s, id);
    var s2 := DialRun(s, id, device, echo, wsAudio);
    assert s.outbound[id := Outbound(device, echo, wsAudio, Dialing)] - {id} == s.outbound;
    assert DialOutbound(s2, id, None) == s.(issued := s.issued + {id});
    ThenDialed(s, [OutboundStart(id, device, echo, wsAudio)] + [OutboundSession(id, true)], s2, id, None);
  }

  lemma OpeningRun(s: State, id: Id, p: Id, wsAudio: bool) returns (s1: State)
    requires Inv(s) && id !in s.issued && !ProviderIdInUse(s, p)
    ensures Reaches(s, [InboundStart(id, p, wsAudio)], s1) && Inv(s1) && WellFormed(s1)
    ensures s1 == s.(issued := s.issued + {id}, provider := s.provider[p := id],
                     inbound := s.inbound[id := OpeningSession(p, wsAudio)])
  {
    s1 := StartInbound(s, id, p, wsAudio);
    FirstEvent(s, InboundStart(id, p, wsAudio), s1);
  }

  lemma InboundTracked(s: State, s1: State, id: Id, p: Id, wsAudio: bool)
    requires s1 == s.(issued := s.issued + {id}, provider := s.provider[p := id],
                      inbound := s.inbound[id := OpeningSession(p, wsAudio)])
    ensures TrackInbound(s1, id, p, wsAudio).inbound == s.inbound[id := ReadingNumbers]
    ensures Tracked(s, TrackInbound(s1, id, p, wsAudio).(inbound := s.inbound), id, p,
                    Call(p, true, wsAudio, false, None, s.now, None, false, None), true)
  {
  }

  lemma InboundTrackedRun(s: State, id: Id, p: Id, wsAudio: bool) returns (s2: State)
    requires Inv(s) && id !in s.issued && !ProviderIdInUse(s, p)
    ensures Reaches(s, [InboundStart(id, p, wsAudio)] + [InboundSession(id, true)], s2) && Inv(s2) && WellFormed(s2)
    ensures s2.inbound == s.inbound[id := ReadingNumbers] && id !in s.inbound
    ensures Tracked(s, s2.(inbound := s.inbound), id, p,
                    Call(p, true, wsAudio, false, None, s.now, None, false, None), true)
  {
    NotSetUp(s, id);
    var s1 := OpeningRun(s, id, p, wsAudio);
    InboundTracked(s, s1, id, p, wsAudio);
    s2 := TrackInbound(s1, id, p, wsAudio);
    ThenSession(s, [InboundStart(id, p, wsAudio)], s1, id, true);
  }

  /** The clients are told that it rings. */
  ghost predicate Announced(s: State, s3: State, id: Id, p: Id, wsAudio: bool) {
    && s3.log == s.log + [HistoryRecorded(id, true), Ringing(id)]
    && Tracked(s, s3.(log := s.log + [HistoryRecorded(id, true)]), id, p,
               Call(p, true, wsAudio, false, None, s.now, None, false, None), true)
  }

  lemma Announcing(s: State, s2: State, id: Id, p: Id, wsAudio: bool)
    requires Tracked(s, s2.(inbound := s.inbound), id, p,
                     Call(p, true, wsAudio, false, None, s.now, None, false, None), true)
    requires s2.inbound == s.inbound[id := ReadingNumbers]
    ensures Announced(s, AnnounceInbound(s2, id, true).(inbound := s.inbound), id, p, wsAudio)
    ensures AnnounceInbound(s2, id, true).inbound == s.inbound[id := Notifying]
  {
  }

  lemma Notifies(s: State, s3: State, id: Id, p: Id, wsAudio: bool, n: Id)
    requires Announced(s, s3.(inbound := s.inbound), id, p, wsAudio)
    requires s3.inbound == s.inbound[id := Notifying] && id !in s.inbound
    ensures NotifyInbound(s3, id, Some(n)).notification == s.notification[n := id]
    ensures Announced(s, NotifyInbound(s3, id, Some(n)).(notification := s.notification), id, p, wsAudio)
  {
    assert s.inbound[id := Notifying] - {id} == s.inbound;
  }

  lemma RingingRun(s: State, id: Id, p: Id, wsAudio: bool) returns (s3: State)
    requires Inv(s) && id !in s.issued && !ProviderIdInUse(s, p)
    ensures Reaches(s, [InboundStart(id, p, wsAudio)] + [InboundSession(id, true)] + [InboundNumbers(id, true)], s3)
    ensures Inv(s3) && WellFormed(s3) && s3.inbound == s.inbound[id := Notifying] && id !in s.inbound
    ensures Announced(s, s3.(inbound := s.inbound), id, p, wsAudio)
  {
    var s2 := InboundTrackedRun(s, id, p, wsAudio);
    Announcing(s, s2, id, p, wsAudio);
    s3 := AnnounceInbound(s2, id, true);
    ThenNumbers(s, [InboundStart(id, p, wsAudio)] + [InboundSession(id, true)], s2, id, true);
  }

  /**
    An inbound call is tracked and recorded, then rings at the clients, and the id of its
    notification comes to lead to it.
   */
  lemma InboundCallRings(s: State, id: Id, p: Id, wsAudio: bool, n: Id) returns (s': State)
    requires Inv(s) && id !in s.issued && !ProviderIdInUse(s, p)
    ensures Reaches(s, [InboundStart(id, p, wsAudio)] + [InboundSession(id, true)] + [InboundNumbers(id, true)]
                       + [InboundNotified(id, Some(n))], s')
    ensures s'.notification == s.notification[n := id]
    ensures Announced(s, s'.(notification := s.notification), id, p, wsAudio)
  {
    var s3 := RingingRun(s, id, p, wsAudio);
    Notifies(s, s3, id, p, wsAudio, n);
    s' := NotifyInbound(s3, id, Some(n));
    ThenNotified(s, [InboundStart(id, p, wsAudio)] + [InboundSession(id, true)] + [InboundNumbers(id, true)], s3, id,
                 Some(n));
  }

  /** An inbound call whose session fails leaves nothing behind... */
  lemma {:induction false} InboundFailureLeavesNothing(s: State, id: Id, p: Id, wsAudio: bool)
    requires Inv(s) && id !in s.issued && !ProviderIdInUse(s, p)
    ensures Reaches(s, [InboundStart(id, p, wsAudio)] + [InboundSession(id, false)], s.(issued := s.issued + {id}))
  {
    NotSetUp(s, id);
    var s1 := OpeningRun(s, id, p, wsAudio);
    assert s.inbound[id := OpeningSession(p, wsAudio)] - {id} == s.inbound;
    assert s.provider[p := id] - {p} == s.provider;
    assert OpenInbound(s1, id, false) == s.(issued := s.issued + {id});
    ThenSession(s, [InboundStart(id, p, wsAudio)], s1, id, false);
  }

  lemma GivesUpRinging(s: State, s2: State, id: Id)
    requires s2.inbound == s.inbound[id := ReadingNumbers] && id !in s.inbound
    ensures AnnounceInbound(s2, id, false) == s2.(inbound := s.inbound)
  {
    assert s.inbound[id := ReadingNumbers] - {id} == s.inbound;
  }

  /** ...and one whose numbers cannot be read is tracked, but does not ring. */
  lemma UnreadNumbersDoNotRing(s: State, id: Id, p: Id, wsAudio: bool) returns (s': State)
    requires Inv(s) && id !in s.issued && !ProviderIdInUse(s, p)
    ensures Reaches(s, [InboundStart(id, p, wsAudio)] + [InboundSession(id, true)] + [InboundNumbers(id, false)], s')
    ensures Tracked(s, s', id, p, Call(p, true, wsAudio, false, None, s.now, None, false, None), true)
  {
    var s2 := InboundTrackedRun(s, id, p, wsAudio);
    GivesUpRinging(s, s2, id);
    s' := AnnounceInbound(s2, id, false);
    ThenNumbers(s, [InboundStart(id, p, wsAudio)] + [InboundSession(id, true)], s2, id, false);
  }

  /** A created notification leads to its call exactly when the call is still tracked; no other entry changes. */
  lemma NotificationRegisteredExactly(s: State, c: Id, n: Id)
    requires Inv(s) && Enabled(s, InboundNotified(c, Some(n))) && n !in s.notification
    ensures var s' := Apply(s, InboundNotified(c, Some(n)));
            && (n in s'.notification <==> c in s.active) && (c in s.active ==> s'.notification[n] == c)
            && s'.notification - {n} == s.notification && c !in s'.inbound && s'.calls == s.calls
    ensures Apply(s, InboundNotified(c, None)).notification == s.notification
  {
    Parts(s);
    assert s.notification - {n} == s.notification;
    assert s.notification[n := c] - {n} == s.notification;
  }

  // ---------------------------------------------------------------- answering

  /** Only the record of c and its timer have changed: a fresh timer of four hours is its only one. */
  ghost predicate Rearmed(s: State, s': State, c: Id)
    requires c in s.calls
  {
    && s.calls[c].watchdog.Some?
    && s'.timers == (s.timers - {s.calls[c].watchdog.value})[s.nextTimer := Timer(c, s.now + 14_400_000)]
    && s'.nextTimer == s.nextTimer + 1
    && c in s'.calls && s'.calls == s.calls[c := s'.calls[c]] && s'.calls[c].watchdog == Some(s.nextTimer)
  }

  /** Nothing but records, timers, answers in flight and the log has changed. */
  ghost predicate OnlyAnswers(s: State, s': State) {
    s' == s.(calls := s'.calls, timers := s'.timers, nextTimer := s'.nextTimer, attempts := s'.attempts,
             nextAttempt := s'.nextAttempt, lastLive := s'.lastLive, log := s'.log)
  }

  /** The record of an answered call, apart from its timer. */
  function AnsweredBy(call: Call, device: Id, now: int): Call {
    call.(answered := true, device := Some(device), answeredAt := Some(now))
  }

  function Announcements(c: Id, device: Id): seq<Effect> {
    [AnsweredElsewhere(c, device), MarkedAnswered(c, device), NotificationResolved(c), AnswerReply(c, Success)]
  }

  /** Answers that do not win: the reply says why, and nothing else changes. */
  lemma AnswerRefused(s: State, requested: Id, device: Id)
    requires WellFormed(s)
    ensures var c, s' := Resolve(s, requested), Apply(s, Answer(requested, device));
            && (c !in s.active ==> s' == s.(log := s.log + [AnswerReply(c, NotFound)]))
            && (c in s.active && s.calls[c].answered ==> s' == s.(log := s.log + [AnswerReply(c, AlreadyAnswered)]))
  {
  }

  /** An outbound call is answered at once. */
  lemma OutboundAnswered(s: State, requested: Id, device: Id)
    requires WellFormed(s) && MapsAgree(s) && TimersExact(s) && Resolve(s, requested) in s.active
    requires !s.calls[Resolve(s, requested)].answered && !s.calls[Resolve(s, requested)].inbound
    ensures var c, s' := Resolve(s, requested), Apply(s, Answer(requested, device));
            && Rearmed(s, s', c) && OnlyAnswers(s, s') && s'.attempts == s.attempts
            && s'.calls[c].(watchdog := s.calls[c].watchdog) == AnsweredBy(s.calls[c], device, s.now)
            && s'.log == s.log + Announcements(c, device)
  {
  }

  /** The first stretch of an answer to an inbound call, whose media session or provider is asked next. */
  ghost predicate Asking(s: State, s1: State, c: Id, device: Id, stage: AnswerStage)
    requires c in s.calls
  {
    && Rearmed(s, s1, c) && OnlyAnswers(s, s1)
    && s1.calls[c].(watchdog := s.calls[c].watchdog) == AnsweredBy(s.calls[c], device, s.now)
    && s1.attempts == s.attempts[s.nextAttempt := Attempt(c, device, stage)] && s.nextAttempt !in s.attempts
    && s1.nextAttempt == s.nextAttempt + 1
  }

  /** An inbound call that somebody may answer. */
  ghost predicate Ringable(s: State, requested: Id, wsAudio: bool) {
    && Inv(s) && Resolve(s, requested) in s.active
    && var call := s.calls[Resolve(s, requested)];
       !call.answered && call.inbound && call.wsAudio == wsAudio
  }

  lemma AnswerAsks(s: State, requested: Id, device: Id)
    requires MapsAgree(s) && TimersExact(s) && AnswersExclusive(s) && Resolve(s, requested) in s.active
    requires !s.calls[Resolve(s, requested)].answered && s.calls[Resolve(s, requested)].inbound
    ensures var c, s1 := Resolve(s, requested), BeginAnswer(s, requested, device);
            && Asking(s, s1, c, device, if s.calls[c].wsAudio then PatchingSession else AwaitingProvider)
            && s1.log == s.log + (if s.calls[c].wsAudio then [] else [AnswerCommand(c, device)])
  {
  }

  lemma AskingRun(s: State, requested: Id, device: Id) returns (s1: State)
    requires Ringable(s, requested, false)
    ensures Reaches(s, [Answer(requested, device)], s1) && Inv(s1)
    ensures Asking(s, s1, Resolve(s, requested), device, AwaitingProvider)
    ensures s1.log == s.log + [AnswerCommand(Resolve(s, requested), device)]
  {
    Parts(s);
    s1 := BeginAnswer(s, requested, device);
    AnswerAsks(s, requested, device);
    FirstEvent(s, Answer(requested, device), s1);
  }

  lemma PatchingRun(s: State, requested: Id, device: Id) returns (s1: State)
    requires Ringable(s, requested, true)
    ensures Reaches(s, [Answer(requested, device)], s1) && Inv(s1)
    ensures Asking(s, s1, Resolve(s, requested), device, PatchingSession) && s1.log == s.log
  {
    Parts(s);
    s1 := BeginAnswer(s, requested, device);
    AnswerAsks(s, requested, device);
    FirstEvent(s, Answer(requested, device), s1);
  }

  lemma PatchedWell(s: State, s1: State, c: Id, device: Id)
    requires c in s.calls && Asking(s, s1, c, device, PatchingSession)
    ensures Asking(s, ContinueAnswer(s1, s.nextAttempt, true), c, device, AwaitingProvider)
    ensures ContinueAnswer(s1, s.nextAttempt, true).log == s1.log + [AnswerCommand(c, device)]
  {
    assert s1.attempts[s.nextAttempt := Attempt(c, device, AwaitingProvider)] ==
           s.attempts[s.nextAttempt := Attempt(c, device, AwaitingProvider)];
  }

  lemma PatchedRun(s: State, requested: Id, device: Id) returns (s2: State)
    requires Ringable(s, requested, true)
    ensures Reaches(s, [Answer(requested, device)] + [AnswerPatched(s.nextAttempt, true)], s2) && Inv(s2)
    ensures Asking(s, s2, Resolve(s, requested), device, AwaitingProvider)
    ensures s2.log == s.log + [AnswerCommand(Resolve(s, requested), device)]
  {
    var s1 := PatchingRun(s, requested, device);
    PatchedWell(s, s1, Resolve(s, requested), device);
    s2 := ContinueAnswer(s1, s.nextAttempt, true);
    Extend(s, [Answer(requested, device)], s1, AnswerPatched(s.nextAttempt, true), s2);
  }

  /** The call is answered by the device and everybody has been told. */
  ghost predicate Won(s: State, s': State, c: Id, device: Id)
    requires c in s.calls
  {
    && Rearmed(s, s', c) && OnlyAnswers(s, s') && s'.attempts == s.attempts
    && s'.calls[c].(watchdog := s.calls[c].watchdog) == AnsweredBy(s.calls[c], device, s.now)
    && s'.log == s.log + [AnswerCommand(c, device)] + Announcements(c, device)
  }

  /** The call rings as before the answer, under the longer timer. */
  ghost predicate RingsAgain(s: State, s': State, c: Id)
    requires c in s.calls
  {
    && Rearmed(s, s', c) && OnlyAnswers(s, s') && s'.attempts == s.attempts
    && s'.calls[c].(watchdog := s.calls[c].watchdog) == s.calls[c]
  }

  lemma SettledWell(s: State, s1: State, c: Id, device: Id)
    requires c in s.calls && Asking(s, s1, c, device, AwaitingProvider) && WellFormed(s1)
    requires s1.log == s.log + [AnswerCommand(c, device)]
    ensures Enabled(s1, AnswerSettled(s.nextAttempt, true))
    ensures Won(s, SettleAnswer(s1, s.nextAttempt, true), c, device)
  {
    assert s1.attempts - {s.nextAttempt} == s.attempts;
  }

  lemma SettledBadly(s: State, s1: State, c: Id, device: Id)
    requires c in s.calls && Asking(s, s1, c, device, AwaitingProvider) && WellFormed(s1)
    requires AnswersExclusive(s) && !s.calls[c].answered && s.calls[c].inbound
    ensures Enabled(s1, AnswerSettled(s.nextAttempt, false))
    ensures RingsAgain(s, SettleAnswer(s1, s.nextAttempt, false), c)
    ensures SettleAnswer(s1, s.nextAttempt, false).log == s1.log + [AnswerReply(c, ProviderFailed)]
  {
    assert s1.attempts - {s.nextAttempt} == s.attempts;
  }

  /** The inbound call with telephone audio: the provider answers, or does not. */
  lemma InboundAnswered(s: State, requested: Id, device: Id) returns (won: State, lost: State)
    requires Ringable(s, requested, false)
    ensures Reaches(s, [Answer(requested, device)] + [AnswerSettled(s.nextAttempt, true)], won)
    ensures Won(s, won, Resolve(s, requested), device)
    ensures Reaches(s, [Answer(requested, device)] + [AnswerSettled(s.nextAttempt, false)], lost)
    ensures RingsAgain(s, lost, Resolve(s, requested))
    ensures var c := Resolve(s, requested);
            lost.log == s.log + [AnswerCommand(c, device)] + [AnswerReply(c, ProviderFailed)]
  {
    var s1 := AskingRun(s, requested, device);
    SettledWell(s, s1, Resolve(s, requested), device);
    won := SettleAnswer(s1, s.nextAttempt, true);
    Extend(s, [Answer(requested, device)], s1, AnswerSettled(s.nextAttempt, true), won);
    Parts(s);
    SettledBadly(s, s1, Resolve(s, requested), device);
    lost := SettleAnswer(s1, s.nextAttempt, false);
    Extend(s, [Answer(requested, device)], s1, AnswerSettled(s.nextAttempt, false), lost);
  }

  /** The inbound call with WebSocket audio, whose media session is prepared before the provider answers. */
  lemma WebSocketAnswered(s: State, requested: Id, device: Id) returns (won: State, lost: State)
    requires Ringable(s, requested, true)
    ensures Reaches(s, [Answer(requested, device)] + [AnswerPatched(s.nextAttempt, true)]
                       + [AnswerSettled(s.nextAttempt, true)], won)
    ensures Won(s, won, Resolve(s, requested), device)
    ensures Reaches(s, [Answer(requested, device)] + [AnswerPatched(s.nextAttempt, true)]
                       + [AnswerSettled(s.nextAttempt, false)], lost)
    ensures RingsAgain(s, lost, Resolve(s, requested))
    ensures var c := Resolve(s, requested);
            lost.log == s.log + [AnswerCommand(c, device)] + [AnswerReply(c, ProviderFailed)]
  {
    var s2 := PatchedRun(s, requested, device);
    var es := [Answer(requested, device)] + [AnswerPatched(s.nextAttempt, true)];
    SettledWell(s, s2, Resolve(s, requested), device);
    won := SettleAnswer(s2, s.nextAttempt, true);
    Extend(s, es, s2, AnswerSettled(s.nextAttempt, true), won);
    Parts(s);
    SettledBadly(s, s2, Resolve(s, requested), device);
    lost := SettleAnswer(s2, s.nextAttempt, false);
    Extend(s, es, s2, AnswerSettled(s.nextAttempt, false), lost);
  }

  lemma PatchedBadly(s: State, s1: State, c: Id, device: Id)
    requires c in s.active && AnswersExclusive(s) && c in s.calls && !s.calls[c].answered && s.calls[c].inbound
    requires Asking(s, s1, c, device, PatchingSession)
    ensures var s' := ContinueAnswer(s1, s.nextAttempt, false);
            RingsAgain(s, s', c) && s'.log == s1.log + [AnswerReply(c, PrepareFailed)]
  {
    assert s1.attempts - {s.nextAttempt} == s.attempts;
  }

  /** A failed preparation rolls the answer back: the call rings again and the provider is never asked. */
  lemma PreparationFails(s: State, requested: Id, device: Id) returns (s': State)
    requires Ringable(s, requested, true)
    ensures Reaches(s, [Answer(requested, device)] + [AnswerPatched(s.nextAttempt, false)], s')
    ensures RingsAgain(s, s', Resolve(s, requested))
    ensures s'.log == s.log + [AnswerReply(Resolve(s, requested), PrepareFailed)]
  {
    var s1 := PatchingRun(s, requested, device);
    Parts(s);
    PatchedBadly(s, s1, Resolve(s, requested), device);
    s' := ContinueAnswer(s1, s.nextAttempt, false);
    Extend(s, [Answer(requested, device)], s1, AnswerPatched(s.nextAttempt, false), s');
  }

  // ---------------------------------------------------------------- media events

  lemma GoesLive(s: State, c: Id)
    requires MapsAgree(s) && TimersExact(s) && c in s.active && !s.calls[c].answered && !s.calls[c].inbound
    ensures var s' := HandleMedia(s, c, ProviderUp);
            && Rearmed(s, s', c) && OnlyAnswers(s, s') && s'.attempts == s.attempts
            && s'.calls[c].answered && s'.calls[c].answeredAt == Some(s.now) && s'.calls[c].device == s.calls[c].device
            && s'.log == s.log + [Connected(c)]
            && Deadline(s', c) == s.now + 14_400_000 && s'.active == s.active
  {
  }

  lemma OneTimerAfterMedia(s: State, c: Id)
    requires Inv(s) && c in HandleMedia(s, c, ProviderUp).active
    ensures var s' := HandleMedia(s, c, ProviderUp);
            && c in s'.calls
            && exists t :: TimersOf(s', c) == {t} && t in s'.timers && s'.timers[t].due == Deadline(s', c)
  {
    var s' := HandleMedia(s, c, ProviderUp);
    MediaKeepsInv(s, c, ProviderUp);
    Parts(s');
    TimersOfCall(s', c);
  }

  /** An outbound call goes live when its provider's media connects. */
  lemma ProviderUpGoesLive(s: State, c: Id)
    requires Inv(s) && c in s.active && !s.calls[c].answered && !s.calls[c].inbound
    ensures var s' := Apply(s, Media(c, ProviderUp));
            && Rearmed(s, s', c) && OnlyAnswers(s, s') && s'.attempts == s.attempts
            && s'.calls[c].answered && s'.calls[c].answeredAt == Some(s.now) && s'.calls[c].device == s.calls[c].device
            && (exists t :: TimersOf(s', c) == {t} && t in s'.timers && s'.timers[t].due == s.now + 14_400_000)
            && s'.log == s.log + [Connected(c)]
  {
    Parts(s);
    GoesLive(s, c);
    OneTimerAfterMedia(s, c);
    assert Apply(s, Media(c, ProviderUp)) == HandleMedia(s, c, ProviderUp);
  }

  /** The messages other media events send; a session that is not tracked sends none. */
  lemma MediaSays(s: State, c: Id)
    requires WellFormed(s) && MapsAgree(s)
    ensures c !in s.active ==> forall kind :: Apply(s, Media(c, kind)) == s
    ensures c in s.active && (s.calls[c].answered || s.calls[c].inbound) ==>
              Apply(s, Media(c, ProviderUp)) == s.(log := s.log + [Connected(c)])
    ensures Apply(s, Media(c, ClientUp)) == s
    ensures c in s.active ==> Apply(s, Media(c, Digit)) == s.(log := s.log + [DtmfToClients(c)])
    ensures c in s.active ==> Apply(s, Media(c, Candidate)) == s.(log := s.log + [CandidateTo(c, s.calls[c].device)])
  {
  }

  // ---------------------------------------------------------------- ending

  lemma EndOf(s: State, r: Id, trigger: Trigger)
    requires MapsAgree(s) && Resolve(s, r) in s.active
    ensures EndCall(s, r, trigger) == EndTracked(s, Resolve(s, r), trigger)
  {
  }

  /** The messages of a teardown, up to the history entry. */
  function FirstWords(c: Id, p: Id, trigger: Trigger): seq<Effect> {
    [Disconnected(c), Cancelled(c, if trigger == Declined then DeclinedByUser else CallerDisconnect),
     DestroySession(c, if trigger == ProviderDisconnected then 200 else 0), Hangup(c, p)]
  }

  lemma EndSaysFirst(s: State, c: Id, trigger: Trigger)
    requires WellFormed(s) && MapsAgree(s) && c in s.active
    ensures var call := s.calls[c];
            var update := EndHistory(call, trigger, s.now);
            Apply(s, End(c, trigger)).log ==
            s.log + FirstWords(c, call.providerCallId, trigger) + [History(c, update)]
            + (if update == MarkDeclined then [NotificationResolved(c)]
               else if update == MarkMissed then [NotificationMissed(c)] else [])
  {
    EndOf(s, c, trigger);
  }

  /**
    What ending a tracked call says: the first words, then the history. A call nobody
    answered is declined or missed, and so is its notification; one that was answered gets
    its rounded duration unless that is nothing; an outbound call nobody answered says so.
   */
  lemma TeardownSays(s: State, c: Id, trigger: Trigger)
    requires WellFormed(s) && MapsAgree(s) && AnswersExclusive(s) && c in s.active
    ensures var call, log' := s.calls[c], Apply(s, End(c, trigger)).log;
            var first := s.log + FirstWords(c, call.providerCallId, trigger);
            && (call.inbound && !call.answered && trigger == Declined ==>
                  log' == first + [History(c, MarkDeclined), NotificationResolved(c)])
            && (call.inbound && !call.answered && trigger != Declined ==>
                  log' == first + [History(c, MarkMissed), NotificationMissed(c)])
            && (!call.inbound && !call.answered ==> log' == first + [History(c, MarkUnanswered)])
            && (call.answered ==> call.answeredAt.Some?)
            && (call.answered && s.now - call.answeredAt.value < 500 ==> log' == first + [History(c, NoUpdate)])
            && (call.answered && s.now - call.answeredAt.value >= 500 ==>
                  exists n :: log' == first + [History(c, SetDuration(n))] &&
                              -500 <= s.now - call.answeredAt.value - 1000 * n < 500)
  {
    EndSaysFirst(s, c, trigger);
    HistoryCases(s, c, trigger);
    var update := EndHistory(s.calls[c], trigger, s.now);
    if update.SetDuration? { assert update == SetDuration(update.seconds); }
  }

  /** What ending a tracked call changes: it is gone from every map, and only its record is marked. */
  lemma TeardownLeaves(s: State, c: Id, trigger: Trigger)
    requires WellFormed(s) && MapsAgree(s) && TimersExact(s) && c in s.active
    ensures var s' := Apply(s, End(c, trigger));
            && s'.calls == s.calls[c := s.calls[c].(ended := true, watchdog := None)]
            && s'.active == s.active - {c} && s'.session == s.session - {c}
            && s'.provider == s.provider - {s.calls[c].providerCallId}
            && (forall n :: n in s'.notification <==> n in s.notification && s.notification[n] != c)
            && (forall n <- s'.notification :: s'.notification[n] == s.notification[n])
            && (forall t :: t in s'.timers <==> t in s.timers && s.timers[t].call != c)
            && (forall t <- s'.timers :: s'.timers[t] == s.timers[t])
            && s' == s.(calls := s'.calls, active := s'.active, session := s'.session, provider := s'.provider,
                        notification := s'.notification, timers := s'.timers, log := s'.log)
  {
    assert Resolve(s, c) == c;
    EndOf(s, c, trigger);
    assert OwnsTimer(s, c, s.calls[c].watchdog.value);
    forall t <- s.timers ensures s.timers[t].call == c <==> s.calls[c].watchdog == Some(t) {
      assert OwnsTimer(s, s.timers[t].call, t);
    }
  }

  lemma WatchdogAlike(s: State, t: int)
    requires MapsAgree(s) && TimersExact(s) && t in s.timers
    ensures FireWatchdog(s, t) == EndCall(s, s.timers[t].call, OtherTrigger)
  {
    WatchdogEndsItsCall(s, t);
    EndOf(s, s.timers[t].call, OtherTrigger);
  }

  /** Every other way to end a call is that teardown, for the reason each of them gives: media that is gone... */
  lemma MediaEndsAlike(s: State, c: Id)
    requires WellFormed(s) && MapsAgree(s) && c in s.active
    ensures Apply(s, Media(c, ProviderGone)) == Apply(s, End(c, ProviderDisconnected))
    ensures Apply(s, Media(c, ClientGone)) == Apply(s, End(c, OtherTrigger))
  {
    assert HandleMedia(s, c, ProviderGone) == EndCall(s, c, ProviderDisconnected);
    assert HandleMedia(s, c, ClientGone) == EndCall(s, c, OtherTrigger);
  }

  /** ...a timer that fires... */
  lemma TimerEndsAlike(s: State, t: int)
    requires WellFormed(s) && MapsAgree(s) && TimersExact(s) && Enabled(s, WatchdogFires(t))
    ensures Apply(s, WatchdogFires(t)) == Apply(s, End(s.timers[t].call, OtherTrigger))
  {
    WatchdogAlike(s, t);
  }

  /** ...or another of the call's ids. */
  lemma IdsEndAlike(s: State, r: Id, trigger: Trigger)
    requires WellFormed(s) && MapsAgree(s) && Resolve(s, r) in s.active
    ensures Apply(s, End(r, trigger)) == Apply(s, End(Resolve(s, r), trigger))
  {
    assert Resolve(s, Resolve(s, r)) == Resolve(s, r);
    assert EndCall(s, r, trigger) == EndCall(s, Resolve(s, r), trigger);
  }

  /** Ending what is not tracked does nothing. */
  lemma EndOfNothing(s: State, r: Id, trigger: Trigger)
    requires WellFormed(s) && Resolve(s, r) !in s.active
    ensures Apply(s, End(r, trigger)) == s
  {
  }

  // ---------------------------------------------------------------- bulk operations

  /** endAllCalls ends the first call of its list and goes on with the rest. */
  lemma EndAllSteps(s: State, b: int)
    requires WellFormed(s) && Enabled(s, EndAllNext(b))
    ensures var t := s.batches[b];
            Apply(s, EndAllNext(b)) ==
            Apply(s, End(t.todo[0], OtherTrigger)).(batches := s.batches[b := EndAll(t.started, t.todo[1..])])
  {
  }

  /** Reconciliation asks about the next call exactly when it is answered and has not ended. */
  lemma ReconcileAsksExactly(s: State, b: int)
    requires WellFormed(s) && Enabled(s, ReconcileNext(b))
    ensures var c, s' := s.batches[b].todo[0], Apply(s, ReconcileNext(b));
            && s' == s.(batches := s'.batches) && s'.batches == s.batches[b := s'.batches[b]]
            && s'.batches[b].Reconcile? && s'.batches[b].todo == s.batches[b].todo[1..]
            && (s'.batches[b].querying == Some(c) <==> c in s.calls && s.calls[c].answered && !s.calls[c].ended)
            && (s'.batches[b].querying.None? <==> !(c in s.calls && s.calls[c].answered && !s.calls[c].ended))
  {
  }

  /** A call the provider still has is left alone... */
  lemma ReconcileSpares(s: State, b: int)
    requires WellFormed(s) && Enabled(s, ReconcileReply(b, false))
    ensures Apply(s, ReconcileReply(b, false)) ==
            s.(batches := s.batches[b := Reconcile(s.batches[b].todo, None)])
  {
  }

  /** ...and one it has lost is ended. */
  lemma ReconcileEnds(s: State, b: int)
    requires WellFormed(s) && Enabled(s, ReconcileReply(b, true))
    ensures Apply(s, ReconcileReply(b, true)) ==
            Apply(s, End(s.batches[b].querying.value, OtherTrigger))
              .(batches := s.batches[b := Reconcile(s.batches[b].todo, None)])
  {
    var s1 := s.(batches := s.batches[b := Reconcile(s.batches[b].todo, None)]);
    EndIgnoresBatches(s, s1.batches, s.batches[b].querying.value);
  }

  lemma EndIgnoresBatches(s: State, batches: map<int, Batch>, r: Id)
    requires s.active <= s.calls.Keys
    ensures EndCall(s.(batches := batches), r, OtherTrigger) == EndCall(s, r, OtherTrigger).(batches := batches)
  {
    var s1 := s.(batches := batches);
    var c := Resolve(s, r);
    assert Resolve(s1, r) == c;
    if c in s.active {
      assert EndTracked(s1, c, OtherTrigger) == EndTracked(s, c, OtherTrigger).(batches := batches);
    }
  }

  /** Both lists are snapshots of the tracked calls, and beginning one changes nothing else. */
  lemma BatchesBegin(s: State, order: seq<Id>)
    requires WellFormed(s) && BatchesSound(s) && Enabled(s, EndAllStart(order))
    ensures Apply(s, EndAllStart(order)) ==
            s.(batches := s.batches[s.nextBatch := EndAll(s.active, order)], nextBatch := s.nextBatch + 1)
    ensures Apply(s, ReconcileStart(order)) ==
            s.(batches := s.batches[s.nextBatch := Reconcile(order, None)], nextBatch := s.nextBatch + 1)
    ensures s.nextBatch !in s.batches
  {
  }

  /** Shutdown forgets every tracked call without ending it: no message, no timer left, records kept. */
  lemma ShutdownForgets(s: State)
    requires WellFormed(s) && TimersExact(s) && Enabled(s, Dispose)
    ensures var s' := Apply(s, Dispose);
            && s'.active == {} && s'.session == map[] && s'.provider == map[] && s'.notification == map[]
            && s'.timers == map[] && s'.log == s.log && s'.calls.Keys == s.calls.Keys
            && forall c <- s.calls :: s'.calls[c].(watchdog := s.calls[c].watchdog) == s.calls[c]
  {
    DisposeKeepsTimers(s);
  }

  lemma EndCallTakesNoTime(s: State, r: Id, trigger: Trigger)
    requires s.active <= s.calls.Keys
    ensures EndCall(s, r, trigger).now == s.now
  {
  }

  lemma TrackingTakesNoTime(s: State, id: Id, p: Id, wsAudio: bool)
    ensures TrackInbound(s, id, p, wsAudio).now == s.now
    ensures id in s.outbound ==> TrackOutbound(s, id, p).now == s.now
  {
  }

  lemma DialTakesNoTime(s: State, id: Id, dialed: Option<Id>)
    requires id in s.outbound
    ensures DialOutbound(s, id, dialed).now == s.now
  {
    if dialed.Some? { TrackingTakesNoTime(s, id, dialed.value, false); }
  }

  lemma OpenTakesNoTime(s: State, id: Id, ok: bool)
    requires id in s.inbound && s.inbound[id].OpeningSession?
    ensures OpenInbound(s, id, ok).now == s.now
  {
    TrackingTakesNoTime(s, id, s.inbound[id].providerCallId, s.inbound[id].wsAudio);
  }

  lemma SetupTakesNoTime(s: State, e: Event)
    requires WellFormed(s) && Enabled(s, e)
    requires e.OutboundDialed? || e.OutboundPatched? || e.InboundSession?
    ensures Apply(s, e).now == s.now
  {
    match e
    case OutboundDialed(id, dialed) => DialTakesNoTime(s, id, dialed);
    case OutboundPatched(id) => TrackingTakesNoTime(s, id, s.outbound[id].stage.providerCallId, false);
    case InboundSession(id, ok) => OpenTakesNoTime(s, id, ok);
  }

  lemma SettlingTakesNoTime(s: State, a: int, ok: bool)
    requires a in s.attempts && s.attempts[a].call in s.calls
    ensures ContinueAnswer(s, a, ok).now == s.now && SettleAnswer(s, a, ok).now == s.now
  {
  }

  lemma MediaTakesNoTime(s: State, sessionId: Id, kind: MediaKind)
    requires s.active <= s.calls.Keys
    ensures HandleMedia(s, sessionId, kind).now == s.now
  {
  }

  lemma AnswersTakeNoTime(s: State, requested: Id, device: Id)
    requires s.active <= s.calls.Keys
    ensures BeginAnswer(s, requested, device).now == s.now
  {
    var c := Resolve(s, requested);
    if c in s.active && !s.calls[c].answered { FreshAnswerBears(s, c, device); }
  }

  lemma EndingTakesNoTime(s: State, e: Event)
    requires WellFormed(s) && Enabled(s, e)
    requires e.End? || e.WatchdogFires? || e.EndAllNext? || e.ReconcileReply?
    ensures Apply(s, e).now == s.now
  {
    match e
    case End(r, trigger) => EndCallTakesNoTime(s, r, trigger);
    case WatchdogFires(t) => EndCallTakesNoTime(s.(timers := s.timers - {t}), s.timers[t].call, OtherTrigger);
    case EndAllNext(b) => EndCallTakesNoTime(s, s.batches[b].todo[0], OtherTrigger);
    case ReconcileReply(b, _) =>
      EndCallTakesNoTime(s.(batches := s.batches[b := Reconcile(s.batches[b].todo, None)]),
                         s.batches[b].querying.value, OtherTrigger);
  }

  lemma AnswerEventsTakeNoTime(s: State, e: Event)
    requires WellFormed(s) && Enabled(s, e) && (e.Answer? || e.AnswerPatched? || e.AnswerSettled?)
    ensures Apply(s, e).now == s.now
  {
    match e
    case Answer(requested, device) => AnswersTakeNoTime(s, requested, device);
    case AnswerPatched(a, ok) => SettlingTakesNoTime(s, a, ok);
    case AnswerSettled(a, ok) => SettlingTakesNoTime(s, a, ok);
  }

  lemma OutboundStagesTakeNoTime(s: State, e: Event)
    requires WellFormed(s) && Enabled(s, e) && (e.OutboundStart? || e.OutboundSession?)
    ensures Apply(s, e).now == s.now
  {
    match e
    case OutboundStart(id, device, echo, wsAudio) => assert StartOutbound(s, id, device, echo, wsAudio).now == s.now;
    case OutboundSession(id, ok) => assert OpenOutbound(s, id, ok).now == s.now;
  }

  lemma NotifyingTakesNoTime(s: State, id: Id, created: Option<Id>)
    ensures NotifyInbound(s, id, created).now == s.now
  {
  }

  lemma InboundStagesTakeNoTime(s: State, id: Id, p: Id, flag: bool)
    ensures StartInbound(s, id, p, flag).now == s.now && AnnounceInbound(s, id, flag).now == s.now
  {
  }

  lemma BatchesTakeNoTime(s: State, e: Event)
    requires WellFormed(s) && Enabled(s, e)
    requires e.EndAllStart? || e.ReconcileStart? || e.ReconcileNext? || e.Dispose?
    ensures Apply(s, e).now == s.now
  {
    match e
    case EndAllStart(order) => assert StartBatch(s, EndAll(s.active, order)).now == s.now;
    case ReconcileStart(order) => assert StartBatch(s, Reconcile(order, None)).now == s.now;
    case ReconcileNext(b) => assert StepReconcile(s, b).now == s.now;
    case Dispose => assert DisposeAll(s).now == s.now;
  }

  lemma StepTakesTicks(s: State, e: Event)
    requires WellFormed(s) && Enabled(s, e)
    ensures Apply(s, e).now == s.now + (if e.Tick? then e.elapsed else 0)
  {
    if e.Media? {
      MediaTakesNoTime(s, e.sessionId, e.kind);
    } else if e.Answer? || e.AnswerPatched? || e.AnswerSettled? {
      AnswerEventsTakeNoTime(s, e);
    } else if e.OutboundDialed? || e.OutboundPatched? || e.InboundSession? {
      SetupTakesNoTime(s, e);
    } else if e.End? || e.WatchdogFires? || e.EndAllNext? || e.ReconcileReply? {
      EndingTakesNoTime(s, e);
    } else if e.EndAllStart? || e.ReconcileStart? || e.ReconcileNext? || e.Dispose? {
      BatchesTakeNoTime(s, e);
    } else if e.OutboundStart? || e.OutboundSession? {
      OutboundStagesTakeNoTime(s, e);
    } else if e.InboundNotified? {
      NotifyingTakesNoTime(s, e.id, e.created);
    } else if e.InboundStart? {
      InboundStagesTakeNoTime(s, e.id, e.providerCallId, e.wsAudio);
    } else if e.InboundNumbers? {
      InboundStagesTakeNoTime(s, e.id, e.id, e.ok);
    }
  }

  function Elapsed(es: seq<Event>): nat {
    if es == [] then 0 else (if es[0].Tick? then es[0].elapsed else 0) + Elapsed(es[1..])
  }

  /** Time may pass in every state, and changes nothing else; a timer may fire exactly when it is due. */
  lemma TimePasses(s: State, elapsed: nat)
    requires WellFormed(s)
    ensures forall t :: Enabled(s, WatchdogFires(t)) <==> t in s.timers && s.timers[t].due <= s.now
    ensures Enabled(s, Tick(elapsed)) && Apply(s, Tick(elapsed)) == s.(now := s.now + elapsed)
  {
  }

  /** The clock of every run is the sum of its ticks. */
  lemma {:induction false} ClockIsTicks(s: State, es: seq<Event>, s': State)
    requires Reaches(s, es, s')
    ensures s'.now == s.now + Elapsed(es)
    decreases |es|
  {
    if es != [] {
      StepTakesTicks(s, es[0]);
      ClockIsTicks(Apply(s, es[0]), es[1..], s');
    }
  }
}
