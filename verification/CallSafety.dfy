/** What holds in every state the call orchestrator can reach, and over whole runs. */
module CallSafety {
  import opened Basics
  import opened CallModel
  import opened CallInvariant

  /** s' is reached from s by the events es, each of them enabled when it happens. */
  ghost predicate Reaches(s: State, es: seq<Event>, s': State)
    decreases |es|
  {
    if es == [] then s' == s
    else WellFormed(s) && Enabled(s, es[0]) && Reaches(Apply(s, es[0]), es[1..], s')
  }

  lemma SetupKeepsInv(s: State, e: Event)
    requires Inv(s) && Enabled(s, e)
    requires e.OutboundStart? || e.OutboundSession? || e.OutboundDialed? || e.OutboundPatched?
          || e.InboundStart? || e.InboundSession? || e.InboundNumbers? || e.InboundNotified?
    ensures Inv(Apply(s, e))
  {
    match e
    case OutboundStart(id, device, echo, wsAudio) => StartOutboundKeepsInv(s, id, device, echo, wsAudio);
    case OutboundSession(id, ok) => OpenOutboundKeepsInv(s, id, ok);
    case OutboundDialed(id, dialed) => DialedKeepsInv(s, id, dialed);
    case OutboundPatched(id) => PatchedKeepsInv(s, id);
    case InboundStart(id, p, wsAudio) => StartInboundExact(s, id, p, wsAudio);
    case InboundSession(id, ok) => OpenInboundKeepsInv(s, id, ok);
    case InboundNumbers(id, ok) => AnnounceInboundKeepsInv(s, id, ok);
    case InboundNotified(id, created) => NotifyInboundKeepsInv(s, id, created);
  }

  lemma BulkKeepsInv(s: State, e: Event)
    requires Inv(s) && Enabled(s, e)
    requires e.EndAllStart? || e.EndAllNext? || e.ReconcileStart? || e.ReconcileNext? || e.ReconcileReply? || e.Dispose?
    ensures Inv(Apply(s, e))
  {
    match e
    case EndAllStart(order) => StartBatchKeepsInv(s, EndAll(s.active, order));
    case EndAllNext(b) => StepEndAllKeepsInv(s, b);
    case ReconcileStart(order) => StartBatchKeepsInv(s, Reconcile(order, None));
    case ReconcileNext(b) => StepReconcileKeepsInv(s, b);
    case ReconcileReply(b, gone) => ReplyReconcileKeepsInv(s, b, gone);
    case Dispose => DisposeExact(s);
  }

  /** Every event of the environment and of every suspended operation keeps the invariant. */
  lemma StepKeepsInv(s: State, e: Event)
    requires Inv(s) && Enabled(s, e)
    ensures WellFormed(s) && Inv(Apply(s, e))
  {
    if e.EndAllStart? || e.EndAllNext? || e.ReconcileStart? || e.ReconcileNext? || e.ReconcileReply? || e.Dispose? {
      BulkKeepsInv(s, e);
    } else {
      match e
      case Tick(elapsed) => AdvanceKeepsInv(s, elapsed);
      case Answer(requested, device) => BeginAnswerKeepsInv(s, requested, device);
      case AnswerPatched(a, ok) => ContinueAnswerKeepsInv(s, a, ok);
      case AnswerSettled(a, ok) => SettleAnswerKeepsInv(s, a, ok);
      case End(requested, trigger) => EndCallKeepsInv(s, requested, trigger);
      case Media(sessionId, kind) => MediaKeepsInv(s, sessionId, kind);
      case WatchdogFires(t) => FireWatchdogKeepsInv(s, t);
      case _ => SetupKeepsInv(s, e);
    }
  }

  lemma PatchedKeepsInv(s: State, id: Id)
    requires Inv(s) && id in s.outbound && s.outbound[id].stage.Patching?
    ensures Inv(TrackOutbound(s, id, s.outbound[id].stage.providerCallId))
  {
    Parts(s);
    TrackOutboundKeepsInv(s, id, s.outbound[id].stage.providerCallId);
  }

  lemma DialedKeepsInv(s: State, id: Id, dialed: Option<Id>)
    requires Inv(s) && id in s.outbound && s.outbound[id].stage == Dialing
    requires dialed.Some? ==> !ProviderIdInUse(s, dialed.value)
    ensures Inv(DialOutbound(s, id, dialed))
  {
    match dialed
    case None => OutboundFailsKeepsInv(s, id);
    case Some(p) => DialOutboundExact(s, id, p);
  }

  lemma {:induction false} ReachableKeepsInv(s: State, es: seq<Event>, s': State)
    requires Inv(s) && Reaches(s, es, s')
    ensures Inv(s')
    decreases |es|
  {
    if es != [] {
      StepKeepsInv(s, es[0]);
      ReachableKeepsInv(Apply(s, es[0]), es[1..], s');
    }
  }

  lemma InitHolds()
    ensures Inv(Init)
  {
  }

  /** Every reachable state has the invariant, part by part. */
  lemma {:induction false} Reachable(es: seq<Event>, s: State)
    requires Reaches(Init, es, s)
    ensures Inv(s)
    ensures MapsAgree(s) && IdsSeparate(s) && TimersExact(s) && AnswersExclusive(s) && TeardownsExact(s) &&
            BatchesSound(s)
  {
    InitHolds();
    ReachableKeepsInv(Init, es, s);
    Parts(s);
  }

  // ---------------------------------------------------------------- what a step can change

  ghost predicate Attempted(s: State, c: Id) { exists a <- s.attempts :: s.attempts[a].call == c }

  ghost predicate SameLive(s: State, s': State, c: Id) {
    (c in s'.lastLive <==> c in s.lastLive) && (c in s.lastLive ==> s'.lastLive[c] == s.lastLive[c])
  }

  ghost predicate WentLive(s: State, s': State, c: Id) {
    && c in s.calls && c in s'.calls && !s.calls[c].answered && s'.calls[c].answered &&
       s'.calls[c].answeredAt == Some(s.now)
    && c in s'.lastLive && s'.lastLive[c] == s.now
  }

  /**
    A call's record persists: its identity is fixed, an ended call stays ended, an answer with no
    attempt left is final, its deadline moves only when it goes live, and (short of a shutdown) it
    leaves tracking only by ending.
   */
  ghost predicate Kept(s: State, s': State, c: Id, shutdown: bool) {
    c in s.calls ==>
      && c in s'.calls
      && s'.calls[c].providerCallId == s.calls[c].providerCallId && s'.calls[c].inbound == s.calls[c].inbound
      && s'.calls[c].startedAt == s.calls[c].startedAt && (s.calls[c].ended ==> s'.calls[c].ended)
      && (s.calls[c].answered && !Attempted(s, c) ==>
            s'.calls[c].answered && s'.calls[c].device == s.calls[c].device &&
              s'.calls[c].answeredAt == s.calls[c].answeredAt)
      && (SameLive(s, s', c) || WentLive(s, s', c))
      && (shutdown || c !in s.active || c in s'.active || s'.calls[c].ended)
  }

  /** A pending timer was pending before, or is due no earlier than now. */
  ghost predicate TimerKept(s: State, s': State, t: int) {
    t in s'.timers ==> (t in s.timers && s'.timers[t] == s.timers[t]) || s.now <= s'.timers[t].due
  }

  ghost predicate Evolves(s: State, s': State, shutdown: bool) {
    && s.log <= s'.log
    && (forall c {:trigger Kept(s, s', c, shutdown)} :: Kept(s, s', c, shutdown))
    && (forall t {:trigger TimerKept(s, s', t)} :: TimerKept(s, s', t))
  }

  lemma EndTrackedEvolves(s: State, c: Id, trigger: Trigger)
    requires c in s.calls
    ensures Evolves(s, EndTracked(s, c, trigger), false)
  {
  }

  lemma EndCallEvolves(s: State, requested: Id, trigger: Trigger)
    requires s.active <= s.calls.Keys
    ensures Evolves(s, EndCall(s, requested, trigger), false)
  {
    var c := Resolve(s, requested);
    if c in s.active && !s.calls[c].ended { EndTrackedEvolves(s, c, trigger); } else { StillEvolves(s, s); }
  }

  lemma TrackEvolves(s: State, c: Id, call: Call)
    requires c !in s.calls && c !in s.lastLive
    ensures Evolves(s, Track(s, c, call), false)
  {
  }

  /** Two states that differ only in what evolution does not look at. */
  ghost predicate SameRecords(s: State, s1: State) {
    s1.calls == s.calls && s1.lastLive == s.lastLive && s1.timers == s.timers && s1.now == s.now &&
      s1.attempts == s.attempts
  }

  lemma EvolvesBetween(s: State, s1: State, s2: State, s': State)
    requires SameRecords(s, s1) && s1.log == s.log && s.active <= s1.active && Evolves(s1, s2, false)
    requires s'.calls == s2.calls && s'.lastLive == s2.lastLive && s'.timers == s2.timers && s2.active <= s'.active &&
             s2.log <= s'.log
    ensures Evolves(s, s', false)
  {
    forall c ensures Kept(s, s', c, false) {
      assert Kept(s1, s2, c, false);
      assert Attempted(s, c) <==> Attempted(s1, c);
    }
    forall t ensures TimerKept(s, s', t) { assert TimerKept(s1, s2, t); }
  }

  lemma TrackInboundEvolves(s: State, c: Id, p: Id, wsAudio: bool)
    requires c !in s.calls && c !in s.lastLive
    ensures Evolves(s, TrackInbound(s, c, p, wsAudio), false)
  {
    var s1 := s.(inbound := s.inbound[c := ReadingNumbers]);
    var call := NewCall(s, p, true, wsAudio, None);
    TrackEvolves(s1, c, call);
    EvolvesBetween(s, s1, Track(s1, c, call), TrackInbound(s, c, p, wsAudio));
  }

  lemma TrackOutboundEvolves(s: State, c: Id, p: Id)
    requires c !in s.calls && c !in s.lastLive && c in s.outbound
    ensures Evolves(s, TrackOutbound(s, c, p), false)
  {
    var s1 := s.(outbound := s.outbound - {c}, provider := s.provider[p := c]);
    var call := NewCall(s, p, false, s.outbound[c].wsAudio, Some(s.outbound[c].device));
    TrackEvolves(s1, c, call);
    EvolvesBetween(s, s1, Track(s1, c, call), TrackOutbound(s, c, p));
  }

  lemma GoLiveEvolves(s: State, c: Id, device: Option<Id>)
    requires c in s.calls && !s.calls[c].answered
    ensures Evolves(s, GoLive(s, c, device), false)
  {
  }

  /** A step that changes no record or timer and only appends to the log. */
  lemma StillEvolves(s: State, s': State)
    requires s'.calls == s.calls && s'.lastLive == s.lastLive && s'.timers == s.timers && s.log <= s'.log &&
             s.active <= s'.active
    ensures Evolves(s, s', false)
  {
  }

  lemma FreshAnswerEvolves(s: State, c: Id, device: Id)
    requires c in s.calls && !s.calls[c].answered
    ensures Evolves(s, FreshAnswer(s, c, device), false)
  {
    GoLiveEvolves(s, c, Some(device));
    EvolvesBetween(s, s, GoLive(s, c, Some(device)), FreshAnswer(s, c, device));
  }

  lemma BeginAnswerEvolves(s: State, requested: Id, device: Id)
    requires s.active <= s.calls.Keys
    ensures Evolves(s, BeginAnswer(s, requested, device), false)
  {
    var c := Resolve(s, requested);
    if c in s.active && !s.calls[c].answered {
      FreshAnswerEvolves(s, c, device);
    } else {
      StillEvolves(s, BeginAnswer(s, requested, device));
    }
  }

  lemma WithdrawEvolves(s: State, a: int)
    requires a in s.attempts && s.attempts[a].call in s.calls
    ensures Evolves(s, Withdraw(s, a), false)
  {
    assert Attempted(s, s.attempts[a].call);
  }

  lemma ContinueEvolves(s: State, a: int, ok: bool)
    requires a in s.attempts && s.attempts[a].call in s.calls
    ensures Evolves(s, ContinueAnswer(s, a, ok), false)
  {
    if ok {
      StillEvolves(s, ContinueAnswer(s, a, ok));
    } else {
      WithdrawEvolves(s, a);
      EvolvesBetween(s, s, Withdraw(s, a), ContinueAnswer(s, a, ok));
    }
  }

  lemma SettleEvolves(s: State, a: int, ok: bool)
    requires a in s.attempts && s.attempts[a].call in s.calls
    ensures Evolves(s, SettleAnswer(s, a, ok), false)
  {
    if ok {
      StillEvolves(s, SettleAnswer(s, a, ok));
    } else {
      WithdrawEvolves(s, a);
      EvolvesBetween(s, s, Withdraw(s, a), SettleAnswer(s, a, ok));
    }
  }

  lemma MediaEvolves(s: State, sessionId: Id, kind: MediaKind)
    requires s.active <= s.calls.Keys
    ensures Evolves(s, HandleMedia(s, sessionId, kind), false)
  {
    if sessionId in s.session && s.session[sessionId] in s.active {
      var c := s.session[sessionId];
      if kind.ProviderGone? {
        EndCallEvolves(s, c, ProviderDisconnected);
      } else if kind.ClientGone? {
        EndCallEvolves(s, c, OtherTrigger);
      } else if kind.ProviderUp? && !s.calls[c].answered && !s.calls[c].inbound {
        GoLiveEvolves(s, c, s.calls[c].device);
        EvolvesBetween(s, s, GoLive(s, c, s.calls[c].device), HandleMedia(s, sessionId, kind));
      } else {
        StillEvolves(s, HandleMedia(s, sessionId, kind));
      }
    }
  }

  lemma FireEvolves(s: State, t: int)
    requires s.active <= s.calls.Keys && t in s.timers
    ensures Evolves(s, FireWatchdog(s, t), false)
  {
    var s1 := s.(timers := s.timers - {t});
    var s' := FireWatchdog(s, t);
    EndCallEvolves(s1, s.timers[t].call, OtherTrigger);
    StillEvolves(s1, s1);
    assert s' == s1 || s' == EndCall(s1, s.timers[t].call, OtherTrigger);
    FewerTimersEvolves(s, s1, s');
  }

  lemma FewerTimersEvolves(s: State, s1: State, s': State)
    requires s1 == s.(timers := s1.timers) && Evolves(s1, s', false)
    requires forall t <- s1.timers :: t in s.timers && s1.timers[t] == s.timers[t]
    ensures Evolves(s, s', false)
  {
    forall c ensures Kept(s, s', c, false) {
      assert Kept(s1, s', c, false);
      assert Attempted(s, c) <==> Attempted(s1, c);
    }
    forall t ensures TimerKept(s, s', t) { assert TimerKept(s1, s', t); }
  }

  lemma ReplyEvolves(s: State, b: int, gone: bool)
    requires s.active <= s.calls.Keys && b in s.batches && s.batches[b].Reconcile? && s.batches[b].querying.Some?
    ensures Evolves(s, ReplyReconcile(s, b, gone), false)
  {
    var s1 := s.(batches := s.batches[b := Reconcile(s.batches[b].todo, None)]);
    var s' := ReplyReconcile(s, b, gone);
    EndCallEvolves(s1, s.batches[b].querying.value, OtherTrigger);
    StillEvolves(s1, s1);
    EvolvesBetween(s, s1, s', s');
  }

  lemma EndAllEvolves(s: State, b: int)
    requires s.active <= s.calls.Keys && b in s.batches && s.batches[b].EndAll? && s.batches[b].todo != []
    ensures Evolves(s, StepEndAll(s, b), false)
  {
    EndCallEvolves(s, s.batches[b].todo[0], OtherTrigger);
    EvolvesBetween(s, s, EndCall(s, s.batches[b].todo[0], OtherTrigger), StepEndAll(s, b));
  }

  lemma DisposeEvolves(s: State)
    requires s.active <= s.calls.Keys
    ensures Evolves(s, DisposeAll(s), true)
  {
  }

  lemma DialEvolves(s: State, id: Id, dialed: Option<Id>)
    requires id in s.outbound && id !in s.calls && id !in s.lastLive
    ensures Evolves(s, DialOutbound(s, id, dialed), false)
  {
    if dialed.Some? && s.outbound[id].echo {
      TrackOutboundEvolves(s, id, dialed.value);
    } else {
      StillEvolves(s, DialOutbound(s, id, dialed));
    }
  }

  lemma OpenInboundEvolves(s: State, id: Id, ok: bool)
    requires id in s.inbound && s.inbound[id].OpeningSession? && id !in s.calls && id !in s.lastLive
    ensures Evolves(s, OpenInbound(s, id, ok), false)
  {
    if ok {
      TrackInboundEvolves(s, id, s.inbound[id].providerCallId, s.inbound[id].wsAudio);
    } else {
      StillEvolves(s, OpenInbound(s, id, ok));
    }
  }

  lemma SetupIsUntracked(s: State, id: Id)
    requires Inv(s) && (id in s.outbound || (id in s.inbound && s.inbound[id].OpeningSession?))
    ensures id !in s.calls && id !in s.lastLive
  {
    Parts(s);
  }

  lemma OutboundEvolves(s: State, e: Event)
    requires Inv(s) && Enabled(s, e)
    requires e.OutboundStart? || e.OutboundSession? || e.OutboundDialed? || e.OutboundPatched?
    ensures Evolves(s, Apply(s, e), false)
  {
    match e
    case OutboundStart(id, device, echo, wsAudio) => StillEvolves(s, StartOutbound(s, id, device, echo, wsAudio));
    case OutboundSession(id, ok) => StillEvolves(s, OpenOutbound(s, id, ok));
    case OutboundDialed(id, dialed) =>
      SetupIsUntracked(s, id);
      DialEvolves(s, id, dialed);
    case OutboundPatched(id) =>
      SetupIsUntracked(s, id);
      TrackOutboundEvolves(s, id, s.outbound[id].stage.providerCallId);
  }

  lemma InboundEvolves(s: State, e: Event)
    requires Inv(s) && Enabled(s, e)
    requires e.InboundStart? || e.InboundSession? || e.InboundNumbers? || e.InboundNotified?
    ensures Evolves(s, Apply(s, e), false)
  {
    match e
    case InboundStart(id, p, wsAudio) => StillEvolves(s, StartInbound(s, id, p, wsAudio));
    case InboundSession(id, ok) =>
      SetupIsUntracked(s, id);
      OpenInboundEvolves(s, id, ok);
    case InboundNumbers(id, ok) => AnnounceEvolves(s, id, ok);
    case InboundNotified(id, created) => NotifyEvolves(s, id, created);
  }

  lemma AnnounceEvolves(s: State, id: Id, ok: bool)
    ensures Evolves(s, AnnounceInbound(s, id, ok), false)
  {
    StillEvolves(s, AnnounceInbound(s, id, ok));
  }

  lemma NotifyEvolves(s: State, id: Id, created: Option<Id>)
    ensures Evolves(s, NotifyInbound(s, id, created), false)
  {
    var s' := NotifyInbound(s, id, created);
    assert s'.calls == s.calls && s'.log == s.log && s'.active == s.active;
    assert s'.lastLive == s.lastLive && s'.timers == s.timers;
    StillEvolves(s, s');
  }

  lemma AnswerEvolves(s: State, e: Event)
    requires WellFormed(s) && Enabled(s, e)
    requires e.Answer? || e.AnswerPatched? || e.AnswerSettled?
    ensures Evolves(s, Apply(s, e), false)
  {
    match e
    case Answer(requested, device) => BeginAnswerEvolves(s, requested, device);
    case AnswerPatched(a, ok) => ContinueEvolves(s, a, ok);
    case AnswerSettled(a, ok) => SettleEvolves(s, a, ok);
  }

  lemma BulkEvolves(s: State, e: Event)
    requires WellFormed(s) && Enabled(s, e)
    requires e.EndAllStart? || e.EndAllNext? || e.ReconcileStart? || e.ReconcileNext? || e.ReconcileReply?
    ensures Evolves(s, Apply(s, e), false)
  {
    match e
    case EndAllStart(order) => StillEvolves(s, StartBatch(s, EndAll(s.active, order)));
    case EndAllNext(b) => EndAllEvolves(s, b);
    case ReconcileStart(order) => StillEvolves(s, StartBatch(s, Reconcile(order, None)));
    case ReconcileNext(b) => StillEvolves(s, StepReconcile(s, b));
    case ReconcileReply(b, gone) => ReplyEvolves(s, b, gone);
  }

  /** Every step keeps the records; every step but shutdown lets a call leave tracking only by ending. */
  lemma StepEvolves(s: State, e: Event)
    requires Inv(s) && Enabled(s, e)
    ensures Evolves(s, Apply(s, e), e.Dispose?)
  {
    if e.Tick? {
      AdvanceEvolves(s, e.elapsed);
    } else if e.Answer? || e.AnswerPatched? || e.AnswerSettled? {
      AnswerEvolves(s, e);
    } else if e.End? || e.Media? || e.WatchdogFires? {
      TrackedEvolves(s, e);
    } else if e.Dispose? {
      DisposeEvolves(s);
    } else {
      SetupOrBulkEvolves(s, e);
    }
  }

  lemma TrackedEvolves(s: State, e: Event)
    requires WellFormed(s) && Enabled(s, e) && (e.End? || e.Media? || e.WatchdogFires?)
    ensures Evolves(s, Apply(s, e), false)
  {
    match e
    case End(requested, trigger) => EndCallEvolves(s, requested, trigger);
    case Media(sessionId, kind) => MediaEvolves(s, sessionId, kind);
    case WatchdogFires(t) => FireEvolves(s, t);
  }

  lemma SetupOrBulkEvolves(s: State, e: Event)
    requires Inv(s) && Enabled(s, e)
    requires !e.Tick? && !e.Answer? && !e.AnswerPatched? && !e.AnswerSettled? && !e.End? && !e.Media? &&
             !e.WatchdogFires? && !e.Dispose?
    ensures Evolves(s, Apply(s, e), false)
  {
    if e.EndAllStart? || e.EndAllNext? || e.ReconcileStart? || e.ReconcileNext? || e.ReconcileReply? {
      BulkEvolves(s, e);
    } else if e.InboundStart? || e.InboundSession? || e.InboundNumbers? || e.InboundNotified? {
      InboundEvolves(s, e);
    } else {
      OutboundEvolves(s, e);
    }
  }

  lemma AdvanceEvolves(s: State, elapsed: nat)
    ensures Evolves(s, Advance(s, elapsed), false)
  {
    StillEvolves(s, Advance(s, elapsed));
  }

  /** The part of evolution that composes over a run. */
  ghost predicate Grows(s: State, s': State) {
    && s.log <= s'.log
    && forall c <- s.calls ::
         c in s'.calls && s'.calls[c].providerCallId == s.calls[c].providerCallId &&
           (s.calls[c].ended ==> s'.calls[c].ended)
  }

  lemma EvolvesGrows(s: State, s': State, shutdown: bool)
    requires Evolves(s, s', shutdown)
    ensures Grows(s, s')
  {
    forall c <- s.calls ensures c in s'.calls { assert Kept(s, s', c, shutdown); }
    forall c <- s.calls
      ensures s'.calls[c].providerCallId == s.calls[c].providerCallId && (s.calls[c].ended ==> s'.calls[c].ended)
    {
      assert Kept(s, s', c, shutdown);
    }
  }

  lemma {:induction false} RunGrows(s: State, es: seq<Event>, s': State)
    requires Inv(s) && Reaches(s, es, s')
    ensures Grows(s, s')
    decreases |es|
  {
    if es != [] {
      StepKeepsInv(s, es[0]);
      StepEvolves(s, es[0]);
      EvolvesGrows(s, Apply(s, es[0]), es[0].Dispose?);
      RunGrows(Apply(s, es[0]), es[1..], s');
    }
  }
}
