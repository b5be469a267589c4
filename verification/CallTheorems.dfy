/** The promises of the call orchestrator, for every run from the start and every interleaving. */
module CallTheorems {
  import opened Basics
  import opened CallModel
  import opened CallInvariant
  import opened CallSafety

  // ---------------------------------------------------------------- the four maps

  /** No id map leads to the call, directly or through one of its other ids. */
  ghost predicate Unmentioned(s: State, c: Id) {
    c !in s.active && c !in s.session && c !in s.session.Values && c !in s.provider.Values &&
      c !in s.notification.Values
  }

  lemma EndedIsUnmentioned(s: State, c: Id)
    requires MapsAgree(s) && IdsSeparate(s) && Ended(s, c)
    ensures Unmentioned(s, c)
  {
    assert c !in s.active;
    forall k <- s.session ensures s.session[k] != c {}
    forall n <- s.notification ensures s.notification[n] != c {}
    forall p <- s.provider ensures s.provider[p] != c {
      assert s.provider[p] in s.active || OpeningFor(s, s.provider[p], p);
    }
  }

  /**
    In every reachable state the maps agree (see MapsAgree): a tracked call is found under its
    session and its provider id, and every entry leads to a tracked call or, for a provider id,
    to one whose media session is still being opened. An ended call is mentioned nowhere.
   */
  lemma {:induction false} MapsAlwaysAgree(es: seq<Event>, s: State)
    requires Reaches(Init, es, s)
    ensures MapsAgree(s)
    ensures forall c :: Ended(s, c) ==> Unmentioned(s, c)
  {
    Reachable(es, s);
    forall c | Ended(s, c) ensures Unmentioned(s, c) { EndedIsUnmentioned(s, c); }
  }

  lemma {:induction false} TeardownKept(log: seq<Effect>, log': seq<Effect>, c: Id, p: Id)
    requires log <= log' && TornDownOnce(log, c, p) && |Teardown(log', c)| == 5
    ensures Teardown(log', c) == Teardown(log, c)
  {
    assert log' == log + log'[|log|..];
    LogAppend(log, log'[|log|..], c);
  }

  lemma {:induction false} WritesUpTo(t: seq<Effect>, k: nat)
    requires |t| <= k && forall e <- t :: !e.History?
    ensures Writes(t) == 0
    decreases k
  {
    if t != [] {
      assert t[|t| - 1] in t && forall e <- t[..|t| - 1] :: e in t;
      WritesUpTo(t[..|t| - 1], k - 1);
    }
  }

  /** One teardown writes one history update at most: none exactly when its branch is NoUpdate. */
  lemma {:induction false} TeardownWrites(log: seq<Effect>, c: Id, p: Id)
    requires TornDownOnce(log, c, p)
    ensures Writes(Teardown(log, c)) <= 1
    ensures Writes(Teardown(log, c)) == 0 <==> Teardown(log, c)[4].update == NoUpdate
  {
    WritesUpTo(Teardown(log, c)[..4], 4);
  }

  /**
    Once a call has ended it stays ended, no map mentions it again, and its teardown - one
    `disconnected`, one cancellation, one session destroy, one provider hangup and at most
    one history update, in that order - is never repeated.
   */
  lemma {:induction false} EndedForever(s: State, es: seq<Event>, s': State, c: Id)
    requires Inv(s) && Reaches(s, es, s') && Ended(s, c)
    ensures Ended(s', c) && Unmentioned(s', c)
    ensures Teardown(s'.log, c) == Teardown(s.log, c) && TornDownOnce(s'.log, c, s.calls[c].providerCallId)
    ensures Writes(Teardown(s'.log, c)) == Writes(Teardown(s.log, c)) <= 1
  {
    RunGrows(s, es, s');
    ReachableKeepsInv(s, es, s');
    Parts(s);
    Parts(s');
    EndedIsUnmentioned(s', c);
    TeardownKept(s.log, s'.log, c, s.calls[c].providerCallId);
    TeardownWrites(s.log, c, s.calls[c].providerCallId);
  }

  /** A tracked call leaves tracking only by ending (which tears it down once), or at shutdown. */
  lemma LeavesByEnding(s: State, e: Event, c: Id)
    requires Inv(s) && Enabled(s, e) && c in s.active && c !in Apply(s, e).active
    ensures e.Dispose? || (Ended(Apply(s, e), c) && TornDownOnce(Apply(s, e).log, c, s.calls[c].providerCallId))
  {
    Parts(s);
    StepEvolves(s, e);
    StepKeepsInv(s, e);
    Parts(Apply(s, e));
    assert Kept(s, Apply(s, e), c, e.Dispose?);
  }

  // ---------------------------------------------------------------- answering

  lemma AttemptsMarked(s: State, a: int, b: int)
    requires AnswersExclusive(s) && a in s.attempts && b in s.attempts && s.attempts[a].call == s.attempts[b].call
    ensures a == b && s.attempts[a].call in s.calls
    ensures var call := s.calls[s.attempts[a].call];
            call.answered && call.device == Some(s.attempts[a].device) && call.answeredAt.Some?
  {
  }

  /** At most one attempt per call is in flight, and while it is, the call is marked with its device. */
  lemma {:induction false} OneAttemptInFlight(es: seq<Event>, s: State, a: int, b: int)
    requires Reaches(Init, es, s) && a in s.attempts && b in s.attempts && s.attempts[a].call == s.attempts[b].call
    ensures a == b && s.attempts[a].call in s.calls
    ensures var call := s.calls[s.attempts[a].call];
            call.answered && call.device == Some(s.attempts[a].device) && call.answeredAt.Some?
  {
    Reachable(es, s);
    AttemptsMarked(s, a, b);
  }

  /** For an inbound call the three answer fields are set together and rolled back together. */
  lemma {:induction false} AnswerFieldsTogether(es: seq<Event>, s: State, c: Id)
    requires Reaches(Init, es, s) && c in s.calls && s.calls[c].inbound
    ensures s.calls[c].answered <==> s.calls[c].device.Some?
    ensures s.calls[c].answered <==> s.calls[c].answeredAt.Some?
  {
    Reachable(es, s);
  }

  lemma {:induction false} WinnerPersists(s: State, s': State, c: Id, shutdown: bool)
    requires AnswersExclusive(s) && AnswersExclusive(s') && Evolves(s, s', shutdown) && Successes(s.log, c) == 1
    ensures Successes(s'.log, c) == 1 && c in s.calls && c in s'.calls
    ensures s'.calls[c].answered && s'.calls[c].device == s.calls[c].device &&
            s'.calls[c].answeredAt == s.calls[c].answeredAt
  {
    assert s'.log == s.log + s'.log[|s.log|..];
    LogAppend(s.log, s'.log[|s.log|..], c);
    assert !Attempted(s, c) && Kept(s, s', c, shutdown);
  }

  /** At most one answerCall per call ever reports success, and the device it reported stays the winner. */
  lemma {:induction false} WinnerStays(s: State, es: seq<Event>, s': State, c: Id)
    requires Inv(s) && Reaches(s, es, s') && Successes(s.log, c) == 1
    ensures Successes(s'.log, c) == 1 && c in s.calls && c in s'.calls
    ensures s'.calls[c].answered && s'.calls[c].device == s.calls[c].device &&
            s'.calls[c].answeredAt == s.calls[c].answeredAt
    decreases |es|
  {
    Parts(s);
    if es != [] {
      StepKeepsInv(s, es[0]);
      StepEvolves(s, es[0]);
      Parts(Apply(s, es[0]));
      WinnerPersists(s, Apply(s, es[0]), c, es[0].Dispose?);
      WinnerStays(Apply(s, es[0]), es[1..], s', c);
    }
  }

  lemma {:induction false} AtMostOneSuccess(es: seq<Event>, s: State, c: Id)
    requires Reaches(Init, es, s)
    ensures Successes(s.log, c) <= 1
    ensures Successes(s.log, c) == 1 ==> c in s.calls && s.calls[c].answered && !Attempted(s, c)
  {
    Reachable(es, s);
  }

  // ---------------------------------------------------------------- the watchdog

  /** The pending timers of a call. */
  ghost function TimersOf(s: State, c: Id): set<int> { set t | t in s.timers && s.timers[t].call == c }

  lemma TimersOfCall(s: State, c: Id)
    requires TimersExact(s)
    ensures c in s.active ==> exists t :: TimersOf(s, c) == {t} && t in s.timers && s.timers[t].due == Deadline(s, c)
    ensures c !in s.active ==> TimersOf(s, c) == {}
  {
    if c in s.active {
      var t := s.calls[c].watchdog.value;
      assert OwnsTimer(s, c, t);
      forall u <- TimersOf(s, c) ensures u == t { assert OwnsTimer(s, s.timers[u].call, u); }
      assert TimersOf(s, c) == {t};
    } else {
      forall t <- s.timers ensures s.timers[t].call != c { assert s.timers[t].call in s.active; }
    }
  }

  /** A tracked call has exactly one pending timer, at its exact deadline; any other id has none. */
  lemma {:induction false} WatchdogExact(es: seq<Event>, s: State, c: Id)
    requires Reaches(Init, es, s)
    ensures s.active <= s.calls.Keys
    ensures c in s.active ==> exists t :: TimersOf(s, c) == {t} && t in s.timers && s.timers[t].due == Deadline(s, c)
    ensures c !in s.active ==> TimersOf(s, c) == {}
  {
    Reachable(es, s);
    TimersOfCall(s, c);
  }

  lemma DeadlinePersists(s: State, s': State, c: Id, shutdown: bool)
    requires Kept(s, s', c, shutdown) && c in s.calls && c in s'.calls && Deadline(s', c) != Deadline(s, c)
    ensures !s.calls[c].answered && s'.calls[c].answered && s'.calls[c].answeredAt == Some(s.now)
    ensures Deadline(s', c) == s.now + MAX_CALL_DURATION_MS
  {
  }

  /** A deadline moves only when the call becomes live, and then to four hours from that moment. */
  lemma DeadlineMoves(s: State, e: Event, c: Id)
    requires Inv(s) && Enabled(s, e) && c in s.calls && c in Apply(s, e).calls
    requires Deadline(Apply(s, e), c) != Deadline(s, c)
    ensures !s.calls[c].answered && Apply(s, e).calls[c].answered && Apply(s, e).calls[c].answeredAt == Some(s.now)
    ensures Deadline(Apply(s, e), c) == s.now + MAX_CALL_DURATION_MS
  {
    Parts(s);
    StepEvolves(s, e);
    assert Kept(s, Apply(s, e), c, e.Dispose?);
    DeadlinePersists(s, Apply(s, e), c, e.Dispose?);
  }

  /** A record that a step creates starts at that moment and has not gone live. */
  ghost predicate BornNow(s: State, s': State) {
    && s.now <= s'.now
    && forall c <- s'.calls :: c in s.calls || (s'.calls[c].startedAt == s.now && c !in s'.lastLive)
  }

  lemma EndCallBears(s: State, requested: Id, trigger: Trigger)
    requires WellFormed(s)
    ensures BornNow(s, EndCall(s, requested, trigger))
  {
  }

  lemma GoLiveBears(s: State, c: Id, device: Option<Id>)
    requires c in s.calls
    ensures GoLive(s, c, device).calls.Keys == s.calls.Keys && GoLive(s, c, device).now == s.now
  {
  }

  lemma FreshAnswerBears(s: State, c: Id, device: Id)
    requires c in s.calls
    ensures FreshAnswer(s, c, device).calls.Keys == s.calls.Keys && FreshAnswer(s, c, device).now == s.now
  {
    var live := GoLive(s, c, Some(device));
    GoLiveBears(s, c, Some(device));
    if !s.calls[c].inbound {
      assert FreshAnswer(s, c, device) == FinishAnswer(live, c, device);
    } else if s.calls[c].wsAudio {
      assert FreshAnswer(s, c, device) == StartAttempt(live, c, device, PatchingSession);
    } else {
      assert FreshAnswer(s, c, device) ==
             Say(StartAttempt(live, c, device, AwaitingProvider), [AnswerCommand(c, device)]);
    }
  }

  /** Steps that touch no record bear none. */
  lemma NoneBorn(s: State, s': State)
    requires s'.calls.Keys == s.calls.Keys && s.now <= s'.now
    ensures BornNow(s, s')
  {
  }

  lemma BeginAnswerBears(s: State, requested: Id, device: Id)
    requires WellFormed(s)
    ensures BornNow(s, BeginAnswer(s, requested, device))
  {
    var c := Resolve(s, requested);
    if c !in s.active {
      NoneBorn(s, Say(s, [AnswerReply(c, NotFound)]));
    } else if s.calls[c].answered {
      NoneBorn(s, Say(s, [AnswerReply(c, AlreadyAnswered)]));
    } else {
      FreshAnswerBears(s, c, device);
      NoneBorn(s, FreshAnswer(s, c, device));
    }
  }

  lemma ContinueBears(s: State, a: int, ok: bool)
    requires a in s.attempts && s.attempts[a].call in s.calls
    ensures BornNow(s, ContinueAnswer(s, a, ok))
  {
    assert ContinueAnswer(s, a, ok).calls.Keys == s.calls.Keys;
  }

  lemma SettleBears(s: State, a: int, ok: bool)
    requires a in s.attempts && s.attempts[a].call in s.calls
    ensures BornNow(s, SettleAnswer(s, a, ok))
  {
    assert SettleAnswer(s, a, ok).calls.Keys == s.calls.Keys;
  }

  lemma TrackOutboundBears(s: State, c: Id, p: Id)
    requires c in s.outbound && s.lastLive.Keys <= s.calls.Keys
    ensures BornNow(s, TrackOutbound(s, c, p))
  {
  }

  lemma TrackInboundBears(s: State, c: Id, p: Id, wsAudio: bool)
    requires s.lastLive.Keys <= s.calls.Keys
    ensures BornNow(s, TrackInbound(s, c, p, wsAudio))
  {
  }

  lemma OutboundBears(s: State, id: Id, dialed: Option<Id>)
    requires id in s.outbound && s.lastLive.Keys <= s.calls.Keys
    ensures BornNow(s, DialOutbound(s, id, dialed))
  {
    if dialed.Some? && s.outbound[id].echo {
      TrackOutboundBears(s, id, dialed.value);
    } else {
      NoneBorn(s, DialOutbound(s, id, dialed));
    }
  }

  lemma InboundBears(s: State, id: Id, ok: bool)
    requires id in s.inbound && s.inbound[id].OpeningSession? && s.lastLive.Keys <= s.calls.Keys
    ensures BornNow(s, OpenInbound(s, id, ok))
  {
    TrackInboundBears(s, id, s.inbound[id].providerCallId, s.inbound[id].wsAudio);
  }

  lemma MediaBears(s: State, sessionId: Id, kind: MediaKind)
    requires WellFormed(s)
    ensures BornNow(s, HandleMedia(s, sessionId, kind))
  {
    if sessionId in s.session && s.session[sessionId] in s.active {
      var c := s.session[sessionId];
      match kind
      case ProviderGone => EndCallBears(s, c, ProviderDisconnected);
      case ClientGone => EndCallBears(s, c, OtherTrigger);
      case ProviderUp => GoLiveBears(s, c, s.calls[c].device);
      case _ =>
    }
  }

  lemma FireBears(s: State, t: int)
    requires WellFormed(s) && t in s.timers
    ensures BornNow(s, FireWatchdog(s, t))
  {
    EndCallBears(s.(timers := s.timers - {t}), s.timers[t].call, OtherTrigger);
  }

  lemma BulkBears(s: State, e: Event)
    requires WellFormed(s) && Enabled(s, e) && (e.EndAllNext? || e.ReconcileNext? || e.ReconcileReply?)
    ensures BornNow(s, Apply(s, e))
  {
    match e
    case EndAllNext(b) => EndCallBears(s, s.batches[b].todo[0], OtherTrigger);
    case ReconcileNext(b) =>
    case ReconcileReply(b, gone) =>
      var s1 := s.(batches := s.batches[b := Reconcile(s.batches[b].todo, None)]);
      EndCallBears(s1, s.batches[b].querying.value, OtherTrigger);
  }

  lemma OutboundSetupBears(s: State, e: Event)
    requires WellFormed(s) && s.lastLive.Keys <= s.calls.Keys && Enabled(s, e)
    requires e.OutboundStart? || e.OutboundSession? || e.OutboundDialed? || e.OutboundPatched?
    ensures BornNow(s, Apply(s, e))
  {
    match e
    case OutboundStart(id, device, echo, wsAudio) => NoneBorn(s, StartOutbound(s, id, device, echo, wsAudio));
    case OutboundSession(id, ok) => NoneBorn(s, OpenOutbound(s, id, ok));
    case OutboundDialed(id, dialed) => OutboundBears(s, id, dialed);
    case OutboundPatched(id) => TrackOutboundBears(s, id, s.outbound[id].stage.providerCallId);
  }

  lemma AnnounceBears(s: State, id: Id, ok: bool)
    ensures BornNow(s, AnnounceInbound(s, id, ok))
  {
    if ok {
      NoneBorn(s, Say(s.(inbound := s.inbound[id := Notifying]), [Ringing(id)]));
    } else {
      NoneBorn(s, s.(inbound := s.inbound - {id}));
    }
  }

  lemma InboundSetupBears(s: State, e: Event)
    requires WellFormed(s) && s.lastLive.Keys <= s.calls.Keys && Enabled(s, e)
    requires e.InboundStart? || e.InboundSession? || e.InboundNumbers? || e.InboundNotified?
    ensures BornNow(s, Apply(s, e))
  {
    match e
    case InboundStart(id, p, wsAudio) => NoneBorn(s, StartInbound(s, id, p, wsAudio));
    case InboundSession(id, ok) => InboundBears(s, id, ok);
    case InboundNumbers(id, ok) => AnnounceBears(s, id, ok);
    case InboundNotified(id, created) => NoneBorn(s, NotifyInbound(s, id, created));
  }

  lemma StepBears(s: State, e: Event)
    requires WellFormed(s) && s.lastLive.Keys <= s.calls.Keys && Enabled(s, e)
    ensures BornNow(s, Apply(s, e))
  {
    match e
    case Tick(elapsed) => NoneBorn(s, Advance(s, elapsed));
    case Answer(requested, device) => BeginAnswerBears(s, requested, device);
    case AnswerPatched(a, ok) => ContinueBears(s, a, ok);
    case AnswerSettled(a, ok) => SettleBears(s, a, ok);
    case End(requested, trigger) => EndCallBears(s, requested, trigger);
    case Media(sessionId, kind) => MediaBears(s, sessionId, kind);
    case WatchdogFires(t) => FireBears(s, t);
    case EndAllStart(order) => NoneBorn(s, StartBatch(s, EndAll(s.active, order)));
    case EndAllNext(_) => BulkBears(s, e);
    case ReconcileStart(order) => NoneBorn(s, StartBatch(s, Reconcile(order, None)));
    case ReconcileNext(_) => BulkBears(s, e);
    case ReconcileReply(_, _) => BulkBears(s, e);
    case Dispose => NoneBorn(s, DisposeAll(s));
    case OutboundStart(_, _, _, _) => OutboundSetupBears(s, e);
    case OutboundSession(_, _) => OutboundSetupBears(s, e);
    case OutboundDialed(_, _) => OutboundSetupBears(s, e);
    case OutboundPatched(_) => OutboundSetupBears(s, e);
    case _ => InboundSetupBears(s, e);
  }

  /** No deadline is more than four hours away. */
  ghost predicate DeadlinesNear(s: State) {
    forall c <- s.calls :: Deadline(s, c) <= s.now + MAX_CALL_DURATION_MS
  }

  lemma NearPersists(s: State, s': State, shutdown: bool)
    requires DeadlinesNear(s) && BornNow(s, s') && Evolves(s, s', shutdown)
    ensures DeadlinesNear(s')
  {
    forall c | c in s'.calls ensures Deadline(s', c) <= s'.now + MAX_CALL_DURATION_MS {
      if c in s.calls {
        assert Kept(s, s', c, shutdown);
        assert Deadline(s, c) <= s.now + MAX_CALL_DURATION_MS;
      }
    }
  }

  lemma {:induction false} RunStaysNear(s: State, es: seq<Event>, s': State)
    requires Inv(s) && DeadlinesNear(s) && Reaches(s, es, s')
    ensures DeadlinesNear(s')
    decreases |es|
  {
    if es != [] {
      Parts(s);
      StepBears(s, es[0]);
      StepEvolves(s, es[0]);
      StepKeepsInv(s, es[0]);
      NearPersists(s, Apply(s, es[0]), es[0].Dispose?);
      RunStaysNear(Apply(s, es[0]), es[1..], s');
    }
  }

  /** In every run a deadline that moves moves forward. */
  lemma {:induction false} DeadlineMovesForward(es: seq<Event>, s: State, e: Event, c: Id)
    requires Reaches(Init, es, s) && WellFormed(s) && Enabled(s, e) && c in s.calls && c in Apply(s, e).calls
    ensures Deadline(Apply(s, e), c) != Deadline(s, c) ==> Deadline(Apply(s, e), c) > Deadline(s, c)
  {
    InitHolds();
    Reachable(es, s);
    ReachableKeepsInv(Init, es, s);
    RunStaysNear(Init, es, s);
    if Deadline(Apply(s, e), c) != Deadline(s, c) { DeadlineMoves(s, e, c); }
  }

  /** The event loop is prompt in a run when the clock never moves past a pending timer's due time. */
  ghost predicate Prompt(s: State, es: seq<Event>)
    decreases |es|
  {
    es == [] || (WellFormed(s) && Enabled(s, es[0])
      && (Apply(s, es[0]).now != s.now ==> NoneOverdue(Apply(s, es[0])))
      && Prompt(Apply(s, es[0]), es[1..]))
  }

  ghost predicate NoneOverdue(s: State) { forall t <- s.timers :: s.now <= s.timers[t].due }

  lemma StaysPunctual(s: State, s': State, shutdown: bool)
    requires Evolves(s, s', shutdown) && NoneOverdue(s) && s'.now == s.now
    ensures NoneOverdue(s')
  {
    forall t <- s'.timers ensures s'.now <= s'.timers[t].due { assert TimerKept(s, s', t); }
  }

  lemma NotPastDeadline(s: State)
    requires TimersExact(s) && NoneOverdue(s)
    ensures forall c <- s.active :: s.now <= Deadline(s, c)
  {
    forall c <- s.active ensures s.now <= Deadline(s, c) {
      assert OwnsTimer(s, c, s.calls[c].watchdog.value);
    }
  }

  /** With a prompt event loop no call is ever tracked past its deadline. */
  lemma {:induction false} NeverOverdue(s: State, es: seq<Event>, s': State)
    requires Inv(s) && NoneOverdue(s) && Prompt(s, es) && Reaches(s, es, s')
    ensures s'.active <= s'.calls.Keys
    ensures forall c <- s'.active :: s'.now <= Deadline(s', c)
    decreases |es|
  {
    if es == [] {
      Parts(s);
      NotPastDeadline(s);
    } else {
      StepKeepsInv(s, es[0]);
      Parts(s);
      StepEvolves(s, es[0]);
      if Apply(s, es[0]).now == s.now { StaysPunctual(s, Apply(s, es[0]), es[0].Dispose?); }
      NeverOverdue(Apply(s, es[0]), es[1..], s');
    }
  }

  // ---------------------------------------------------------------- the other operations

  lemma EmptiedBatch(s: State, b: int)
    requires BatchesSound(s) && b in s.batches && s.batches[b].EndAll? && s.batches[b].todo == []
    ensures s.batches[b].started !! s.active
  {
    var todo := s.batches[b].todo;
    forall c <- s.batches[b].started ensures c !in s.active { assert c in s.active ==> c in todo; }
  }

  /** When endAllCalls has worked through its list, every call tracked at its start is gone. */
  lemma {:induction false} EndAllEndsAll(es: seq<Event>, s: State, b: int)
    requires Reaches(Init, es, s) && b in s.batches && s.batches[b].EndAll? && s.batches[b].todo == []
    ensures s.batches[b].started !! s.active
  {
    Reachable(es, s);
    EmptiedBatch(s, b);
  }

  /**
    resolveToCallId finds a tracked call from any of its ids, as long as an id is not
    at the same time a call id (or, for provider ids, a notification id) of another call;
    and when it finds none, no map has the id except for a call still being set up.
   */
  lemma ResolvesEveryId(s: State, id: Id)
    requires MapsAgree(s)
    ensures id in s.active ==> Resolve(s, id) == id
    ensures id !in s.active && id in s.notification ==>
            Resolve(s, id) == s.notification[id] && Resolve(s, id) in s.active
    ensures forall c <- s.active ::
              s.calls[c].providerCallId == id && id !in s.active && id !in s.notification ==> Resolve(s, id) == c
    ensures Resolve(s, id) !in s.active ==>
              id !in s.active && id !in s.notification && (id in s.provider ==> OpeningFor(s, s.provider[id], id))
  {
  }

  /**
    What endCall writes to the history, case by case; only an answered call shorter than half
    a second writes nothing.
   */
  lemma HistoryCases(s: State, c: Id, trigger: Trigger)
    requires AnswersExclusive(s) && c in s.calls
    ensures var call := s.calls[c];
            var update := EndHistory(call, trigger, s.now);
            && (update == MarkDeclined <==> call.inbound && !call.answered && trigger == Declined)
            && (update == MarkMissed <==> call.inbound && !call.answered && trigger != Declined)
            && (update == MarkUnanswered <==> !call.inbound && !call.answered)
            && (update == NoUpdate <==> call.answered && call.answeredAt.Some? && s.now - call.answeredAt.value < 500)
            && (update.SetDuration? ==> call.answered && call.answeredAt.Some? && update.seconds >= 1)
            && (update.SetDuration? ==> -500 <= (s.now - call.answeredAt.value) - 1000 * update.seconds < 500)
  {
  }

  /** An id is not also a notification id or a provider call id. */
  ghost predicate OwnKind(s: State, c: Id) { c !in s.notification && c !in s.provider }

  /**
    A hang-up that arrives while the media session is still being opened changes nothing,
    whether endCall is given the provider's id or, as the hang-up paths do, the call's own;
    the call is then tracked as ringing.
   */
  lemma HangupDuringSetupIsLost(s: State, c: Id, p: Id, trigger: Trigger)
    requires MapsAgree(s) && IdsSeparate(s) && OpeningFor(s, c, p)
    ensures p !in s.active && p !in s.notification ==> EndCall(s, p, trigger) == s
    ensures OwnKind(s, c) ==> EndCall(s, c, trigger) == s && HangUp(s, p, trigger) == s
    ensures c in OpenInbound(s, c, true).active && !OpenInbound(s, c, true).calls[c].answered
  {
  }

  /** endCall with a provider id ends the call it leads to exactly when that call's session is not being opened. */
  lemma EndByProviderIdExactly(s: State, p: Id, trigger: Trigger)
    requires MapsAgree(s) && IdsSeparate(s) && p in s.provider && p !in s.active && p !in s.notification
    ensures Ended(EndCall(s, p, trigger), s.provider[p]) <==> !OpeningFor(s, s.provider[p], p)
  {
    var c := s.provider[p];
    assert Resolve(s, p) == c;
    if !OpeningFor(s, c, p) { assert EndCall(s, p, trigger) == EndTracked(s, c, trigger); }
  }

  /** And so does a hang-up, which looks the call's own id up first. */
  lemma HangupEndsExactly(s: State, p: Id, trigger: Trigger)
    requires MapsAgree(s) && IdsSeparate(s) && p in s.provider && OwnKind(s, s.provider[p])
    ensures Ended(HangUp(s, p, trigger), s.provider[p]) <==> !OpeningFor(s, s.provider[p], p)
  {
    var c := s.provider[p];
    assert Resolve(s, c) == c;
    if !OpeningFor(s, c, p) { assert HangUp(s, p, trigger) == EndTracked(s, c, trigger); }
  }

  /** Shutting down while a session is being opened leaves a tracked call its provider id does not lead to. */
  lemma DisposeDuringSetup(s: State, c: Id, p: Id)
    requires s.active <= s.calls.Keys && OpeningFor(s, c, p)
    ensures OpeningFor(DisposeAll(s), c, p) && c in OpenInbound(DisposeAll(s), c, true).active
    ensures !MapsAgree(OpenInbound(DisposeAll(s), c, true))
  {
    var s' := OpenInbound(DisposeAll(s), c, true);
    assert s'.calls[c].providerCallId == p && p !in s'.provider;
  }

  // ---------------------------------------------------------------- late outcomes

  ghost predicate Live(s: State, c: Id) { c in s.active && c in s.calls && !s.calls[c].ended }

  lemma {:induction false} RunThen(s: State, es: seq<Event>, s': State, e: Event)
    requires Reaches(s, es, s') && WellFormed(s') && Enabled(s', e)
    ensures Reaches(s, es + [e], Apply(s', e))
    decreases |es|
  {
    if es != [] {
      RunThen(Apply(s, es[0]), es[1..], s', e);
      assert (es + [e])[1..] == es[1..] + [e];
    } else {
      assert [e][1..] == [];
    }
  }

  lemma {:induction false} ReachableIsWellFormed(es: seq<Event>, s: State)
    requires Reaches(Init, es, s)
    ensures WellFormed(s)
  {
    InitHolds();
    ReachableKeepsInv(Init, es, s);
  }

  /** One inbound call, ringing. */
  ghost predicate OneRinging(s: State, c: Id, p: Id) {
    && s.active == {c} && c in s.calls && s.calls[c].inbound && !s.calls[c].wsAudio && !s.calls[c].answered &&
       !s.calls[c].ended
    && s.attempts == map[] && s.nextAttempt == 0 && s.batches == map[] && s.nextBatch == 0
  }

  lemma RingingRun(c: Id, p: Id) returns (es: seq<Event>, s: State)
    ensures Reaches(Init, es, s) && OneRinging(s, c, p)
  {
    InitHolds();
    var opening := StartInbound(Init, c, p, false);
    RunThen(Init, [], Init, InboundStart(c, p, false));
    ReachableIsWellFormed([] + [InboundStart(c, p, false)], opening);
    RunThen(Init, [InboundStart(c, p, false)], opening, InboundSession(c, true));
    es := [InboundStart(c, p, false)] + [InboundSession(c, true)];
    s := OpenInbound(opening, c, true);
  }

  /** The same call, a device's answer waiting for the provider. */
  ghost predicate OneAnswering(s: State, c: Id, device: Id) {
    && s.active == {c} && c in s.calls && s.calls[c].answered && !s.calls[c].ended
    && s.attempts == map[0 := Attempt(c, device, AwaitingProvider)] && s.batches == map[] && s.nextBatch == 0
  }

  lemma AnsweringRun(c: Id, p: Id, device: Id) returns (es: seq<Event>, s: State)
    ensures Reaches(Init, es, s) && OneAnswering(s, c, device)
  {
    var before, ringing := RingingRun(c, p);
    ReachableIsWellFormed(before, ringing);
    RunThen(Init, before, ringing, Answer(c, device));
    es := before + [Answer(c, device)];
    s := BeginAnswer(ringing, c, device);
  }

  /** A run in which a call ends while the provider is asked, and the answer then reports success. */
  lemma SuccessAfterEnd(c: Id, p: Id, device: Id) returns (es: seq<Event>, s: State)
    ensures Reaches(Init, es, s) && Ended(s, c)
    ensures s.log != [] && s.log[|s.log| - 1] == AnswerReply(c, Success)
  {
    var before, answering := AnsweringRun(c, p, device);
    ReachableIsWellFormed(before, answering);
    RunThen(Init, before, answering, End(c, OtherTrigger));
    var ended := EndCall(answering, c, OtherTrigger);
    assert ended == EndTracked(answering, c, OtherTrigger);
    ReachableIsWellFormed(before + [End(c, OtherTrigger)], ended);
    RunThen(Init, before + [End(c, OtherTrigger)], ended, AnswerSettled(0, true));
    es := before + [End(c, OtherTrigger)] + [AnswerSettled(0, true)];
    s := SettleAnswer(ended, 0, true);
  }

  /** An answer that settles well reports success, for a live call exactly when the call is still tracked. */
  lemma SettledSuccessIsLiveExactly(s: State, a: int)
    requires MapsAgree(s) && a in s.attempts && s.attempts[a].call in s.calls
    ensures var c, s' := s.attempts[a].call, SettleAnswer(s, a, true);
            && s'.log[|s'.log| - 1] == AnswerReply(c, Success)
            && (Live(s', c) <==> c in s.active)
  {
  }

  /** Reconciliation is asking the provider about the only call. */
  ghost predicate OneQueried(s: State, c: Id) {
    s.active == {c} && c in s.calls && !s.calls[c].ended
    && 0 in s.batches && s.batches[0] == Reconcile([], Some(c))
  }

  lemma ListedRun(c: Id, p: Id, device: Id) returns (es: seq<Event>, s: State)
    ensures Reaches(Init, es, s) && s.active == {c} && c in s.calls && s.calls[c].answered && !s.calls[c].ended
    ensures 0 in s.batches && s.batches[0] == Reconcile([c], None)
    ensures s.attempts == map[0 := Attempt(c, device, AwaitingProvider)]
  {
    var before, answering := AnsweringRun(c, p, device);
    ReachableIsWellFormed(before, answering);
    RunThen(Init, before, answering, ReconcileStart([c]));
    es := before + [ReconcileStart([c])];
    s := StartBatch(answering, Reconcile([c], None));
  }

  lemma QueryingRun(c: Id, p: Id, device: Id) returns (es: seq<Event>, s: State)
    ensures Reaches(Init, es, s) && OneQueried(s, c)
    ensures s.attempts == map[0 := Attempt(c, device, AwaitingProvider)]
  {
    var before, listed := ListedRun(c, p, device);
    ReachableIsWellFormed(before, listed);
    RunThen(Init, before, listed, ReconcileNext(0));
    es := before + [ReconcileNext(0)];
    s := StepReconcile(listed, 0);
    assert [c][1..] == [];
  }

  lemma WithdrawnRun(c: Id, p: Id, device: Id) returns (es: seq<Event>, s: State)
    ensures Reaches(Init, es, s) && OneQueried(s, c) && !s.calls[c].answered
  {
    var before, querying := QueryingRun(c, p, device);
    ReachableIsWellFormed(before, querying);
    RunThen(Init, before, querying, AnswerSettled(0, false));
    es := before + [AnswerSettled(0, false)];
    s := SettleAnswer(querying, 0, false);
  }

  /** A run in which reconciliation ends a call that no device has answered any more. */
  lemma ReconcileEndsUnanswered(c: Id, p: Id, device: Id) returns (es: seq<Event>, s: State)
    ensures Reaches(Init, es, s) && Ended(s, c) && !s.calls[c].answered
    ensures es != [] && es[|es| - 1] == ReconcileReply(0, true)
  {
    var before, withdrawn := WithdrawnRun(c, p, device);
    Reachable(before, withdrawn);
    RunThen(Init, before, withdrawn, ReconcileReply(0, true));
    es := before + [ReconcileReply(0, true)];
    s := ReplyReconcile(withdrawn, 0, true);
    ReconcileEndsUnansweredExactly(withdrawn, 0);
  }

  /**
    When the provider says a tracked call is gone, an unanswered call ends exactly when the
    query outlived its answer.
   */
  lemma ReconcileEndsUnansweredExactly(s: State, b: int)
    requires MapsAgree(s) && b in s.batches && s.batches[b].Reconcile? && s.batches[b].querying.Some?
    requires s.batches[b].querying.value in s.active
    ensures var c, s' := s.batches[b].querying.value, ReplyReconcile(s, b, true);
            Ended(s', c) && (!s'.calls[c].answered <==> !s.calls[c].answered)
  {
  }
}
