/**
  What every interleaving of the call orchestrator keeps.

  The invariant has five parts: the four id maps agree, ids in flight are separate,
  each tracked call owns exactly one pending timer with a known deadline, answers are
  exclusive, and the log holds each call's teardown exactly once. Each part of the
  orchestrator that changes the state is shown to keep all of them.
 */
module CallInvariant {
  import opened Basics
  import opened CallModel

  // ---------------------------------------------------------------- the log

  /** The messages endCall sends about one call. */
  predicate IsTeardown(e: Effect, c: Id) {
    (e.Disconnected? || e.Cancelled? || e.DestroySession? || e.Hangup? || e.History?) && e.call == c
  }

  function Teardown(log: seq<Effect>, c: Id): seq<Effect> {
    if log == [] then []
    else (if IsTeardown(log[0], c) then [log[0]] else []) + Teardown(log[1..], c)
  }

  /** How many answerCall invocations returned success for a call. */
  function Successes(log: seq<Effect>, c: Id): nat {
    if log == [] then 0
    else (if log[0] == AnswerReply(c, Success) then 1 else 0) + Successes(log[1..], c)
  }

  lemma {:induction false} LogAppend(a: seq<Effect>, b: seq<Effect>, c: Id)
    ensures Teardown(a + b, c) == Teardown(a, c) + Teardown(b, c)
    ensures Successes(a + b, c) == Successes(a, c) + Successes(b, c)
  {
    if a == [] {
      assert a + b == b;
    } else {
      LogAppend(a[1..], b, c);
      assert (a + b)[1..] == a[1..] + b;
    }
  }

  lemma {:induction false} LogQuiet(b: seq<Effect>, c: Id)
    ensures (forall e <- b :: !IsTeardown(e, c)) ==> Teardown(b, c) == []
    ensures (forall e <- b :: e != AnswerReply(c, Success)) ==> Successes(b, c) == 0
  {
    if b != [] {
      LogQuiet(b[1..], c);
      assert b[0] in b && forall e <- b[1..] :: e in b;
    }
  }

  // ---------------------------------------------------------------- the invariant

  ghost predicate OpeningFor(s: State, c: Id, p: Id) {
    c in s.inbound && s.inbound[c].OpeningSession? && s.inbound[c].providerCallId == p
  }

  /** The four maps agree, as long as the records exist. */
  ghost predicate MapsAgree(s: State) {
    && s.active <= s.calls.Keys
    && (forall c <- s.active :: c in s.session && s.session[c] == c)
    && (forall c <- s.active :: s.calls[c].providerCallId in s.provider && s.provider[s.calls[c].providerCallId] == c)
    && (forall k <- s.session :: k in s.active && s.session[k] == k)
    && (forall n <- s.notification :: s.notification[n] in s.active)
    && (forall p <- s.provider ::
          (s.provider[p] in s.active && s.calls[s.provider[p]].providerCallId == p) || OpeningFor(s, s.provider[p], p))
    && (forall c <- s.active :: !s.calls[c].ended)
  }

  /** Calls still being set up have ids of their own. */
  ghost predicate IdsSeparate(s: State) {
    && s.calls.Keys <= s.issued && s.outbound.Keys <= s.issued && s.inbound.Keys <= s.issued
    && s.outbound.Keys !! s.calls.Keys && s.outbound.Keys !! s.inbound.Keys
    && (forall c <- s.inbound :: s.inbound[c].OpeningSession? <==> c !in s.calls)
    && (forall c <- s.inbound :: s.inbound[c].OpeningSession? ==>
          s.inbound[c].providerCallId in s.provider && s.provider[s.inbound[c].providerCallId] == c)
    && (forall c <- s.outbound :: s.outbound[c].stage.Patching? ==> s.outbound[c].stage.providerCallId !in s.provider)
    && (forall c <- s.outbound, d <- s.outbound ::
          s.outbound[c].stage.Patching? && s.outbound[c].stage == s.outbound[d].stage ==> c == d)
  }

  function Deadline(s: State, c: Id): int
    requires c in s.calls
  {
    if c in s.lastLive then s.lastLive[c] + MAX_CALL_DURATION_MS else s.calls[c].startedAt + UNANSWERED_WATCHDOG_MS
  }

  ghost predicate OwnsTimer(s: State, c: Id, t: int)
    requires c in s.calls
  {
    t in s.timers && s.calls[c].watchdog == Some(t) && s.timers[t] == Timer(c, Deadline(s, c))
  }

  /** Pending timers and tracked calls are in one-to-one correspondence, with exact deadlines. */
  ghost predicate TimersExact(s: State) {
    && s.lastLive.Keys <= s.calls.Keys && s.active <= s.calls.Keys
    && (forall c <- s.active :: s.calls[c].watchdog.Some? && OwnsTimer(s, c, s.calls[c].watchdog.value))
    && (forall t <- s.timers :: t < s.nextTimer && s.timers[t].call in s.active && OwnsTimer(s, s.timers[t].call, t))
  }

  ghost predicate AnswersExclusive(s: State) {
    && (forall a <- s.attempts ::
          && a < s.nextAttempt && s.attempts[a].call in s.calls
          && var call := s.calls[s.attempts[a].call];
             call.inbound && call.answered && call.device == Some(s.attempts[a].device))
    && (forall a <- s.attempts, b <- s.attempts :: s.attempts[a].call == s.attempts[b].call ==> a == b)
    && (forall c <- s.calls ::
          && (s.calls[c].answered <==> s.calls[c].answeredAt.Some?)
          && (s.calls[c].answeredAt.Some? ==> s.calls[c].answeredAt.value <= s.now)
          && (s.calls[c].inbound ==> (s.calls[c].answered <==> s.calls[c].device.Some?))
          && (!s.calls[c].inbound ==> s.calls[c].device.Some?))
    && (forall c :: Successes(s.log, c) <= 1)
    && (forall c :: Successes(s.log, c) == 1 ==>
          c in s.calls && s.calls[c].answered && forall a <- s.attempts :: s.attempts[a].call != c)
  }

  ghost predicate Ended(s: State, c: Id) { c in s.calls && s.calls[c].ended }

  /** The four messages of one teardown and its history branch, in the order of endCall. */
  ghost predicate TornDownOnce(log: seq<Effect>, c: Id, p: Id) {
    var t := Teardown(log, c);
    && |t| == 5 && t[0] == Disconnected(c) && t[1].Cancelled? && t[2].DestroySession?
    && t[3] == Hangup(c, p) && t[4].History?
  }

  /** How many updates a teardown writes to the history. */
  function Writes(teardown: seq<Effect>): nat {
    if teardown == [] then 0
    else
      var e := teardown[|teardown| - 1];
      Writes(teardown[..|teardown| - 1]) + if e.History? && e.update != NoUpdate then 1 else 0
  }

  ghost predicate TeardownsExact(s: State) {
    && (forall c :: !Ended(s, c) ==> Teardown(s.log, c) == [])
    && (forall c :: Ended(s, c) ==> TornDownOnce(s.log, c, s.calls[c].providerCallId))
  }

  ghost predicate BatchesSound(s: State) {
    forall b <- s.batches ::
      && b < s.nextBatch
      && (s.batches[b].EndAll? ==>
            && s.batches[b].started <= s.calls.Keys
            && forall c <- s.batches[b].started :: c in s.active ==> c in s.batches[b].todo)
  }

  datatype Aspect = Maps | Ids | Timers | Answers | Teardowns | Batches

  ghost predicate Holds(a: Aspect, s: State) {
    match a
    case Maps => MapsAgree(s)
    case Ids => IdsSeparate(s)
    case Timers => TimersExact(s)
    case Answers => AnswersExclusive(s)
    case Teardowns => TeardownsExact(s)
    case Batches => BatchesSound(s)
  }

  /** The invariant of the orchestrator: every aspect holds. */
  ghost predicate Inv(s: State) {
    WellFormed(s) && forall a {:trigger Holds(a, s)} :: Holds(a, s)
  }

  lemma Parts(s: State)
    requires Inv(s)
    ensures MapsAgree(s) && IdsSeparate(s) && TimersExact(s) && AnswersExclusive(s) && TeardownsExact(s) &&
            BatchesSound(s)
  {
    assert Holds(Maps, s) && Holds(Ids, s) && Holds(Timers, s) && Holds(Answers, s) && Holds(Teardowns, s) &&
           Holds(Batches, s);
  }

  lemma Whole(s: State)
    requires MapsAgree(s) && IdsSeparate(s) && TimersExact(s) && AnswersExclusive(s) && TeardownsExact(s) &&
             BatchesSound(s)
    ensures Inv(s)
  {
  }

  lemma NotWhole(s: State)
    requires !MapsAgree(s) || !IdsSeparate(s)
    ensures !Inv(s)
  {
    assert MapsAgree(s) <==> Holds(Maps, s);
    assert IdsSeparate(s) <==> Holds(Ids, s);
  }

  // ---------------------------------------------------------------- quiet changes to the log

  /** Messages that are neither a teardown nor a successful answer reply. */
  predicate Quiet(e: Effect) {
    !e.Disconnected? && !e.Cancelled? && !e.DestroySession? && !e.Hangup? && !e.History?
    && !(e.AnswerReply? && e.result.Success?)
  }

  lemma {:induction false} QuietLog(s: State, effects: seq<Effect>)
    requires forall e <- effects :: Quiet(e)
    ensures forall c :: Teardown((s.log + effects), c) == Teardown(s.log, c)
    ensures forall c :: Successes((s.log + effects), c) == Successes(s.log, c)
  {
    forall c
      ensures Teardown((s.log + effects), c) == Teardown(s.log, c)
      ensures Successes((s.log + effects), c) == Successes(s.log, c)
    {
      LogAppend(s.log, effects, c);
      LogQuiet(effects, c);
    }
  }

  lemma SayKeepsLog(s: State, effect: Effect)
    requires AnswersExclusive(s) && TeardownsExact(s) && Quiet(effect)
    ensures AnswersExclusive(Say(s, [effect])) && TeardownsExact(Say(s, [effect]))
  {
    QuietLog(s, [effect]);
  }

  lemma SayKeepsRest(s: State, effects: seq<Effect>)
    requires MapsAgree(s) && IdsSeparate(s) && TimersExact(s) && BatchesSound(s)
    ensures MapsAgree(Say(s, effects)) && IdsSeparate(Say(s, effects)) && TimersExact(Say(s, effects)) &&
            BatchesSound(Say(s, effects))
  {
    BonesKeepMaps(s, Say(s, effects));
    TimersFrame(s, Say(s, effects));
  }

  lemma SayKeepsInv(s: State, effect: Effect)
    requires Inv(s) && Quiet(effect)
    ensures Inv(Say(s, [effect]))
  {
    Parts(s);
    SayKeepsLog(s, effect);
    SayKeepsRest(s, [effect]);
    Whole(Say(s, [effect]));
  }

  // ---------------------------------------------------------------- ending

  lemma {:induction false} EndEffectsLog(c: Id, call: Call, trigger: Trigger, now: int, d: Id)
    ensures var extra := EndEffects(c, call, trigger, now);
            && Teardown(extra, d) == (if d == c then extra[..5] else [])
            && Successes(extra, d) == 0
  {
    var extra := EndEffects(c, call, trigger, now);
    var head, tail := extra[..5], extra[5..];
    assert extra == head + tail;
    LogAppend(head, tail, d);
    LogQuiet(head, d);
    LogQuiet(tail, d);
    if d == c { AllTeardown(head, c); }
  }

  lemma {:induction false} AllTeardown(b: seq<Effect>, c: Id)
    requires forall e <- b :: IsTeardown(e, c)
    ensures Teardown(b, c) == b
  {
    if b != [] {
      assert b[0] in b && forall e <- b[1..] :: e in b;
      AllTeardown(b[1..], c);
    }
  }

  lemma EndLog(s: State, c: Id, trigger: Trigger)
    requires c in s.calls
    ensures forall d :: Teardown(EndTracked(s, c, trigger).log, d) == Teardown(s.log, d)
              + (if d == c then EndEffects(c, s.calls[c], trigger, s.now)[..5] else [])
    ensures forall d :: Successes(EndTracked(s, c, trigger).log, d) == Successes(s.log, d)
  {
    var extra := EndEffects(c, s.calls[c], trigger, s.now);
    forall d
      ensures Teardown(s.log + extra, d) == Teardown(s.log, d) + (if d == c then extra[..5] else [])
      ensures Successes(s.log + extra, d) == Successes(s.log, d)
    {
      LogAppend(s.log, extra, d);
      EndEffectsLog(c, s.calls[c], trigger, s.now, d);
    }
  }

  lemma EndKeepsTeardowns(s: State, c: Id, trigger: Trigger)
    requires TeardownsExact(s) && c in s.calls && !s.calls[c].ended
    ensures TeardownsExact(EndTracked(s, c, trigger))
  {
    EndLog(s, c, trigger);
    var s' := EndTracked(s, c, trigger);
    forall d ensures Ended(s', d) ==> TornDownOnce(s'.log, d, s'.calls[d].providerCallId)
             ensures !Ended(s', d) ==> Teardown(s'.log, d) == []
    {
      assert d != c ==> (Ended(s', d) <==> Ended(s, d));
    }
  }

  lemma EndKeepsMaps(s: State, c: Id, trigger: Trigger)
    requires MapsAgree(s) && c in s.active
    ensures MapsAgree(EndTracked(s, c, trigger))
  {
  }

  lemma EndKeepsIds(s: State, c: Id, trigger: Trigger)
    requires MapsAgree(s) && IdsSeparate(s) && c in s.active
    ensures IdsSeparate(EndTracked(s, c, trigger))
  {
  }

  lemma EndKeepsTimers(s: State, c: Id, trigger: Trigger)
    requires TimersExact(s) && c in s.active
    ensures TimersExact(EndTracked(s, c, trigger))
  {
  }

  lemma EndKeepsAnswers(s: State, c: Id, trigger: Trigger)
    requires AnswersExclusive(s) && c in s.calls
    ensures AnswersExclusive(EndTracked(s, c, trigger))
  {
    EndLog(s, c, trigger);
  }

  lemma EndKeepsInv(s: State, c: Id, trigger: Trigger)
    requires Inv(s) && c in s.active
    ensures Inv(EndTracked(s, c, trigger))
  {
    Parts(s);
    EndKeepsTeardowns(s, c, trigger);
    EndKeepsMaps(s, c, trigger);
    EndKeepsIds(s, c, trigger);
    EndKeepsTimers(s, c, trigger);
    EndKeepsAnswers(s, c, trigger);
    assert BatchesSound(EndTracked(s, c, trigger));
  }

  lemma EndCallKeepsInv(s: State, requested: Id, trigger: Trigger)
    requires Inv(s)
    ensures Inv(EndCall(s, requested, trigger))
  {
    Parts(s);
    var c := Resolve(s, requested);
    if c in s.active { EndKeepsInv(s, c, trigger); }
  }

  // ---------------------------------------------------------------- frames: what a step leaves alone

  /** The two states track the same calls under the same ids; records may differ in their answer and timer fields. */
  ghost predicate SameBones(s: State, s': State) {
    && s'.active == s.active && s'.session == s.session && s'.provider == s.provider &&
       s'.notification == s.notification
    && s'.outbound == s.outbound && s'.inbound == s.inbound && s'.issued == s.issued && s'.calls.Keys == s.calls.Keys
    && forall c <- s.calls ::
         && s'.calls[c].providerCallId == s.calls[c].providerCallId && s'.calls[c].ended == s.calls[c].ended
         && s'.calls[c].startedAt == s.calls[c].startedAt && s'.calls[c].inbound == s.calls[c].inbound
  }

  lemma BonesKeepMaps(s: State, s': State)
    requires MapsAgree(s) && IdsSeparate(s) && SameBones(s, s')
    ensures MapsAgree(s') && IdsSeparate(s')
  {
  }

  lemma BonesKeepTeardowns(s: State, s': State)
    requires TeardownsExact(s) && SameBones(s, s')
    requires forall c :: Teardown(s'.log, c) == Teardown(s.log, c)
    ensures TeardownsExact(s')
  {
    forall c ensures Ended(s', c) <==> Ended(s, c) {}
  }

  lemma BonesKeepBatches(s: State, s': State)
    requires BatchesSound(s) && SameBones(s, s') && s'.batches == s.batches && s'.nextBatch == s.nextBatch
    ensures BatchesSound(s')
  {
  }

  lemma BonesKeepTimers(s: State, s': State)
    requires TimersExact(s) && SameBones(s, s')
    requires s'.timers == s.timers && s'.nextTimer == s.nextTimer && s'.lastLive == s.lastLive
    requires forall c <- s.calls :: s'.calls[c].watchdog == s.calls[c].watchdog
    ensures TimersExact(s')
  {
    forall c <- s.calls ensures Deadline(s', c) == Deadline(s, c) {}
    forall c <- s'.active ensures OwnsTimer(s', c, s'.calls[c].watchdog.value) {
      assert OwnsTimer(s, c, s.calls[c].watchdog.value);
    }
    forall t <- s'.timers ensures OwnsTimer(s', s'.timers[t].call, t) {
      assert OwnsTimer(s, s.timers[t].call, t);
    }
  }

  // ---------------------------------------------------------------- tracking a new call

  lemma TrackKeepsTeardowns(s: State, s': State, c: Id)
    requires TeardownsExact(s) && c !in s.calls
    requires s'.calls.Keys == s.calls.Keys + {c} && !s'.calls[c].ended
    requires forall d <- s.calls :: s'.calls[d] == s.calls[d]
    requires forall d :: Teardown(s'.log, d) == Teardown(s.log, d)
    ensures TeardownsExact(s')
  {
    forall d ensures Ended(s', d) <==> Ended(s, d) {}
  }

  lemma TrackKeepsTimers(s: State, c: Id, call: Call)
    requires TimersExact(s) && c !in s.calls
    requires call.watchdog.None? && call.startedAt == s.now
    ensures TimersExact(Track(s, c, call))
  {
    var s' := Track(s, c, call);
    forall d <- s.calls ensures Deadline(s', d) == Deadline(s, d) {}
    forall d <- s'.active ensures s'.calls[d].watchdog.Some? && OwnsTimer(s', d, s'.calls[d].watchdog.value) {
      assert d in s.active ==> OwnsTimer(s, d, s.calls[d].watchdog.value);
    }
    forall t <- s'.timers ensures s'.timers[t].call in s'.active && OwnsTimer(s', s'.timers[t].call, t) {
      assert t in s.timers ==> OwnsTimer(s, s.timers[t].call, t);
    }
  }

  lemma TrackKeepsAnswers(s: State, s': State, c: Id)
    requires AnswersExclusive(s) && c !in s.calls
    requires s'.calls.Keys == s.calls.Keys + {c} && forall d <- s.calls :: s'.calls[d] == s.calls[d]
    requires !s'.calls[c].answered && s'.calls[c].answeredAt.None? &&
             (s'.calls[c].inbound <==> s'.calls[c].device.None?)
    requires s'.attempts == s.attempts && s'.nextAttempt == s.nextAttempt && s'.now == s.now
    requires forall d :: Successes(s'.log, d) == Successes(s.log, d)
    ensures AnswersExclusive(s')
  {
  }

  /** How tracking call c under provider id p changes what the maps see. */
  ghost predicate Tracks(s: State, s': State, c: Id, p: Id) {
    && c !in s.calls && c in s.issued && (p in s.provider ==> OpeningFor(s, c, p) && s.provider[p] == c)
    && s'.calls.Keys == s.calls.Keys + {c} && (forall d <- s.calls :: s'.calls[d] == s.calls[d])
    && !s'.calls[c].ended && s'.calls[c].providerCallId == p
    && s'.active == s.active + {c} && s'.session == s.session[c := c] && s'.provider == s.provider[p := c]
    && s'.notification == s.notification && s'.issued == s.issued
  }

  /** A provider entry leads to the new call, to a call tracked before, or to one whose session is being opened. */
  lemma TrackKeepsProvider(s: State, s': State, c: Id, p: Id, q: Id)
    requires MapsAgree(s) && Tracks(s, s', c, p) && q in s'.provider
    requires c in s.inbound ==> OpeningFor(s, c, p)
    requires forall d <- s.inbound :: d != c ==> d in s'.inbound && s'.inbound[d] == s.inbound[d]
    ensures (s'.provider[q] in s'.calls && s'.provider[q] in s'.active && s'.calls[s'.provider[q]].providerCallId == q)
         || OpeningFor(s', s'.provider[q], q)
  {
    if q != p && s.provider[q] !in s.active {
      assert OpeningFor(s, s.provider[q], q);
    }
  }

  lemma TrackKeepsMaps(s: State, s': State, c: Id, p: Id)
    requires MapsAgree(s) && Tracks(s, s', c, p)
    requires c in s.inbound ==> OpeningFor(s, c, p)
    requires forall d <- s.inbound :: d != c ==> d in s'.inbound && s'.inbound[d] == s.inbound[d]
    ensures MapsAgree(s')
  {
    forall q | q in s'.provider
      ensures (s'.provider[q] in s'.active && s'.calls[s'.provider[q]].providerCallId == q) ||
              OpeningFor(s', s'.provider[q], q)
    {
      TrackKeepsProvider(s, s', c, p, q);
    }
    forall d <- s.active ensures s.calls[d].providerCallId != p {
      assert s.provider[s.calls[d].providerCallId] == d;
    }
  }

  lemma TrackOutboundKeepsIds(s: State, s': State, c: Id, p: Id)
    requires MapsAgree(s) && IdsSeparate(s) && Tracks(s, s', c, p)
    requires c in s.outbound && s'.outbound == s.outbound - {c} && s'.inbound == s.inbound && p !in s.provider
    requires forall d <- s.outbound :: d != c ==> s.outbound[d].stage != Patching(p)
    ensures IdsSeparate(s')
  {
  }

  lemma TrackInboundKeepsIds(s: State, s': State, c: Id, p: Id)
    requires MapsAgree(s) && IdsSeparate(s) && Tracks(s, s', c, p)
    requires OpeningFor(s, c, p) && s'.inbound == s.inbound[c := ReadingNumbers] && s'.outbound == s.outbound
    ensures IdsSeparate(s')
  {
    assert s'.provider == s.provider;
  }

  lemma TrackKeepsBatches(s: State, s': State, c: Id)
    requires BatchesSound(s) && c !in s.calls && s'.calls.Keys == s.calls.Keys + {c} && s'.active == s.active + {c}
    requires s'.batches == s.batches && s'.nextBatch == s.nextBatch
    ensures BatchesSound(s')
  {
  }

  lemma TrackKeepsRest(s: State, s': State, c: Id, effects: seq<Effect>)
    requires AnswersExclusive(s) && TeardownsExact(s) && BatchesSound(s)
    requires c !in s.calls && s'.calls.Keys == s.calls.Keys + {c} && (forall d <- s.calls :: s'.calls[d] == s.calls[d])
    requires !s'.calls[c].ended && !s'.calls[c].answered && s'.calls[c].answeredAt.None?
    requires s'.calls[c].inbound <==> s'.calls[c].device.None?
    requires s'.attempts == s.attempts && s'.nextAttempt == s.nextAttempt && s'.now == s.now &&
             s'.active == s.active + {c}
    requires s'.batches == s.batches && s'.nextBatch == s.nextBatch
    requires s'.log == s.log + effects && forall e <- effects :: Quiet(e)
    ensures AnswersExclusive(s') && TeardownsExact(s') && BatchesSound(s')
  {
    QuietLog(s, effects);
    TrackKeepsTeardowns(s, s', c);
    TrackKeepsAnswers(s, s', c);
    TrackKeepsBatches(s, s', c);
  }

  lemma TrackOutboundKeepsTimers(s: State, c: Id, p: Id)
    requires TimersExact(s) && c in s.outbound && c !in s.calls
    ensures TimersExact(TrackOutbound(s, c, p))
  {
    var s1 := s.(outbound := s.outbound - {c}, provider := s.provider[p := c]);
    var call := NewCall(s, p, false, s.outbound[c].wsAudio, Some(s.outbound[c].device));
    TimersFrame(s, s1);
    TrackKeepsTimers(s1, c, call);
    TimersFrame(Track(s1, c, call), TrackOutbound(s, c, p));
  }

  lemma TrackOutboundTracks(s: State, c: Id, p: Id)
    requires IdsSeparate(s) && c in s.outbound && p !in s.provider
    ensures Tracks(s, TrackOutbound(s, c, p), c, p)
  {
  }

  lemma TrackOutboundKeepsMaps(s: State, c: Id, p: Id)
    requires MapsAgree(s) && IdsSeparate(s) && c in s.outbound && p !in s.provider
    requires forall d <- s.outbound :: d != c ==> s.outbound[d].stage != Patching(p)
    ensures MapsAgree(TrackOutbound(s, c, p)) && IdsSeparate(TrackOutbound(s, c, p))
  {
    var s' := TrackOutbound(s, c, p);
    TrackOutboundTracks(s, c, p);
    TrackKeepsMaps(s, s', c, p);
    TrackOutboundKeepsIds(s, s', c, p);
  }

  lemma TrackOutboundKeepsRest(s: State, c: Id, p: Id)
    requires AnswersExclusive(s) && TeardownsExact(s) && BatchesSound(s)
    requires c in s.outbound && c !in s.calls
    ensures AnswersExclusive(TrackOutbound(s, c, p)) && TeardownsExact(TrackOutbound(s, c, p)) &&
            BatchesSound(TrackOutbound(s, c, p))
  {
    TrackKeepsRest(s, TrackOutbound(s, c, p), c, [HistoryRecorded(c, false)]);
  }

  lemma TrackOutboundKeepsInv(s: State, c: Id, p: Id)
    requires Inv(s) && c in s.outbound && p !in s.provider
    requires forall d <- s.outbound :: d != c ==> s.outbound[d].stage != Patching(p)
    ensures Inv(TrackOutbound(s, c, p))
  {
    Parts(s);
    TrackOutboundKeepsTimers(s, c, p);
    TrackOutboundKeepsMaps(s, c, p);
    TrackOutboundKeepsRest(s, c, p);
  }

  lemma TrackInboundKeepsTimers(s: State, c: Id, p: Id, wsAudio: bool)
    requires TimersExact(s) && c !in s.calls
    ensures TimersExact(TrackInbound(s, c, p, wsAudio))
  {
    var s1 := s.(inbound := s.inbound[c := ReadingNumbers]);
    var call := NewCall(s, p, true, wsAudio, None);
    TimersFrame(s, s1);
    TrackKeepsTimers(s1, c, call);
    TimersFrame(Track(s1, c, call), TrackInbound(s, c, p, wsAudio));
  }

  lemma TrackInboundKeepsMaps(s: State, c: Id, p: Id, wsAudio: bool)
    requires MapsAgree(s) && IdsSeparate(s) && c in s.inbound && s.inbound[c] == OpeningSession(p, wsAudio)
    ensures MapsAgree(TrackInbound(s, c, p, wsAudio)) && IdsSeparate(TrackInbound(s, c, p, wsAudio))
  {
    var s' := TrackInbound(s, c, p, wsAudio);
    assert s.provider == s.provider[p := c];
    TrackKeepsMaps(s, s', c, p);
    TrackInboundKeepsIds(s, s', c, p);
  }

  lemma TrackInboundKeepsRest(s: State, c: Id, p: Id, wsAudio: bool)
    requires AnswersExclusive(s) && TeardownsExact(s) && BatchesSound(s)
    requires c !in s.calls
    ensures AnswersExclusive(TrackInbound(s, c, p, wsAudio)) && TeardownsExact(TrackInbound(s, c, p, wsAudio)) &&
            BatchesSound(TrackInbound(s, c, p, wsAudio))
  {
    TrackKeepsRest(s, TrackInbound(s, c, p, wsAudio), c, [HistoryRecorded(c, true)]);
  }

  lemma TrackInboundKeepsInv(s: State, c: Id, p: Id, wsAudio: bool)
    requires Inv(s) && c in s.inbound && s.inbound[c] == OpeningSession(p, wsAudio)
    ensures Inv(TrackInbound(s, c, p, wsAudio))
  {
    Parts(s);
    TrackInboundKeepsTimers(s, c, p, wsAudio);
    TrackInboundKeepsMaps(s, c, p, wsAudio);
    TrackInboundKeepsRest(s, c, p, wsAudio);
  }

  lemma TimersFrame(s: State, s': State)
    requires TimersExact(s)
    requires s'.calls == s.calls && s'.active == s.active
    requires s'.timers == s.timers && s'.nextTimer == s.nextTimer && s'.lastLive == s.lastLive
    ensures TimersExact(s')
  {
    forall c <- s.calls ensures Deadline(s', c) == Deadline(s, c) {}
    forall c <- s'.active ensures OwnsTimer(s', c, s'.calls[c].watchdog.value) {
      assert OwnsTimer(s, c, s.calls[c].watchdog.value);
    }
    forall t <- s'.timers ensures OwnsTimer(s', s'.timers[t].call, t) {
      assert OwnsTimer(s, s.timers[t].call, t);
    }
  }

  // ---------------------------------------------------------------- answering

  lemma BonesKeepInv(s: State, s': State)
    requires Inv(s) && SameBones(s, s')
    requires s'.batches == s.batches && s'.nextBatch == s.nextBatch
    requires forall c :: Teardown(s'.log, c) == Teardown(s.log, c)
    requires TimersExact(s') && AnswersExclusive(s')
    ensures Inv(s')
  {
    Parts(s);
    BonesKeepMaps(s, s');
    BonesKeepTeardowns(s, s');
    BonesKeepBatches(s, s');
  }

  lemma GoLiveKeepsTimers(s: State, c: Id, device: Option<Id>)
    requires TimersExact(s) && c in s.active
    ensures TimersExact(GoLive(s, c, device))
  {
    var s' := GoLive(s, c, device);
    forall d <- s.calls | d != c ensures Deadline(s', d) == Deadline(s, d) {}
    forall d <- s'.active ensures s'.calls[d].watchdog.Some? && OwnsTimer(s', d, s'.calls[d].watchdog.value) {
      assert OwnsTimer(s, d, s.calls[d].watchdog.value);
    }
    forall t <- s'.timers ensures s'.timers[t].call in s'.active && OwnsTimer(s', s'.timers[t].call, t) {
      assert t in s.timers ==> OwnsTimer(s, s.timers[t].call, t);
    }
  }

  lemma GoLiveKeepsAnswers(s: State, c: Id, device: Option<Id>)
    requires AnswersExclusive(s) && c in s.calls && !s.calls[c].answered && device.Some?
    ensures AnswersExclusive(GoLive(s, c, device))
  {
  }

  lemma GoLiveBones(s: State, c: Id, device: Option<Id>)
    requires c in s.calls
    ensures SameBones(s, GoLive(s, c, device))
  {
  }

  lemma GoLiveKeepsInv(s: State, c: Id, device: Option<Id>)
    requires Inv(s) && c in s.active && !s.calls[c].answered && device.Some?
    ensures Inv(GoLive(s, c, device))
  {
    Parts(s);
    GoLiveKeepsTimers(s, c, device);
    GoLiveKeepsAnswers(s, c, device);
    GoLiveBones(s, c, device);
    BonesKeepInv(s, GoLive(s, c, device));
  }

  /** An attempt that fails is withdrawn and its call's answer fields are rolled back together. */
  function Withdraw(s: State, a: int): State
    requires a in s.attempts && s.attempts[a].call in s.calls
  {
    RollBack(s.(attempts := s.attempts - {a}), s.attempts[a].call)
  }

  lemma WithdrawKeepsAnswers(s: State, a: int)
    requires AnswersExclusive(s) && a in s.attempts
    ensures AnswersExclusive(Withdraw(s, a))
  {
    assert Successes(s.log, s.attempts[a].call) == 0;
  }

  lemma WithdrawKeepsTimers(s: State, a: int)
    requires TimersExact(s) && a in s.attempts && s.attempts[a].call in s.calls
    ensures TimersExact(Withdraw(s, a)) && SameBones(s, Withdraw(s, a))
  {
    BonesKeepTimers(s, Withdraw(s, a));
  }

  lemma WithdrawKeepsInv(s: State, a: int, effect: Effect)
    requires Inv(s) && a in s.attempts && Quiet(effect)
    ensures Inv(Say(Withdraw(s, a), [effect]))
  {
    Parts(s);
    WithdrawKeepsAnswers(s, a);
    WithdrawKeepsTimers(s, a);
    BonesKeepInv(s, Withdraw(s, a));
    SayKeepsInv(Withdraw(s, a), effect);
  }

  lemma FinishLog(s: State, c: Id, device: Id)
    ensures forall d :: Teardown(FinishAnswer(s, c, device).log, d) == Teardown(s.log, d)
    ensures forall d :: Successes(FinishAnswer(s, c, device).log, d) == Successes(s.log, d) + (if d == c then 1 else 0)
  {
    var front := [AnsweredElsewhere(c, device), MarkedAnswered(c, device), NotificationResolved(c)];
    var last := [AnswerReply(c, Success)];
    var log := FinishAnswer(s, c, device).log;
    assert log == (s.log + front) + last;
    QuietLog(s, front);
    forall d
      ensures Teardown(log, d) == Teardown(s.log, d)
      ensures Successes(log, d) == Successes(s.log, d) + (if d == c then 1 else 0)
    {
      LogAppend(s.log + front, last, d);
      assert last[1..] == [];
    }
  }

  lemma {:induction false} FinishKeepsAnswers(s: State, c: Id, device: Id)
    requires AnswersExclusive(s) && c in s.calls && s.calls[c].answered && Successes(s.log, c) == 0
    requires forall a <- s.attempts :: s.attempts[a].call != c
    ensures AnswersExclusive(FinishAnswer(s, c, device))
  {
    FinishLog(s, c, device);
  }

  /** A success may be reported when the call is answered, no attempt is in flight and none succeeded before. */
  lemma {:induction false} FinishKeepsInv(s: State, c: Id, device: Id)
    requires Inv(s) && c in s.calls && s.calls[c].answered && Successes(s.log, c) == 0
    requires forall a <- s.attempts :: s.attempts[a].call != c
    ensures Inv(FinishAnswer(s, c, device))
  {
    Parts(s);
    var s' := FinishAnswer(s, c, device);
    FinishLog(s, c, device);
    FinishKeepsAnswers(s, c, device);
    TimersFrame(s, s');
    BonesKeepInv(s, s');
  }

  /** Suspending, resuming or forgetting attempts touches no other part of the state. */
  lemma AttemptsKeepInv(s: State, s': State)
    requires Inv(s) && AnswersExclusive(s') && s' == s.(attempts := s'.attempts, nextAttempt := s'.nextAttempt)
    ensures Inv(s')
  {
    Parts(s);
    TimersFrame(s, s');
    BonesKeepInv(s, s');
  }

  /** No answer to the call has succeeded or is in flight. */
  ghost predicate Free(s: State, c: Id) {
    Successes(s.log, c) == 0 && forall a <- s.attempts :: s.attempts[a].call != c
  }

  lemma AnswerStarts(s: State, c: Id, device: Id, stage: AnswerStage)
    requires AnswersExclusive(s) && c in s.calls && s.calls[c].inbound && s.calls[c].answered &&
             s.calls[c].device == Some(device)
    requires Free(s, c)
    ensures AnswersExclusive(StartAttempt(s, c, device, stage))
  {
  }

  lemma StartAttemptKeepsInv(s: State, c: Id, device: Id, stage: AnswerStage)
    requires Inv(s) && c in s.calls && s.calls[c].inbound && s.calls[c].answered && s.calls[c].device == Some(device)
    requires Free(s, c)
    ensures Inv(StartAttempt(s, c, device, stage))
  {
    Parts(s);
    AnswerStarts(s, c, device, stage);
    AttemptsKeepInv(s, StartAttempt(s, c, device, stage));
  }

  lemma FreshAnswerKeepsInv(s: State, c: Id, device: Id)
    requires Inv(s) && c in s.active && !s.calls[c].answered
    ensures Inv(FreshAnswer(s, c, device))
  {
    Parts(s);
    UnansweredIsFree(s, c);
    GoLiveKeepsInv(s, c, Some(device));
    var s1 := GoLive(s, c, Some(device));
    if !s.calls[c].inbound {
      FinishKeepsInv(s1, c, device);
    } else if s.calls[c].wsAudio {
      StartAttemptKeepsInv(s1, c, device, PatchingSession);
    } else {
      StartAttemptKeepsInv(s1, c, device, AwaitingProvider);
      SayKeepsInv(StartAttempt(s1, c, device, AwaitingProvider), AnswerCommand(c, device));
    }
  }

  lemma BeginAnswerKeepsInv(s: State, requested: Id, device: Id)
    requires Inv(s)
    ensures Inv(BeginAnswer(s, requested, device))
  {
    Parts(s);
    var c := Resolve(s, requested);
    if c !in s.active {
      SayKeepsInv(s, AnswerReply(c, NotFound));
    } else if s.calls[c].answered {
      SayKeepsInv(s, AnswerReply(c, AlreadyAnswered));
    } else {
      FreshAnswerKeepsInv(s, c, device);
    }
  }

  lemma UnansweredIsFree(s: State, c: Id)
    requires AnswersExclusive(s) && c in s.calls && !s.calls[c].answered
    ensures Free(s, c)
  {
  }

  lemma AttemptChanges(s: State, a: int)
    requires AnswersExclusive(s) && a in s.attempts
    ensures AnswersExclusive(s.(attempts := s.attempts[a := s.attempts[a].(stage := AwaitingProvider)]))
    ensures AnswersExclusive(s.(attempts := s.attempts - {a}))
    ensures Successes(s.log, s.attempts[a].call) == 0
    ensures forall b <- s.attempts - {a} :: s.attempts[b].call != s.attempts[a].call
  {
  }

  lemma ContinueAnswerKeepsInv(s: State, a: int, ok: bool)
    requires Inv(s) && a in s.attempts
    ensures Inv(ContinueAnswer(s, a, ok))
  {
    Parts(s);
    var t := s.attempts[a];
    if ok {
      var attempts := s.attempts[a := t.(stage := AwaitingProvider)];
      AttemptChanges(s, a);
      AttemptsKeepInv(s, s.(attempts := attempts));
      SayKeepsInv(s.(attempts := attempts), AnswerCommand(t.call, t.device));
    } else {
      WithdrawKeepsInv(s, a, AnswerReply(t.call, PrepareFailed));
    }
  }

  lemma SettleAnswerKeepsInv(s: State, a: int, ok: bool)
    requires Inv(s) && a in s.attempts
    ensures Inv(SettleAnswer(s, a, ok))
  {
    Parts(s);
    var t := s.attempts[a];
    if ok {
      AttemptChanges(s, a);
      AttemptsKeepInv(s, s.(attempts := s.attempts - {a}));
      FinishKeepsInv(s.(attempts := s.attempts - {a}), t.call, t.device);
    } else {
      WithdrawKeepsInv(s, a, AnswerReply(t.call, ProviderFailed));
    }
  }

  // ---------------------------------------------------------------- media events, timers, bulk operations

  lemma MediaKeepsInv(s: State, sessionId: Id, kind: MediaKind)
    requires Inv(s)
    ensures Inv(HandleMedia(s, sessionId, kind))
  {
    Parts(s);
    if sessionId in s.session && s.session[sessionId] in s.active {
      var c := s.session[sessionId];
      match kind
      case ProviderGone => EndCallKeepsInv(s, c, ProviderDisconnected);
      case ClientGone => EndCallKeepsInv(s, c, OtherTrigger);
      case ProviderUp =>
        if !s.calls[c].answered && !s.calls[c].inbound {
          GoLiveKeepsInv(s, c, s.calls[c].device);
          SayKeepsInv(GoLive(s, c, s.calls[c].device), Connected(c));
        } else {
          SayKeepsInv(s, Connected(c));
        }
      case ClientUp =>
      case Digit => SayKeepsInv(s, DtmfToClients(c));
      case Candidate => SayKeepsInv(s, CandidateTo(c, s.calls[c].device));
    }
  }

  /** A watchdog that fires is never stale: it force-ends the call it was armed for. */
  lemma WatchdogEndsItsCall(s: State, t: int)
    requires MapsAgree(s) && TimersExact(s) && t in s.timers
    ensures s.timers[t].call in s.active
    ensures FireWatchdog(s, t) == EndTracked(s, s.timers[t].call, OtherTrigger)
  {
    var c := s.timers[t].call;
    assert OwnsTimer(s, c, t);
    assert (s.timers - {t}) - {t} == s.timers - {t};
  }

  /** Replacing one batch by a sound one. */
  lemma BatchesKeepInv(s: State, s': State)
    requires Inv(s) && BatchesSound(s') && s' == s.(batches := s'.batches, nextBatch := s'.nextBatch)
    ensures Inv(s')
  {
    Parts(s);
    TimersFrame(s, s');
    BonesKeepMaps(s, s');
    BonesKeepTeardowns(s, s');
    AnswersFrame(s, s');
  }

  lemma AnswersFrame(s: State, s': State)
    requires AnswersExclusive(s) && s'.attempts == s.attempts && s'.nextAttempt == s.nextAttempt && s'.calls == s.calls
    requires s'.log == s.log && s'.now >= s.now
    ensures AnswersExclusive(s')
  {
  }

  lemma EndingShrinks(s: State, c: Id)
    requires MapsAgree(s)
    ensures EndCall(s, c, OtherTrigger).active <= s.active - {c}
    ensures EndCall(s, c, OtherTrigger).calls.Keys == s.calls.Keys
    ensures EndCall(s, c, OtherTrigger).batches == s.batches && EndCall(s, c, OtherTrigger).nextBatch == s.nextBatch
  {
    if c in s.active {
      assert Resolve(s, c) == c;
      assert EndCall(s, c, OtherTrigger) == EndTracked(s, c, OtherTrigger);
    } else {
      EndOfUntracked(s, c);
    }
  }

  /** Asking to end an id that is no tracked call's own id can only remove what it resolves to. */
  lemma EndOfUntracked(s: State, c: Id)
    requires s.active <= s.calls.Keys
    ensures EndCall(s, c, OtherTrigger).active <= s.active
    ensures EndCall(s, c, OtherTrigger).calls.Keys == s.calls.Keys
    ensures EndCall(s, c, OtherTrigger).batches == s.batches && EndCall(s, c, OtherTrigger).nextBatch == s.nextBatch
  {
  }

  lemma EndRemovesFirst(s: State, s': State, b: int)
    requires BatchesSound(s) && b in s.batches && s.batches[b].EndAll? && s.batches[b].todo != []
    requires s'.active <= s.active - {s.batches[b].todo[0]} && s'.calls.Keys == s.calls.Keys &&
             s'.nextBatch == s.nextBatch
    requires s'.batches == s.batches[b := EndAll(s.batches[b].started, s.batches[b].todo[1..])]
    ensures BatchesSound(s')
  {
    var t := s.batches[b];
    forall d <- t.started | d in s'.active ensures d in t.todo[1..] {
      assert d in t.todo && d != t.todo[0];
    }
  }

  lemma StepEndAllKeepsInv(s: State, b: int)
    requires Inv(s) && b in s.batches && s.batches[b].EndAll? && s.batches[b].todo != []
    ensures Inv(StepEndAll(s, b))
  {
    Parts(s);
    var t := s.batches[b];
    EndCallKeepsInv(s, t.todo[0], OtherTrigger);
    EndingShrinks(s, t.todo[0]);
    var s1 := EndCall(s, t.todo[0], OtherTrigger);
    EndRemovesFirst(s, s1.(batches := s.batches[b := EndAll(t.started, t.todo[1..])]), b);
    BatchesKeepInv(s1, StepEndAll(s, b));
  }

  lemma ReconcileBatchSound(s: State, b: int, todo: seq<Id>, querying: Option<Id>)
    requires BatchesSound(s) && b in s.batches
    ensures BatchesSound(s.(batches := s.batches[b := Reconcile(todo, querying)]))
  {
  }

  lemma ReconcileKeepsInv(s: State, b: int, todo: seq<Id>, querying: Option<Id>)
    requires Inv(s) && b in s.batches
    ensures Inv(s.(batches := s.batches[b := Reconcile(todo, querying)]))
  {
    Parts(s);
    ReconcileBatchSound(s, b, todo, querying);
    BatchesKeepInv(s, s.(batches := s.batches[b := Reconcile(todo, querying)]));
  }

  lemma ReplyReconcileKeepsInv(s: State, b: int, gone: bool)
    requires Inv(s) && b in s.batches && s.batches[b].Reconcile? && s.batches[b].querying.Some?
    ensures Inv(ReplyReconcile(s, b, gone))
  {
    Parts(s);
    ReconcileKeepsInv(s, b, s.batches[b].todo, None);
    if gone {
      var s1 := s.(batches := s.batches[b := Reconcile(s.batches[b].todo, None)]);
      EndCallKeepsInv(s1, s.batches[b].querying.value, OtherTrigger);
    }
  }

  // ---------------------------------------------------------------- setting up, settling, disposing

  /** Changing only the set-up stages of calls that are not tracked. */
  lemma StagesKeepInv(s: State, s': State)
    requires Inv(s) && MapsAgree(s') && IdsSeparate(s')
    requires s' == s.(issued := s'.issued, outbound := s'.outbound, inbound := s'.inbound,
                      provider := s'.provider, notification := s'.notification)
    ensures Inv(s')
  {
    Parts(s);
    TimersFrame(s, s');
    AnswersFrame(s, s');
    LogFrame(s, s');
    Whole(s');
  }

  lemma LogFrame(s: State, s': State)
    requires TeardownsExact(s) && BatchesSound(s)
    requires s'.log == s.log && s'.calls == s.calls && s'.active == s.active
    requires s'.batches == s.batches && s'.nextBatch == s.nextBatch
    ensures TeardownsExact(s') && BatchesSound(s')
  {
  }

  lemma OutboundStages(s: State, c: Id, o: Outbound)
    requires MapsAgree(s) && IdsSeparate(s)
    requires c !in s.calls && c !in s.inbound && c in s.issued
    requires o.stage.Patching? ==> o.stage.providerCallId !in s.provider
    requires o.stage.Patching? ==> forall d <- s.outbound :: d != c ==> s.outbound[d].stage != o.stage
    ensures IdsSeparate(s.(outbound := s.outbound[c := o]))
  {
  }

  lemma OutboundStageKeepsInv(s: State, c: Id, o: Outbound)
    requires Inv(s)
    requires c !in s.calls && c !in s.inbound && c in s.issued
    requires o.stage.Patching? ==> o.stage.providerCallId !in s.provider
    requires o.stage.Patching? ==> forall d <- s.outbound :: d != c ==> s.outbound[d].stage != o.stage
    ensures Inv(s.(outbound := s.outbound[c := o]))
  {
    Parts(s);
    OutboundStages(s, c, o);
    MapsIgnoreOutbound(s, s.outbound[c := o]);
    StagesKeepInv(s, s.(outbound := s.outbound[c := o]));
  }

  lemma OutboundFailsKeepsInv(s: State, c: Id)
    requires Inv(s) && c in s.outbound
    ensures Inv(s.(outbound := s.outbound - {c}))
  {
    Parts(s);
    OutboundGone(s, c);
    MapsIgnoreOutbound(s, s.outbound - {c});
    StagesKeepInv(s, s.(outbound := s.outbound - {c}));
  }

  lemma MapsIgnoreOutbound(s: State, outbound: map<Id, Outbound>)
    requires MapsAgree(s)
    ensures MapsAgree(s.(outbound := outbound))
  {
  }

  lemma OutboundGone(s: State, c: Id)
    requires IdsSeparate(s)
    ensures IdsSeparate(s.(outbound := s.outbound - {c}))
  {
  }

  lemma IssueKeepsIds(s: State, c: Id)
    requires MapsAgree(s) && IdsSeparate(s)
    ensures MapsAgree(s.(issued := s.issued + {c})) && IdsSeparate(s.(issued := s.issued + {c}))
  {
  }

  lemma IssueKeepsInv(s: State, c: Id)
    requires Inv(s) && c !in s.issued
    ensures Inv(s.(issued := s.issued + {c}))
  {
    Parts(s);
    IssueKeepsIds(s, c);
    StagesKeepInv(s, s.(issued := s.issued + {c}));
  }

  lemma StartOutboundKeepsInv(s: State, c: Id, device: Id, echo: bool, wsAudio: bool)
    requires Inv(s) && c !in s.issued
    ensures Inv(StartOutbound(s, c, device, echo, wsAudio))
  {
    Parts(s);
    IssueKeepsInv(s, c);
    OutboundStageKeepsInv(s.(issued := s.issued + {c}), c, Outbound(device, echo, wsAudio, CreatingSession));
  }

  lemma OpenOutboundKeepsInv(s: State, c: Id, ok: bool)
    requires Inv(s) && c in s.outbound
    ensures Inv(OpenOutbound(s, c, ok))
  {
    Parts(s);
    if ok { OutboundStageKeepsInv(s, c, s.outbound[c].(stage := Dialing)); } else { OutboundFailsKeepsInv(s, c); }
  }

  /** Adding the early provider mapping of handleInbound is sound when the provider's id is not in use... */
  lemma StartInboundMaps(s: State, c: Id, p: Id, wsAudio: bool)
    requires MapsAgree(s) && IdsSeparate(s) && c !in s.issued && p !in s.provider
    ensures MapsAgree(StartInbound(s, c, p, wsAudio))
  {
    var s' := StartInbound(s, c, p, wsAudio);
    forall q <- s'.provider
      ensures (s'.provider[q] in s'.active && s'.calls[s'.provider[q]].providerCallId == q) ||
              OpeningFor(s', s'.provider[q], q)
    {
      if q != p && s.provider[q] !in s.active { assert OpeningFor(s, s.provider[q], q); }
    }
  }

  lemma StartInboundIds(s: State, c: Id, p: Id, wsAudio: bool)
    requires IdsSeparate(s) && c !in s.issued && !ProviderIdInUse(s, p)
    ensures IdsSeparate(StartInbound(s, c, p, wsAudio))
  {
  }

  /** ...and unsound when it is. */
  lemma StartInboundClash(s: State, c: Id, p: Id, wsAudio: bool)
    requires MapsAgree(s) && IdsSeparate(s) && c !in s.issued && ProviderIdInUse(s, p)
    ensures !MapsAgree(StartInbound(s, c, p, wsAudio)) || !IdsSeparate(StartInbound(s, c, p, wsAudio))
  {
    var s' := StartInbound(s, c, p, wsAudio);
    if p in s.provider {
      assert s'.provider[p] == c && s.provider[p] != c;
      if s.provider[p] !in s.active { assert OpeningFor(s, s.provider[p], p); }
    }
  }

  lemma StartInboundExact(s: State, c: Id, p: Id, wsAudio: bool)
    requires Inv(s) && c !in s.issued
    ensures Inv(StartInbound(s, c, p, wsAudio)) <==> !ProviderIdInUse(s, p)
  {
    Parts(s);
    if !ProviderIdInUse(s, p) {
      StartInboundMaps(s, c, p, wsAudio);
      StartInboundIds(s, c, p, wsAudio);
      StagesKeepInv(s, StartInbound(s, c, p, wsAudio));
    } else {
      StartInboundClash(s, c, p, wsAudio);
      NotWhole(StartInbound(s, c, p, wsAudio));
    }
  }

  /** makeCall returning an id that is in use breaks the invariant, and only that does. */
  lemma DialOutboundExact(s: State, c: Id, p: Id)
    requires Inv(s) && c in s.outbound && s.outbound[c].stage == Dialing
    ensures Inv(DialOutbound(s, c, Some(p))) <==> !ProviderIdInUse(s, p)
  {
    Parts(s);
    if !ProviderIdInUse(s, p) {
      if s.outbound[c].echo {
        TrackOutboundKeepsInv(s, c, p);
      } else {
        OutboundStageKeepsInv(s, c, s.outbound[c].(stage := Patching(p)));
      }
    } else {
      DialedTwice(s, c, p);
      NotWhole(DialOutbound(s, c, Some(p)));
    }
  }

  lemma DialedTwice(s: State, c: Id, p: Id)
    requires MapsAgree(s) && IdsSeparate(s) && c in s.outbound && s.outbound[c].stage == Dialing &&
             ProviderIdInUse(s, p)
    ensures !(MapsAgree(DialOutbound(s, c, Some(p))) && IdsSeparate(DialOutbound(s, c, Some(p))))
  {
    var s' := DialOutbound(s, c, Some(p));
    if p in s.provider {
      var d := s.provider[p];
      assert d in s.active || OpeningFor(s, d, p);
      assert d != c;
      if s.outbound[c].echo {
        assert s'.provider[p] == c;
      } else {
        assert p in s'.provider && s'.outbound[c].stage == Patching(p);
      }
    } else {
      var i :| i in s.outbound && s.outbound[i].stage == Patching(p);
      assert i != c && i in s'.outbound && s'.outbound[i].stage == Patching(p);
      if s.outbound[c].echo { assert p in s'.provider; } else { assert s'.outbound[c].stage == Patching(p); }
    }
  }

  lemma InboundFails(s: State, c: Id)
    requires MapsAgree(s) && IdsSeparate(s) && c in s.inbound && s.inbound[c].OpeningSession?
    ensures MapsAgree(OpenInbound(s, c, false)) && IdsSeparate(OpenInbound(s, c, false))
  {
    var p := s.inbound[c].providerCallId;
    var s' := OpenInbound(s, c, false);
    forall d <- s.active ensures s.calls[d].providerCallId != p {
      assert s.provider[s.calls[d].providerCallId] == d;
    }
    forall q <- s'.provider
      ensures (s'.provider[q] in s'.active && s'.calls[s'.provider[q]].providerCallId == q) ||
              OpeningFor(s', s'.provider[q], q)
    {
      if s.provider[q] !in s.active { assert OpeningFor(s, s.provider[q], q); }
    }
  }

  lemma OpenInboundKeepsInv(s: State, c: Id, ok: bool)
    requires Inv(s) && c in s.inbound && s.inbound[c].OpeningSession?
    ensures Inv(OpenInbound(s, c, ok))
  {
    Parts(s);
    if ok {
      TrackInboundKeepsInv(s, c, s.inbound[c].providerCallId, s.inbound[c].wsAudio);
    } else {
      InboundFails(s, c);
      StagesKeepInv(s, OpenInbound(s, c, false));
    }
  }

  /** handleInbound has tracked its call: it moves on or finishes, perhaps registering the notification. */
  function SettleInbound(s: State, c: Id, next: Option<Inbound>, n: Option<Id>): State {
    s.(inbound := if next.None? then s.inbound - {c} else s.inbound[c := next.value],
       notification := if n.None? then s.notification else s.notification[n.value := c])
  }

  lemma SettleInboundMaps(s: State, c: Id, next: Option<Inbound>, n: Option<Id>)
    requires MapsAgree(s) && c in s.inbound && !s.inbound[c].OpeningSession?
    requires n.Some? ==> c in s.active
    ensures MapsAgree(SettleInbound(s, c, next, n))
  {
    var s' := SettleInbound(s, c, next, n);
    forall q <- s'.provider
      ensures (s'.provider[q] in s'.active && s'.calls[s'.provider[q]].providerCallId == q) ||
              OpeningFor(s', s'.provider[q], q)
    {
      if s.provider[q] !in s.active { assert OpeningFor(s, s.provider[q], q); }
    }
  }

  lemma SettleInboundIds(s: State, c: Id, next: Option<Inbound>, n: Option<Id>)
    requires IdsSeparate(s) && c in s.inbound && !s.inbound[c].OpeningSession?
    requires next.Some? ==> !next.value.OpeningSession?
    ensures IdsSeparate(SettleInbound(s, c, next, n))
  {
  }

  lemma SettleInboundKeepsInv(s: State, c: Id, next: Option<Inbound>, n: Option<Id>)
    requires Inv(s) && c in s.inbound && !s.inbound[c].OpeningSession?
    requires next.Some? ==> !next.value.OpeningSession?
    requires n.Some? ==> c in s.active
    ensures Inv(SettleInbound(s, c, next, n))
  {
    Parts(s);
    SettleInboundMaps(s, c, next, n);
    SettleInboundIds(s, c, next, n);
    StagesKeepInv(s, SettleInbound(s, c, next, n));
  }

  lemma AnnounceInboundKeepsInv(s: State, c: Id, ok: bool)
    requires Inv(s) && c in s.inbound && s.inbound[c].ReadingNumbers?
    ensures Inv(AnnounceInbound(s, c, ok))
  {
    Parts(s);
    SettleInboundKeepsInv(s, c, if ok then Some(Notifying) else None, None);
    if ok { SayKeepsInv(SettleInbound(s, c, Some(Notifying), None), Ringing(c)); }
  }

  lemma NotifyInboundKeepsInv(s: State, c: Id, created: Option<Id>)
    requires Inv(s) && c in s.inbound && s.inbound[c].Notifying?
    ensures Inv(NotifyInbound(s, c, created))
  {
    Parts(s);
    SettleInboundKeepsInv(s, c, None, if created.Some? && c in s.active then created else None);
  }

  lemma AdvanceKeepsInv(s: State, elapsed: nat)
    requires Inv(s)
    ensures Inv(Advance(s, elapsed))
  {
    Parts(s);
    TimersFrame(s, Advance(s, elapsed));
    AnswersFrame(s, Advance(s, elapsed));
    BonesKeepInv(s, Advance(s, elapsed));
  }

  lemma StartBatchKeepsInv(s: State, batch: Batch)
    requires Inv(s) && (batch.EndAll? ==> batch.started == s.active && forall c <- s.active :: c in batch.todo)
    ensures Inv(StartBatch(s, batch))
  {
    Parts(s);
    StartBatchSound(s, batch);
    BatchesKeepInv(s, StartBatch(s, batch));
  }

  lemma StartBatchSound(s: State, batch: Batch)
    requires BatchesSound(s) && s.active <= s.calls.Keys
    requires batch.EndAll? ==> batch.started == s.active && forall c <- s.active :: c in batch.todo
    ensures BatchesSound(StartBatch(s, batch))
  {
  }

  lemma StepReconcileKeepsInv(s: State, b: int)
    requires Inv(s) && b in s.batches && s.batches[b].Reconcile? && s.batches[b].todo != []
    ensures Inv(StepReconcile(s, b))
  {
    Parts(s);
    var t := s.batches[b];
    var c := t.todo[0];
    var skip := c !in s.calls || s.calls[c].ended || !s.calls[c].answered;
    ReconcileKeepsInv(s, b, t.todo[1..], if skip then None else Some(c));
  }

  lemma FireWatchdogKeepsInv(s: State, t: int)
    requires Inv(s) && t in s.timers
    ensures Inv(FireWatchdog(s, t))
  {
    Parts(s);
    WatchdogEndsItsCall(s, t);
    EndKeepsInv(s, s.timers[t].call, OtherTrigger);
  }

  lemma DisposeMaps(s: State)
    requires MapsAgree(s) && IdsSeparate(s)
    ensures MapsAgree(DisposeAll(s)) && IdsSeparate(DisposeAll(s)) <==> NoInboundOpening(s)
  {
    var s' := DisposeAll(s);
    if c :| c in s.inbound && s.inbound[c].OpeningSession? {
      assert s'.inbound[c].providerCallId !in s'.provider;
    }
  }

  lemma DisposeKeepsTimers(s: State)
    requires TimersExact(s)
    ensures TimersExact(DisposeAll(s)) && DisposeAll(s).timers == map[]
  {
    forall t <- s.timers ensures exists c <- s.active :: s.calls[c].watchdog == Some(t) {
      assert OwnsTimer(s, s.timers[t].call, t);
    }
  }

  lemma DisposeKeepsRest(s: State)
    requires AnswersExclusive(s) && TeardownsExact(s) && BatchesSound(s)
    requires s.active <= s.calls.Keys
    ensures AnswersExclusive(DisposeAll(s)) && TeardownsExact(DisposeAll(s)) && BatchesSound(DisposeAll(s))
  {
    var s' := DisposeAll(s);
    forall c ensures Ended(s', c) <==> Ended(s, c) {}
  }

  /** Shutdown keeps the invariant exactly when no handleInbound is waiting for its media session. */
  lemma DisposeExact(s: State)
    requires Inv(s)
    ensures Inv(DisposeAll(s)) <==> NoInboundOpening(s)
  {
    Parts(s);
    DisposeMaps(s);
    if NoInboundOpening(s) {
      DisposeKeepsTimers(s);
      DisposeKeepsRest(s);
      Whole(DisposeAll(s));
    } else {
      NotWhole(DisposeAll(s));
    }
  }
}
