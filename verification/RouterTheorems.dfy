/** What every run of the call router keeps. */
module RouterTheorems {
  import opened Basics
  import opened RouterModel

  // ---------------------------------------------------------------- counting

  datatype Kind = Arrival | Outcome | AnswerOutcome | AnswerMade | DeclineOutcome | TimeoutOutcome | HangupSent

  predicate Is(e: Effect, c: CallId, k: Kind) {
    match k
    case Arrival => e == Incoming(c)
    case Outcome => e.Cancelled? && e.call == c
    case AnswerOutcome => e == Cancelled(c, AnsweredElsewhere)
    case AnswerMade => e.Answered? && e.call == c
    case DeclineOutcome => e == Cancelled(c, Declined)
    case TimeoutOutcome => e == Cancelled(c, TimedOut)
    case HangupSent => e == ProviderHangup(c)
  }

  function Hits(log: seq<Effect>, c: CallId, k: Kind): nat {
    if log == [] then 0 else Hits(log[..|log| - 1], c, k) + if Is(log[|log| - 1], c, k) then 1 else 0
  }

  lemma {:induction false} HitsConcat(a: seq<Effect>, b: seq<Effect>, c: CallId, k: Kind)
    ensures Hits(a + b, c, k) == Hits(a, c, k) + Hits(b, c, k)
  {
    if b == [] {
      assert a + b == a;
    } else {
      assert (a + b)[..|a + b| - 1] == a + b[..|b| - 1];
      HitsConcat(a, b[..|b| - 1], c, k);
    }
  }

  lemma {:induction false} HitsOne(e: Effect, c: CallId, k: Kind)
    ensures Hits([e], c, k) == if Is(e, c, k) then 1 else 0
  {
    assert [e][..0] == [];
  }

  lemma {:induction false} HitsThree(x: Effect, y: Effect, z: Effect, c: CallId, k: Kind)
    ensures Hits([x, y, z], c, k) == Hits([x], c, k) + Hits([y], c, k) + Hits([z], c, k)
  {
    assert [x, y, z] == [x] + [y] + [z];
    HitsConcat([x] + [y], [z], c, k);
    HitsConcat([x], [y], c, k);
  }

  // ---------------------------------------------------------------- the invariant

  /** A pending call has exactly one ring timer when it is unresolved, and none when it is resolved. */
  ghost predicate RingExact(s: State) {
    && (forall t <- s.timers :: s.timers[t] in s.pending && !s.pending[s.timers[t]].resolved
                                && s.pending[s.timers[t]].timer == Some(t))
    && (forall c <- s.pending :: if s.pending[c].resolved then s.pending[c].timer == None
                                 else s.pending[c].timer.Some? && s.pending[c].timer.value in s.timers
                                      && s.timers[s.pending[c].timer.value] == c)
  }

  ghost predicate Deciding(s: State, c: CallId, k: Handle) {
    (k in s.answering && s.answering[k].call == c) || (k in s.declining && s.declining[k] == c)
  }

  /** An answer or a decline waiting for the provider has a pending, resolved call to itself. */
  ghost predicate DecisionExact(s: State) {
    && s.answering.Keys !! s.declining.Keys
    && (forall c, k :: Deciding(s, c, k) ==> c in s.pending && s.pending[c].resolved)
    && (forall c, k, l :: Deciding(s, c, k) && Deciding(s, c, l) ==> k == l)
  }

  ghost predicate Decided(s: State, c: CallId) { exists k :: Deciding(s, c, k) }

  ghost predicate NoneStuck(s: State) {
    forall c <- s.pending :: s.pending[c].resolved ==> Decided(s, c)
  }

  ghost predicate HandlesOld(s: State) {
    && (forall t <- s.timers :: t.n < s.nextHandle)
    && (forall k <- s.answering :: k.n < s.nextHandle)
    && (forall k <- s.declining :: k.n < s.nextHandle)
  }

  /** Every arrival is still pending or has had its one outcome; answers are exactly the outcomes by answer. */
  ghost predicate Counted(s: State, c: CallId) {
    && Hits(s.log, c, Outcome) + (if c in s.pending then 1 else 0) == Hits(s.log, c, Arrival)
    && Hits(s.log, c, AnswerMade) == Hits(s.log, c, AnswerOutcome) <= Hits(s.log, c, Outcome)
  }

  ghost predicate OutcomesExact(s: State) { forall c :: Counted(s, c) }


  // ---------------------------------------------------------------- timers and decisions

  ghost predicate Rings(s: State) { RingExact(s) && HandlesOld(s) }

  ghost predicate Decisions(s: State) { DecisionExact(s) && NoneStuck(s) }

  ghost predicate Inv(s: State) { Rings(s) && Decisions(s) && OutcomesExact(s) }

  // ---------------------------------------------------------------- decisions, step by step

  /** Steps that start and finish no decision keep the decisions, as long as their calls stay as they are. */
  lemma SameDecisions(s: State, r: State)
    requires Decisions(s)
    requires r.answering == s.answering && r.declining == s.declining
    requires forall c <- s.pending :: s.pending[c].resolved ==> c in r.pending && r.pending[c].resolved
    requires forall c <- r.pending :: r.pending[c].resolved ==> c in s.pending && s.pending[c].resolved
    ensures Decisions(r)
  {
    forall c, k ensures Deciding(r, c, k) <==> Deciding(s, c, k) {
    }
    forall c | c in r.pending && r.pending[c].resolved ensures Decided(r, c) {
      assert Decided(s, c);
      var k :| Deciding(s, c, k);
      assert Deciding(r, c, k);
    }
  }

  /** A decision is taken: one new handle, for a call that had none. */
  lemma NewDecision(s: State, r: State, c: CallId, k: Handle)
    requires Decisions(s) && c in s.pending && !s.pending[c].resolved
    requires r.pending.Keys == s.pending.Keys && r.pending[c].resolved
    requires forall x <- s.pending :: x != c ==> r.pending[x] == s.pending[x]
    requires k !in s.answering && k !in s.declining && r.answering.Keys !! r.declining.Keys
    requires forall x, l :: Deciding(r, x, l) <==> Deciding(s, x, l) || (x == c && l == k)
    ensures Decisions(r)
  {
    assert forall l :: !Deciding(s, c, l);
    assert Deciding(r, c, k);
    forall x | x in r.pending && r.pending[x].resolved ensures Decided(r, x) {
      if x == c {
        assert Deciding(r, c, k);
      } else {
        assert Decided(s, x);
        var l :| Deciding(s, x, l);
        assert Deciding(r, x, l);
      }
    }
  }

  /** A decision is over: its handle is gone, and its call is gone or open again. */
  lemma DecisionOver(s: State, r: State, c: CallId, k: Handle)
    requires Decisions(s) && Deciding(s, c, k)
    requires c in r.pending ==> !r.pending[c].resolved
    requires forall x :: x != c ==> (x in s.pending <==> x in r.pending)
    requires forall x <- s.pending :: x != c ==> r.pending[x] == s.pending[x]
    requires r.answering.Keys !! r.declining.Keys
    requires forall x, l :: Deciding(r, x, l) <==> Deciding(s, x, l) && l != k
    ensures Decisions(r)
  {
    assert forall x :: Deciding(s, x, k) ==> x == c;
    forall x | x in r.pending && r.pending[x].resolved ensures Decided(r, x) {
      assert Decided(s, x);
      var l :| Deciding(s, x, l);
      assert Deciding(r, x, l);
    }
    assert forall l :: Deciding(r, c, l) ==> l == k;
  }

  lemma BeginAnswerDecides(s: State, c: CallId, device: Device)
    requires Decisions(s) && HandlesOld(s)
    ensures Decisions(BeginAnswer(s, c, device))
  {
    var r, k := BeginAnswer(s, c, device), Fresh(s);
    if c in s.pending && !s.pending[c].resolved {
      forall x, l ensures Deciding(r, x, l) <==> Deciding(s, x, l) || (x == c && l == k) {
      }
      NewDecision(s, r, c, k);
    } else {
      SameDecisions(s, r);
    }
  }

  lemma BeginDeclineDecides(s: State, c: CallId)
    requires Decisions(s) && HandlesOld(s)
    ensures Decisions(BeginDecline(s, c))
  {
    var r, k := BeginDecline(s, c), Fresh(s);
    if c in s.pending && !s.pending[c].resolved {
      forall x, l ensures Deciding(r, x, l) <==> Deciding(s, x, l) || (x == c && l == k) {
      }
      NewDecision(s, r, c, k);
    }
  }

  lemma ComeInDecides(s: State, c: CallId, from: string, to: string)
    requires Decisions(s)
    ensures Decisions(ComeIn(s, c, from, to))
  {
    SameDecisions(s, ComeIn(s, c, from, to));
  }

  lemma ComeInCounts(s: State, c: CallId, from: string, to: string)
    requires OutcomesExact(s)
    ensures OutcomesExact(ComeIn(s, c, from, to))
  {
    if c !in s.pending { ArrivalCounts(s, ComeIn(s, c, from, to), c); }
  }

  lemma FinishAnswerDecides(s: State, k: Handle, success: bool)
    requires Decisions(s) && k in s.answering && s.answering[k].call in s.pending
    ensures Decisions(FinishAnswer(s, k, success))
  {
    var c, r := s.answering[k].call, FinishAnswer(s, k, success);
    forall x, l ensures Deciding(r, x, l) <==> Deciding(s, x, l) && l != k {
    }
    DecisionOver(s, r, c, k);
  }

  lemma FinishDeclineDecides(s: State, k: Handle)
    requires Decisions(s) && k in s.declining
    ensures Decisions(FinishDecline(s, k))
  {
    var c, r := s.declining[k], FinishDecline(s, k);
    forall x, l ensures Deciding(r, x, l) <==> Deciding(s, x, l) && l != k {
    }
    DecisionOver(s, r, c, k);
  }

  // ---------------------------------------------------------------- timers, step by step

  lemma ComeInRings(s: State, c: CallId, from: string, to: string)
    requires Rings(s)
    ensures Rings(ComeIn(s, c, from, to))
  {
  }

  lemma ResolveRings(s: State, c: CallId)
    requires Rings(s) && c in s.pending
    ensures Rings(Resolve(s, c))
  {
  }

  lemma BeginRings(s: State, c: CallId, device: Device)
    requires Rings(s)
    ensures Rings(BeginAnswer(s, c, device)) && Rings(BeginDecline(s, c))
  {
    if c in s.pending && !s.pending[c].resolved { ResolveRings(s, c); }
  }

  lemma FinishAnswerRings(s: State, k: Handle, success: bool)
    requires Rings(s) && k in s.answering && s.answering[k].call in s.pending
    requires s.pending[s.answering[k].call].resolved
    ensures Rings(FinishAnswer(s, k, success))
  {
  }

  lemma FinishDeclineRings(s: State, k: Handle)
    requires Rings(s) && k in s.declining && s.declining[k] in s.pending && s.pending[s.declining[k]].resolved
    ensures Rings(FinishDecline(s, k))
  {
  }

  lemma MissRings(s: State, c: CallId, reason: Reason)
    requires Rings(s)
    ensures Rings(Miss(s, c, reason))
  {
    if c in s.pending && !s.pending[c].resolved { ResolveRings(s, c); }
  }

  /** A timer that fires has left the queue; its call would have dropped it anyway. */
  lemma TimeoutIsMiss(s: State, t: Handle)
    requires RingExact(s) && t in s.timers
    ensures Miss(s.(timers := s.timers - {t}), s.timers[t], TimedOut) == Miss(s, s.timers[t], TimedOut)
  {
    assert s.timers - {t} - {t} == s.timers - {t};
  }

  // ---------------------------------------------------------------- outcomes, step by step

  /** A step that only appends messages without outcomes, and leaves the pending calls, keeps the count. */
  lemma Quiet(s: State, r: State, e: Effect)
    requires OutcomesExact(s) && r.log == s.log + [e] && r.pending.Keys == s.pending.Keys
    requires e.Rejected? || e.ActiveEnded? || e.ProviderHangup?
    ensures OutcomesExact(r)
  {
    forall c ensures Counted(r, c) {
      assert Counted(s, c);
      forall k: Kind | !k.HangupSent? ensures Hits(r.log, c, k) == Hits(s.log, c, k) {
        HitsConcat(s.log, [e], c, k);
        HitsOne(e, c, k);
      }
    }
  }

  lemma ArrivalCounts(s: State, r: State, a: CallId)
    requires OutcomesExact(s) && a !in s.pending
    requires r.log == s.log + [Incoming(a)] && r.pending.Keys == s.pending.Keys + {a}
    ensures OutcomesExact(r)
  {
    forall c ensures Counted(r, c) {
      assert Counted(s, c);
      forall k: Kind ensures Hits(r.log, c, k) == Hits(s.log, c, k) + if k.Arrival? && c == a then 1 else 0 {
        HitsConcat(s.log, [Incoming(a)], c, k);
        HitsOne(Incoming(a), c, k);
      }
    }
  }

  /** A call leaves the pending ones with one outcome between two other messages. */
  lemma OutcomeCounts(s: State, r: State, a: CallId, x: Effect, reason: Reason, z: Effect)
    requires OutcomesExact(s) && a in s.pending
    requires r.log == s.log + [x, Cancelled(a, reason), z] && r.pending.Keys == s.pending.Keys - {a}
    requires if reason.AnsweredElsewhere? then x.Answered? && x.call == a else x.StopRinging?
    requires z.ActiveStarted? || z.RecordedMissed? || z.RecordedDeclined?
    ensures OutcomesExact(r)
  {
    var y := Cancelled(a, reason);
    forall c ensures Counted(r, c) {
      assert Counted(s, c);
      forall k: Kind
        ensures Hits(r.log, c, k) == Hits(s.log, c, k) + (if Is(x, c, k) then 1 else 0) + if Is(y, c, k) then 1 else 0
      {
        HitsConcat(s.log, [x, y, z], c, k);
        HitsThree(x, y, z, c, k);
        HitsOne(x, c, k);
        HitsOne(y, c, k);
        HitsOne(z, c, k);
      }
    }
  }

  lemma MissCounts(s: State, c: CallId, reason: Reason)
    requires OutcomesExact(s) && !reason.AnsweredElsewhere?
    ensures OutcomesExact(Miss(s, c, reason))
  {
    if c in s.pending && !s.pending[c].resolved {
      var hungUp := s.(log := s.log + HangupFor(c, reason));
      if reason.TimedOut? { Quiet(s, hungUp, ProviderHangup(c)); } else { SameCounts(s, hungUp); }
      OutcomeCounts(hungUp, Miss(s, c, reason), c, StopRinging(c), reason, RecordedMissed(c));
    }
  }

  lemma BeginCounts(s: State, c: CallId, device: Device)
    requires OutcomesExact(s)
    ensures OutcomesExact(BeginAnswer(s, c, device)) && OutcomesExact(BeginDecline(s, c))
  {
    if c in s.pending && !s.pending[c].resolved {
      SameCounts(s, BeginAnswer(s, c, device));
      Quiet(s, BeginDecline(s, c), ProviderHangup(c));
    } else {
      Quiet(s, BeginAnswer(s, c, device), Rejected(c, device));
    }
  }

  lemma SameCounts(s: State, r: State)
    requires OutcomesExact(s) && r.log == s.log && r.pending.Keys == s.pending.Keys
    ensures OutcomesExact(r)
  {
    forall c ensures Counted(r, c) {
      assert Counted(s, c);
    }
  }

  lemma FinishAnswerCounts(s: State, k: Handle, success: bool)
    requires OutcomesExact(s) && k in s.answering && s.answering[k].call in s.pending
    ensures OutcomesExact(FinishAnswer(s, k, success))
  {
    var c, device := s.answering[k].call, s.answering[k].device;
    var r := FinishAnswer(s, k, success);
    if success {
      OutcomeCounts(s, r, c, Answered(c, device), AnsweredElsewhere, ActiveStarted(s.pending[c].to, c));
    } else {
      Quiet(s, r, Rejected(c, device));
    }
  }

  lemma FinishDeclineCounts(s: State, k: Handle)
    requires OutcomesExact(s) && k in s.declining && s.declining[k] in s.pending
    ensures OutcomesExact(FinishDecline(s, k))
  {
    var c := s.declining[k];
    OutcomeCounts(s, FinishDecline(s, k), c, StopRinging(c), Declined, RecordedDeclined(c));
  }

  // ---------------------------------------------------------------- provider hang-ups, step by step

  /** What a message adds to the hang-ups sent for a call, less the outcomes that call for one. */
  function Weight(e: Effect, c: CallId): int {
    if e == ProviderHangup(c) then 1
    else if e == Cancelled(c, Declined) || e == Cancelled(c, TimedOut) then -1
    else 0
  }

  function Balance(log: seq<Effect>, c: CallId): int {
    if log == [] then 0 else Balance(log[..|log| - 1], c) + Weight(log[|log| - 1], c)
  }

  lemma {:induction false} BalanceOne(log: seq<Effect>, e: Effect, c: CallId)
    ensures Balance(log + [e], c) == Balance(log, c) + Weight(e, c)
  {
    assert (log + [e])[..|log|] == log;
  }

  lemma {:induction false} BalanceThree(log: seq<Effect>, x: Effect, y: Effect, z: Effect, c: CallId)
    ensures Balance(log + [x, y, z], c) == Balance(log, c) + Weight(x, c) + Weight(y, c) + Weight(z, c)
  {
    assert log + [x, y, z] == log + [x] + [y] + [z];
    BalanceOne(log, x, c);
    BalanceOne(log + [x], y, c);
    BalanceOne(log + [x] + [y], z, c);
  }

  lemma {:induction false} BalanceIsHits(log: seq<Effect>, c: CallId)
    ensures Balance(log, c) == Hits(log, c, HangupSent) - Hits(log, c, DeclineOutcome) - Hits(log, c, TimeoutOutcome)
  {
    if log != [] { BalanceIsHits(log[..|log| - 1], c); }
  }

  ghost predicate Declining(s: State, c: CallId) { exists k :: k in s.declining && s.declining[k] == c }

  /** A call has been hung up for each decline and timeout, and once more while a decline waits for the provider. */
  ghost predicate HangupsExact(s: State) {
    forall c {:trigger Balance(s.log, c)} :: Balance(s.log, c) == if Declining(s, c) then 1 else 0
  }

  lemma SameHangups(s: State, r: State, added: seq<Effect>)
    requires HangupsExact(s) && r.declining == s.declining && r.log == s.log + added && |added| <= 1
    requires forall e <- added :: !e.ProviderHangup? && !e.Cancelled?
    ensures HangupsExact(r)
  {
    forall c ensures Balance(r.log, c) == if Declining(r, c) then 1 else 0 {
      assert Declining(r, c) <==> Declining(s, c);
      if added == [] {
        assert r.log == s.log;
      } else {
        assert added == [added[0]];
        BalanceOne(s.log, added[0], c);
      }
    }
  }

  lemma FinishAnswerHangups(s: State, k: Handle, success: bool)
    requires HangupsExact(s) && k in s.answering && s.answering[k].call in s.pending
    ensures HangupsExact(FinishAnswer(s, k, success))
  {
    var a, device, r := s.answering[k].call, s.answering[k].device, FinishAnswer(s, k, success);
    if success {
      forall c ensures Balance(r.log, c) == if Declining(r, c) then 1 else 0 {
        assert Declining(r, c) <==> Declining(s, c);
        BalanceThree(s.log, Answered(a, device), Cancelled(a, AnsweredElsewhere), ActiveStarted(s.pending[a].to, a), c);
      }
    } else {
      SameHangups(s, r, [Rejected(a, device)]);
    }
  }

  lemma BeginDeclineHangups(s: State, a: CallId)
    requires HangupsExact(s) && Decisions(s) && HandlesOld(s)
    ensures HangupsExact(BeginDecline(s, a))
  {
    if a in s.pending && !s.pending[a].resolved {
      var r, k := BeginDecline(s, a), Fresh(s);
      assert forall l :: !Deciding(s, a, l);
      forall c ensures Balance(r.log, c) == if Declining(r, c) then 1 else 0 {
        BalanceOne(s.log, ProviderHangup(a), c);
        if c == a {
          assert r.declining[k] == a;
          assert !Declining(s, a) by { assert forall l <- s.declining :: !Deciding(s, a, l); }
        } else {
          assert forall l :: l in r.declining && r.declining[l] == c <==> l in s.declining && s.declining[l] == c;
        }
      }
    }
  }

  lemma FinishDeclineHangups(s: State, k: Handle)
    requires HangupsExact(s) && Decisions(s) && k in s.declining
    ensures HangupsExact(FinishDecline(s, k))
  {
    var a, r := s.declining[k], FinishDecline(s, k);
    forall c ensures Balance(r.log, c) == if Declining(r, c) then 1 else 0 {
      BalanceThree(s.log, StopRinging(a), Cancelled(a, Declined), RecordedDeclined(a), c);
      if c == a {
        assert Deciding(s, a, k);
        forall l | l in s.declining && s.declining[l] == a ensures l == k {
          assert Deciding(s, a, l);
        }
      } else {
        assert forall l :: l in r.declining && r.declining[l] == c <==> l in s.declining && s.declining[l] == c;
      }
    }
  }

  lemma MissHangups(s: State, a: CallId, reason: Reason)
    requires HangupsExact(s) && (reason.TimedOut? || reason.CallerDisconnect?)
    ensures HangupsExact(Miss(s, a, reason))
  {
    if a in s.pending && !s.pending[a].resolved {
      var r := Miss(s, a, reason);
      forall c ensures Balance(r.log, c) == if Declining(r, c) then 1 else 0 {
        assert Declining(r, c) <==> Declining(s, c);
        MissBalance(s.log, a, reason, c);
      }
    }
  }

  /** A missed call's messages balance: a hang-up for a timeout, none for a caller who is gone. */
  lemma {:induction false} MissBalance(log: seq<Effect>, a: CallId, reason: Reason, c: CallId)
    requires reason.TimedOut? || reason.CallerDisconnect?
    ensures Balance(log + HangupFor(a, reason) + [StopRinging(a), Cancelled(a, reason), RecordedMissed(a)], c) ==
            Balance(log, c)
  {
    var mid := log + HangupFor(a, reason);
    if reason.TimedOut? { BalanceOne(log, ProviderHangup(a), c); } else { assert mid == log; }
    BalanceThree(mid, StopRinging(a), Cancelled(a, reason), RecordedMissed(a), c);
  }

  lemma BeginAnswerHangups(s: State, a: CallId, device: Device)
    requires HangupsExact(s)
    ensures HangupsExact(BeginAnswer(s, a, device))
  {
    var r := BeginAnswer(s, a, device);
    if a in s.pending && !s.pending[a].resolved {
      SameHangups(s, r, []);
    } else {
      SameHangups(s, r, [Rejected(a, device)]);
    }
  }

  lemma ComeInHangups(s: State, a: CallId, from: string, to: string)
    requires HangupsExact(s)
    ensures HangupsExact(ComeIn(s, a, from, to))
  {
    if a !in s.pending { SameHangups(s, ComeIn(s, a, from, to), [Incoming(a)]); }
  }

  lemma EndActiveHangups(s: State, number: Option<string>)
    requires HangupsExact(s)
    ensures HangupsExact(EndActive(s, number))
  {
    if number.Some? { SameHangups(s, EndActive(s, number), [ActiveEnded(number.value)]); }
  }

  // ---------------------------------------------------------------- every step, every run

  lemma MissKeeps(s: State, c: CallId, reason: Reason)
    requires Inv(s) && !reason.AnsweredElsewhere?
    ensures Inv(Miss(s, c, reason))
  {
    MissRings(s, c, reason);
    SameDecisions(s, Miss(s, c, reason));
    MissCounts(s, c, reason);
  }

  lemma ActiveKeeps(s: State, number: Option<string>)
    requires Inv(s)
    ensures Inv(EndActive(s, number))
  {
    SameDecisions(s, EndActive(s, number));
    if number.Some? { Quiet(s, EndActive(s, number), ActiveEnded(number.value)); }
  }

  lemma DecidingIsResolved(s: State, c: CallId, k: Handle)
    requires Decisions(s) && Deciding(s, c, k)
    ensures c in s.pending && s.pending[c].resolved
  {
  }

  lemma StepKeepsInv(s: State, e: Event)
    requires Inv(s) && Enabled(s, e)
    ensures AnswersPending(s) && Inv(Apply(s, e))
  {
    forall k | k in s.answering ensures s.answering[k].call in s.pending {
      DecidingIsResolved(s, s.answering[k].call, k);
    }
    match e
    case CallComesIn(c, from, to) => ComeInKeeps(s, c, from, to);
    case Answer(c, device) => BeginKeeps(s, c, device);
    case AnswerReturns(k, success) =>
      DecidingIsResolved(s, s.answering[k].call, k);
      FinishAnswerRings(s, k, success);
      FinishAnswerDecides(s, k, success);
      FinishAnswerCounts(s, k, success);
    case Decline(c) => BeginKeeps(s, c, Device(""));
    case DeclineReturns(k) =>
      DecidingIsResolved(s, s.declining[k], k);
      FinishDeclineRings(s, k);
      FinishDeclineDecides(s, k);
      FinishDeclineCounts(s, k);
    case CallerGone(c) => MissKeeps(s, c, CallerDisconnect);
    case CallEnds(c, number) =>
      if c in s.pending { MissKeeps(s, c, CallerDisconnect); } else { ActiveKeeps(s, number); }
    case RingTimeout(t) =>
      TimeoutIsMiss(s, t);
      MissKeeps(s, s.timers[t], TimedOut);
  }

  lemma StepKeepsHangups(s: State, e: Event)
    requires Inv(s) && HangupsExact(s) && AnswersPending(s) && Enabled(s, e)
    ensures HangupsExact(Apply(s, e))
  {
    match e
    case CallComesIn(c, from, to) => ComeInHangups(s, c, from, to);
    case Answer(c, device) => BeginAnswerHangups(s, c, device);
    case AnswerReturns(k, success) => FinishAnswerHangups(s, k, success);
    case Decline(c) => BeginDeclineHangups(s, c);
    case DeclineReturns(k) => FinishDeclineHangups(s, k);
    case CallerGone(c) => MissHangups(s, c, CallerDisconnect);
    case CallEnds(c, number) =>
      if c in s.pending { MissHangups(s, c, CallerDisconnect); } else { EndActiveHangups(s, number); }
    case RingTimeout(t) =>
      TimeoutIsMiss(s, t);
      MissHangups(s, s.timers[t], TimedOut);
  }

  lemma ComeInKeeps(s: State, c: CallId, from: string, to: string)
    requires Inv(s)
    ensures Inv(ComeIn(s, c, from, to))
  {
    ComeInRings(s, c, from, to);
    ComeInDecides(s, c, from, to);
    ComeInCounts(s, c, from, to);
  }

  lemma BeginKeeps(s: State, c: CallId, device: Device)
    requires Inv(s)
    ensures Inv(BeginAnswer(s, c, device)) && Inv(BeginDecline(s, c))
  {
    BeginRings(s, c, device);
    BeginAnswerDecides(s, c, device);
    BeginDeclineDecides(s, c);
    BeginCounts(s, c, device);
  }

  /** The state after a run whose every event was enabled. */
  ghost predicate Reaches(events: seq<Event>, s: State) {
    if events == [] then s == Init
    else
      var before, e := events[..|events| - 1], events[|events| - 1];
      exists r :: Reaches(before, r) && AnswersPending(r) && Enabled(r, e) && s == Apply(r, e)
  }

  lemma {:induction false} ReachableInv(events: seq<Event>, s: State)
    requires Reaches(events, s)
    ensures Inv(s) && HangupsExact(s)
  {
    if events == [] {
      forall c ensures Counted(s, c) {
      }
      forall c ensures Balance(s.log, c) == if Declining(s, c) then 1 else 0 {
      }
    } else {
      var before, e := events[..|events| - 1], events[|events| - 1];
      var r :| Reaches(before, r) && AnswersPending(r) && Enabled(r, e) && s == Apply(r, e);
      ReachableInv(before, r);
      StepKeepsInv(r, e);
      StepKeepsHangups(r, e);
    }
  }

  /** The provider is told to hang up once for each declined or timed-out call, at the decline or the timeout. */
  lemma {:induction false} HangsUpExactly(events: seq<Event>, s: State, c: CallId)
    requires Reaches(events, s)
    ensures Hits(s.log, c, HangupSent) ==
            Hits(s.log, c, DeclineOutcome) + Hits(s.log, c, TimeoutOutcome) + if Declining(s, c) then 1 else 0
  {
    ReachableInv(events, s);
    BalanceIsHits(s.log, c);
    assert Balance(s.log, c) == if Declining(s, c) then 1 else 0;
  }

  /**
    Over any run every incoming call is still pending or has had exactly one
    call_cancelled, whose reason is its one outcome; devices that won answers are
    exactly the calls cancelled as answered elsewhere.
   */
  lemma {:induction false} OneOutcomePerCall(events: seq<Event>, s: State, c: CallId)
    requires Reaches(events, s)
    ensures Hits(s.log, c, Outcome) == Hits(s.log, c, Arrival) - if c in s.pending then 1 else 0
    ensures Hits(s.log, c, AnswerMade) == Hits(s.log, c, AnswerOutcome) <= Hits(s.log, c, Outcome)
  {
    ReachableInv(events, s);
    assert Counted(s, c);
  }

  /** A pending call has its one ring timer exactly while it is unresolved, also after failed answers reopened it. */
  lemma {:induction false} RingsExactlyWhileOpen(events: seq<Event>, s: State, c: CallId)
    requires Reaches(events, s) && c in s.pending
    ensures !s.pending[c].resolved <==> exists t :: t in s.timers && s.timers[t] == c
    ensures forall t, u :: t in s.timers && u in s.timers && s.timers[t] == s.timers[u] == c ==> t == u
  {
    ReachableInv(events, s);
    if !s.pending[c].resolved { assert s.pending[c].timer.value in s.timers; }
  }

  /** While a pending call is resolved exactly one answer or decline is waiting for the provider; otherwise none. */
  lemma {:induction false} OneDecisionAtATime(events: seq<Event>, s: State, c: CallId)
    requires Reaches(events, s)
    ensures c in s.pending && s.pending[c].resolved <==> Decided(s, c)
    ensures forall k, l :: Deciding(s, c, k) && Deciding(s, c, l) ==> k == l
  {
    ReachableInv(events, s);
  }
}
