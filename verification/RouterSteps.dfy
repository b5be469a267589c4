/** What every event of the call router changes and announces, and what the announcements tell about the calls. */
module RouterSteps {
  import opened Basics
  import opened RouterModel
  import opened RouterTheorems

  // ---------------------------------------------------------------- event by event

  ghost predicate Open(s: State, c: CallId) { c in s.pending && !s.pending[c].resolved }

  /** c rings: its ring timer is a new one, all other timers stay. */
  ghost predicate RingsAnew(s: State, r: State, c: CallId) {
    exists t :: t !in s.timers && r.timers == s.timers[t := c]
  }

  /** c rings no more, all other calls ring on. */
  ghost predicate RingsNoMore(s: State, r: State, c: CallId) {
    && (forall t :: t in r.timers <==> t in s.timers && s.timers[t] != c)
    && (forall t <- r.timers :: r.timers[t] == s.timers[t])
  }

  ghost predicate OthersPending(s: State, r: State, c: CallId) { r.pending - {c} == s.pending - {c} }

  ghost predicate SameDeciding(s: State, r: State) { r.answering == s.answering && r.declining == s.declining }

  /** c is pending with the same numbers, with the given flag. */
  ghost predicate StillPending(s: State, r: State, c: CallId, resolved: bool) {
    && c in s.pending && c in r.pending && r.pending[c].resolved == resolved
    && r.pending[c].from == s.pending[c].from && r.pending[c].to == s.pending[c].to
  }

  lemma AnswersArePending(s: State)
    requires Inv(s)
    ensures AnswersPending(s)
  {
    forall k | k in s.answering ensures s.answering[k].call in s.pending {
      DecidingIsResolved(s, s.answering[k].call, k);
    }
  }

  lemma ResolveStopsRinging(s: State, c: CallId)
    requires Rings(s) && Open(s, c)
    ensures RingsNoMore(s, Resolve(s, c), c)
  {
  }

  lemma CallRings(s: State, c: CallId, from: string, to: string)
    requires Inv(s) && AnswersPending(s) && c !in s.pending
    ensures var r := Apply(s, CallComesIn(c, from, to));
            && Open(r, c) && r.pending[c].from == from && r.pending[c].to == to && OthersPending(s, r, c)
            && RingsAnew(s, r, c) && SameDeciding(s, r) && r.active == s.active && r.log == s.log + [Incoming(c)]
  {
    assert Fresh(s) !in s.timers;
  }

  lemma KnownCallIsIgnored(s: State, c: CallId, from: string, to: string)
    requires AnswersPending(s) && c in s.pending
    ensures Apply(s, CallComesIn(c, from, to)) == s
  {
  }

  /** The first answer silences the call before the provider is asked, and announces nothing yet. */
  lemma FirstAnswerClaims(s: State, c: CallId, device: Device)
    requires Inv(s) && AnswersPending(s) && Open(s, c)
    ensures var r := Apply(s, Answer(c, device));
            && StillPending(s, r, c, true) && OthersPending(s, r, c) && RingsNoMore(s, r, c)
            && r.active == s.active && r.log == s.log && r.declining == s.declining
            && exists k :: k !in s.answering && r.answering == s.answering[k := Answering(c, device)]
  {
    ResolveStopsRinging(s, c);
    assert Fresh(s) !in s.answering;
    assert Apply(s, Answer(c, device)).answering == s.answering[Fresh(s) := Answering(c, device)];
  }

  lemma LateAnswerIsRejected(s: State, c: CallId, device: Device)
    requires AnswersPending(s) && !Open(s, c)
    ensures Apply(s, Answer(c, device)) == s.(log := s.log + [Rejected(c, device)])
  {
  }

  /** The provider answered: the call is active under the number that was called, for the device that answered. */
  lemma AnswerSucceeds(s: State, k: Handle, c: CallId, device: Device)
    requires AnswersPending(s) && k in s.answering && s.answering[k] == Answering(c, device)
    ensures var r, number := Apply(s, AnswerReturns(k, true)), s.pending[c].to;
            && c !in r.pending && OthersPending(s, r, c) && r.timers == s.timers
            && r.active == s.active[number := c]
            && r.answering == s.answering - {k} && r.declining == s.declining
            && r.log == s.log + [Answered(c, device), Cancelled(c, AnsweredElsewhere), ActiveStarted(number, c)]
  {
  }

  /** The provider refused: the call rings again with a full timeout, and only the caller of answerCall is told. */
  lemma AnswerFails(s: State, k: Handle, c: CallId, device: Device)
    requires Inv(s) && AnswersPending(s) && k in s.answering && s.answering[k] == Answering(c, device)
    ensures var r := Apply(s, AnswerReturns(k, false));
            && StillPending(s, r, c, false) && OthersPending(s, r, c) && RingsAnew(s, r, c) && r.active == s.active
            && r.answering == s.answering - {k} && r.declining == s.declining
            && r.log == s.log + [Rejected(c, device)]
  {
    assert Fresh(s) !in s.timers;
  }

  lemma FirstDeclineHangsUp(s: State, c: CallId)
    requires Inv(s) && AnswersPending(s) && Open(s, c)
    ensures var r := Apply(s, Decline(c));
            && StillPending(s, r, c, true) && OthersPending(s, r, c) && RingsNoMore(s, r, c)
            && r.active == s.active && r.log == s.log + [ProviderHangup(c)] && r.answering == s.answering
            && exists k :: k !in s.declining && r.declining == s.declining[k := c]
  {
    ResolveStopsRinging(s, c);
    assert Fresh(s) !in s.declining;
    assert Apply(s, Decline(c)).declining == s.declining[Fresh(s) := c];
  }

  lemma LateDeclineIsIgnored(s: State, c: CallId)
    requires AnswersPending(s) && !Open(s, c)
    ensures Apply(s, Decline(c)) == s
  {
  }

  lemma DeclineEnds(s: State, k: Handle, c: CallId)
    requires AnswersPending(s) && k in s.declining && s.declining[k] == c
    ensures var r := Apply(s, DeclineReturns(k));
            && c !in r.pending && OthersPending(s, r, c) && r.timers == s.timers && r.active == s.active
            && r.declining == s.declining - {k} && r.answering == s.answering
            && r.log == s.log + [StopRinging(c), Cancelled(c, Declined), RecordedDeclined(c)]
  {
  }

  /** c is gone from the pending calls and rings no more; nothing else but the log has changed. */
  ghost predicate Leaves(s: State, r: State, c: CallId) {
    && c !in r.pending && OthersPending(s, r, c) && RingsNoMore(s, r, c) && r.active == s.active && SameDeciding(s, r)
  }

  lemma MissLeaves(s: State, c: CallId, reason: Reason)
    requires Inv(s) && Open(s, c)
    ensures var r := Miss(s, c, reason);
            && Leaves(s, r, c)
            && r.log == s.log + HangupFor(c, reason) + [StopRinging(c), Cancelled(c, reason), RecordedMissed(c)]
  {
    ResolveStopsRinging(s, c);
  }

  /** A caller who hangs up first leaves a missed call; the provider needs no hang-up. */
  lemma CallerGivesUp(s: State, c: CallId, e: Event)
    requires Inv(s) && AnswersPending(s) && Open(s, c) && Enabled(s, e)
    requires e == CallerGone(c) || (e.CallEnds? && e.call == c)
    ensures Leaves(s, Apply(s, e), c)
    ensures Apply(s, e).log == s.log + [StopRinging(c), Cancelled(c, CallerDisconnect), RecordedMissed(c)]
  {
    MissLeaves(s, c, CallerDisconnect);
    assert s.log + [] == s.log;
  }

  /** While an answer or a decline is waiting, the caller's hang-up changes nothing; nor does it for an unknown call. */
  lemma DecidedCallStays(s: State, c: CallId, e: Event)
    requires AnswersPending(s) && Enabled(s, e) && !Open(s, c)
    requires e == CallerGone(c) || (e.CallEnds? && e.call == c && (c in s.pending || e.number == None))
    ensures Apply(s, e) == s
  {
  }

  /** A ring timer finds its call open, has the provider hang up, and leaves a missed call. */
  lemma RingingRunsOut(s: State, t: Handle)
    requires Inv(s) && AnswersPending(s) && t in s.timers
    ensures var r, c := Apply(s, RingTimeout(t)), s.timers[t];
            && Open(s, c) && Leaves(s, r, c)
            && r.log == s.log + [ProviderHangup(c), StopRinging(c), Cancelled(c, TimedOut), RecordedMissed(c)]
  {
    var c := s.timers[t];
    TimeoutIsMiss(s, t);
    MissLeaves(s, c, TimedOut);
  }

  lemma ActiveCallEnds(s: State, c: CallId, number: string)
    requires AnswersPending(s) && Enabled(s, CallEnds(c, Some(number))) && c !in s.pending
    ensures Apply(s, CallEnds(c, Some(number))) ==
            s.(active := s.active - {number}, log := s.log + [ActiveEnded(number)])
  {
  }

  // ---------------------------------------------------------------- records against announcements

  /** Missed and declined records and stopped rings are as many as the outcomes announced for them. */
  ghost predicate RecordsMatch(log: seq<Effect>, c: CallId) {
    var said := multiset(log);
    && said[RecordedDeclined(c)] == said[Cancelled(c, Declined)]
    && said[RecordedMissed(c)] == said[Cancelled(c, TimedOut)] + said[Cancelled(c, CallerDisconnect)]
    && said[StopRinging(c)] == said[RecordedMissed(c)] + said[RecordedDeclined(c)]
  }

  lemma MatchesTogether(log: seq<Effect>, more: seq<Effect>, c: CallId)
    requires RecordsMatch(log, c) && RecordsMatch(more, c)
    ensures RecordsMatch(log + more, c)
  {
    assert multiset(log + more) == multiset(log) + multiset(more);
  }

  ghost predicate AllMatch(more: seq<Effect>) { forall c :: RecordsMatch(more, c) }

  lemma NothingToRecord(more: seq<Effect>)
    requires forall e <- more :: !e.RecordedMissed? && !e.RecordedDeclined? && !e.StopRinging?
                                 && (e.Cancelled? ==> e.reason.AnsweredElsewhere?)
    ensures AllMatch(more)
  {
    forall c ensures RecordsMatch(more, c) {
      assert RecordedMissed(c) !in more && RecordedDeclined(c) !in more && StopRinging(c) !in more;
      assert Cancelled(c, Declined) !in more && Cancelled(c, TimedOut) !in more;
      assert Cancelled(c, CallerDisconnect) !in more;
    }
  }

  lemma MissedMatch(c: CallId, reason: Reason, a: CallId)
    requires reason.TimedOut? || reason.CallerDisconnect?
    ensures RecordsMatch([StopRinging(c), Cancelled(c, reason), RecordedMissed(c)], a)
  {
  }

  lemma DeclinedMatch(c: CallId, a: CallId)
    ensures RecordsMatch([StopRinging(c), Cancelled(c, Declined), RecordedDeclined(c)], a)
  {
  }

  // ---------------------------------------------------------------- the active calls over a run

  /** Who is on a number according to the announcements. */
  function OnNumber(log: seq<Effect>, number: string): Option<CallId> {
    if log == [] then None
    else
      match log[|log| - 1]
      case ActiveStarted(n, c) => if n == number then Some(c) else OnNumber(log[..|log| - 1], number)
      case ActiveEnded(n) => if n == number then None else OnNumber(log[..|log| - 1], number)
      case _ => OnNumber(log[..|log| - 1], number)
  }

  /** The announcements tell exactly the map of active calls. */
  ghost predicate ActiveTold(s: State, number: string) {
    OnNumber(s.log, number) == if number in s.active then Some(s.active[number]) else None
  }

  lemma {:induction false} OnNumberThen(log: seq<Effect>, e: Effect, number: string)
    ensures OnNumber(log + [e], number) ==
            match e
            case ActiveStarted(n, c) => if n == number then Some(c) else OnNumber(log, number)
            case ActiveEnded(n) => if n == number then None else OnNumber(log, number)
            case _ => OnNumber(log, number)
  {
    assert (log + [e])[..|log|] == log;
  }

  predicate NamesNoNumber(more: seq<Effect>) { forall e <- more :: !e.ActiveStarted? && !e.ActiveEnded? }

  lemma {:induction false} OnNumberSilent(log: seq<Effect>, more: seq<Effect>, number: string)
    requires NamesNoNumber(more)
    ensures OnNumber(log + more, number) == OnNumber(log, number)
  {
    if more == [] {
      assert log + more == log;
    } else {
      OnNumberSilent(log, more[..|more| - 1], number);
      assert log + more == (log + more[..|more| - 1]) + [more[|more| - 1]];
      OnNumberThen(log + more[..|more| - 1], more[|more| - 1], number);
    }
  }

  predicate Starts(e: Event) { e.AnswerReturns? && e.success }

  lemma MissSays(s: State, c: CallId, reason: Reason) returns (more: seq<Effect>)
    requires reason.TimedOut? || reason.CallerDisconnect?
    ensures Miss(s, c, reason).log == s.log + more && Miss(s, c, reason).active == s.active
    ensures NamesNoNumber(more) && AllMatch(more)
  {
    if Open(s, c) {
      more := HangupFor(c, reason) + [StopRinging(c), Cancelled(c, reason), RecordedMissed(c)];
      forall a ensures RecordsMatch(more, a) {
        NothingToRecord(HangupFor(c, reason));
        MissedMatch(c, reason, a);
        MatchesTogether(HangupFor(c, reason), [StopRinging(c), Cancelled(c, reason), RecordedMissed(c)], a);
      }
    } else {
      more := [];
      NothingToRecord(more);
    }
  }

  lemma DeclineSays(s: State, k: Handle) returns (more: seq<Effect>)
    requires k in s.declining
    ensures FinishDecline(s, k).log == s.log + more && FinishDecline(s, k).active == s.active
    ensures NamesNoNumber(more) && AllMatch(more)
  {
    var c := s.declining[k];
    more := [StopRinging(c), Cancelled(c, Declined), RecordedDeclined(c)];
    forall a ensures RecordsMatch(more, a) { DeclinedMatch(c, a); }
  }

  /** What one event adds to the log names a number only when a call starts or ends, and records what it announces. */
  lemma StepSays(s: State, e: Event) returns (more: seq<Effect>)
    requires AnswersPending(s) && Enabled(s, e) && !Starts(e) && !e.CallEnds?
    ensures Apply(s, e).log == s.log + more && Apply(s, e).active == s.active
    ensures NamesNoNumber(more) && AllMatch(more)
  {
    match e
    case CallComesIn(c, _, _) =>
      more := if c in s.pending then [] else [Incoming(c)];
      NothingToRecord(more);
    case Answer(c, device) =>
      more := if Open(s, c) then [] else [Rejected(c, device)];
      NothingToRecord(more);
    case AnswerReturns(k, _) =>
      more := [Rejected(s.answering[k].call, s.answering[k].device)];
      NothingToRecord(more);
    case Decline(c) =>
      more := if Open(s, c) then [ProviderHangup(c)] else [];
      NothingToRecord(more);
    case DeclineReturns(k) => more := DeclineSays(s, k);
    case CallerGone(c) => more := MissSays(s, c, CallerDisconnect);
    case RingTimeout(t) => more := MissSays(s.(timers := s.timers - {t}), s.timers[t], TimedOut);
  }

  lemma StartTells(s: State, k: Handle, number: string)
    requires AnswersPending(s) && k in s.answering && ActiveTold(s, number)
    ensures ActiveTold(Apply(s, AnswerReturns(k, true)), number)
  {
    var c, device := s.answering[k].call, s.answering[k].device;
    AnswerSucceeds(s, k, c, device);
    var mid := s.log + [Answered(c, device), Cancelled(c, AnsweredElsewhere)];
    OnNumberSilent(s.log, [Answered(c, device), Cancelled(c, AnsweredElsewhere)], number);
    OnNumberThen(mid, ActiveStarted(s.pending[c].to, c), number);
    assert Apply(s, AnswerReturns(k, true)).log == mid + [ActiveStarted(s.pending[c].to, c)];
  }

  lemma EndTells(s: State, c: CallId, ended: Option<string>, number: string)
    requires AnswersPending(s) && Enabled(s, CallEnds(c, ended)) && ActiveTold(s, number)
    ensures ActiveTold(Apply(s, CallEnds(c, ended)), number)
  {
    if c in s.pending {
      var more := MissSays(s, c, CallerDisconnect);
      OnNumberSilent(s.log, more, number);
    } else if ended.Some? {
      OnNumberThen(s.log, ActiveEnded(ended.value), number);
    }
  }

  /** Over every run: who is on a number is who was last announced there and not announced to have left. */
  lemma {:induction false} ActiveExactly(events: seq<Event>, s: State, number: string)
    requires Reaches(events, s)
    ensures OnNumber(s.log, number) == if number in s.active then Some(s.active[number]) else None
  {
    if events != [] {
      var before, e := events[..|events| - 1], events[|events| - 1];
      var r :| Reaches(before, r) && AnswersPending(r) && Enabled(r, e) && s == Apply(r, e);
      ActiveExactly(before, r, number);
      if Starts(e) {
        StartTells(r, e.answer, number);
      } else if e.CallEnds? {
        EndTells(r, e.call, e.number, number);
      } else {
        var more := StepSays(r, e);
        OnNumberSilent(r.log, more, number);
      }
    }
  }

  // ---------------------------------------------------------------- records over a run

  lemma StartSays(s: State, k: Handle) returns (more: seq<Effect>)
    requires AnswersPending(s) && k in s.answering
    ensures Apply(s, AnswerReturns(k, true)).log == s.log + more && AllMatch(more)
  {
    var c, device := s.answering[k].call, s.answering[k].device;
    more := [Answered(c, device), Cancelled(c, AnsweredElsewhere), ActiveStarted(s.pending[c].to, c)];
    NothingToRecord(more);
  }

  lemma EndSays(s: State, c: CallId, number: Option<string>) returns (more: seq<Effect>)
    requires AnswersPending(s) && Enabled(s, CallEnds(c, number))
    ensures Apply(s, CallEnds(c, number)).log == s.log + more && AllMatch(more)
  {
    if c in s.pending {
      more := MissSays(s, c, CallerDisconnect);
    } else {
      more := if number.Some? then [ActiveEnded(number.value)] else [];
      NothingToRecord(more);
    }
  }

  lemma StepRecords(s: State, e: Event, c: CallId)
    requires AnswersPending(s) && Enabled(s, e) && RecordsMatch(s.log, c)
    ensures RecordsMatch(Apply(s, e).log, c)
  {
    var more;
    if Starts(e) {
      more := StartSays(s, e.answer);
    } else if e.CallEnds? {
      more := EndSays(s, e.call, e.number);
    } else {
      more := StepSays(s, e);
    }
    MatchesTogether(s.log, more, c);
  }

  /** Over every run a declined call is recorded as declined and a missed one as missed, each as often as announced. */
  lemma {:induction false} RecordsExactly(events: seq<Event>, s: State, c: CallId)
    requires Reaches(events, s)
    ensures RecordsMatch(s.log, c)
  {
    if events != [] {
      var before, e := events[..|events| - 1], events[|events| - 1];
      var r :| Reaches(before, r) && AnswersPending(r) && Enabled(r, e) && s == Apply(r, e);
      RecordsExactly(before, r, c);
      ReachableInv(before, r);
      StepRecords(r, e, c);
    }
  }

  // ---------------------------------------------------------------- who asked for it

  ghost predicate CameIn(events: seq<Event>, c: CallId, to: string) {
    exists from :: CallComesIn(c, from, to) in events
  }

  /** Devices answered, and calls became active on a number, because events said so. */
  ghost predicate Sourced(events: seq<Event>, s: State) {
    && (forall c <- s.pending :: CameIn(events, c, s.pending[c].to))
    && (forall k <- s.answering :: Answer(s.answering[k].call, s.answering[k].device) in events)
    && (forall c, device :: Answered(c, device) in s.log ==> Answer(c, device) in events)
    && (forall c, number :: ActiveStarted(number, c) in s.log ==> CameIn(events, c, number))
  }

  lemma SourcedLater(events: seq<Event>, s: State, e: Event)
    requires Sourced(events, s)
    ensures Sourced(events + [e], s)
  {
    forall c, to | CameIn(events, c, to) ensures CameIn(events + [e], c, to) {
      var from :| CallComesIn(c, from, to) in events;
      assert CallComesIn(c, from, to) in events + [e];
    }
  }

  lemma ComeInSourced(events: seq<Event>, s: State, c: CallId, from: string, to: string)
    requires Sourced(events, s) && CallComesIn(c, from, to) in events
    ensures Sourced(events, ComeIn(s, c, from, to))
  {
    assert CameIn(events, c, to);
  }

  /** Steps that announce neither answers nor starts, and put in no new call or answer. */
  lemma SameSources(events: seq<Event>, s: State, r: State)
    requires Sourced(events, s)
    requires forall c <- r.pending :: c in s.pending && r.pending[c].to == s.pending[c].to
    requires forall k <- r.answering :: k in s.answering && r.answering[k] == s.answering[k]
    requires forall e <- r.log :: e.Answered? || e.ActiveStarted? ==> e in s.log
    ensures Sourced(events, r)
  {
  }

  lemma AnswerSourced(events: seq<Event>, s: State, c: CallId, device: Device)
    requires Sourced(events, s) && Answer(c, device) in events
    ensures Sourced(events, BeginAnswer(s, c, device))
  {
    var r := BeginAnswer(s, c, device);
    SameSources(events, s, r.(answering := s.answering));
  }

  lemma DeclineSourced(events: seq<Event>, s: State, c: CallId)
    requires Sourced(events, s)
    ensures Sourced(events, BeginDecline(s, c))
  {
    SameSources(events, s, BeginDecline(s, c));
  }

  lemma FinishSourced(events: seq<Event>, s: State, k: Handle, success: bool)
    requires Sourced(events, s) && k in s.answering && s.answering[k].call in s.pending
    ensures Sourced(events, FinishAnswer(s, k, success))
  {
    var c := s.answering[k].call;
    assert CameIn(events, c, s.pending[c].to);
  }

  lemma MissSourced(events: seq<Event>, s: State, c: CallId, reason: Reason)
    requires Sourced(events, s)
    ensures Sourced(events, Miss(s, c, reason))
  {
    SameSources(events, s, Miss(s, c, reason));
  }

  lemma StepSourced(events: seq<Event>, s: State, e: Event)
    requires AnswersPending(s) && Enabled(s, e) && Sourced(events, s) && e in events
    ensures Sourced(events, Apply(s, e))
  {
    match e
    case CallComesIn(c, from, to) => ComeInSourced(events, s, c, from, to);
    case Answer(c, device) => AnswerSourced(events, s, c, device);
    case AnswerReturns(k, success) => FinishSourced(events, s, k, success);
    case Decline(c) => DeclineSourced(events, s, c);
    case DeclineReturns(k) => SameSources(events, s, FinishDecline(s, k));
    case CallerGone(c) => MissSourced(events, s, c, CallerDisconnect);
    case CallEnds(c, number) =>
      if c in s.pending { MissSourced(events, s, c, CallerDisconnect); }
      else { SameSources(events, s, EndActive(s, number)); }
    case RingTimeout(t) => MissSourced(events, s.(timers := s.timers - {t}), s.timers[t], TimedOut);
  }

  /** A device is announced as answering only if it answered, a call as active only on the number it came in for. */
  lemma {:induction false} AnnouncedAsAsked(events: seq<Event>, s: State)
    requires Reaches(events, s)
    ensures Sourced(events, s)
  {
    if events != [] {
      var before, e := events[..|events| - 1], events[|events| - 1];
      var r :| Reaches(before, r) && AnswersPending(r) && Enabled(r, e) && s == Apply(r, e);
      AnnouncedAsAsked(before, r);
      SourcedLater(before, r, e);
      assert events == before + [e];
      StepSourced(events, r, e);
    }
  }
}
