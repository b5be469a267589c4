/** The call router as it runs: handlers that change the pending and active maps, the flags and the timers in place. */
module CallRouter {
  import opened Basics
  import opened RouterModel

  class Router {
    var pendingCalls: map<CallId, Pending>
    var activeCalls: map<string, CallId>
    var timers: map<Handle, CallId>
    var nextHandle: int
    var answering: map<Handle, Answering>
    var declining: map<Handle, CallId>
    var log: seq<Effect>

    function View(): State
      reads this
    {
      State(pendingCalls, activeCalls, timers, nextHandle, answering, declining, log)
    }

    constructor ()
      ensures View() == Init
    {
      pendingCalls, activeCalls, timers, nextHandle := map[], map[], map[], 0;
      answering, declining, log := map[], map[], [];
    }

    method ArmRingTimer(c: CallId)
      requires c in pendingCalls
      modifies this`timers, this`nextHandle, this`pendingCalls
      ensures timers == old(timers)[Handle(old(nextHandle)) := c] && nextHandle == old(nextHandle) + 1
      ensures pendingCalls == old(pendingCalls)[c := old(pendingCalls)[c].(timer := Some(Handle(old(nextHandle))))]
    {
      timers := timers[Handle(nextHandle) := c];
      pendingCalls := pendingCalls[c := pendingCalls[c].(timer := Some(Handle(nextHandle)))];
      nextHandle := nextHandle + 1;
    }

    method MarkResolved(c: CallId)
      requires c in pendingCalls
      modifies this`timers, this`pendingCalls
      ensures View() == Resolve(old(View()), c)
    {
      pendingCalls := pendingCalls[c := pendingCalls[c].(resolved := true)];
      if pendingCalls[c].timer.Some? {
        timers := timers - {pendingCalls[c].timer.value};
        pendingCalls := pendingCalls[c := pendingCalls[c].(timer := None)];
      }
    }

    method HandleIncomingCall(c: CallId, from: string, to: string)
      modifies this
      ensures View() == ComeIn(old(View()), c, from, to)
    {
      if c in pendingCalls { return; }
      pendingCalls := pendingCalls[c := Pending(from, to, false, None)];
      log := log + [Incoming(c)];
      ArmRingTimer(c);
    }

    method AnswerCall(c: CallId, device: Device)
      modifies this
      ensures View() == BeginAnswer(old(View()), c, device)
    {
      if c !in pendingCalls || pendingCalls[c].resolved {
        log := log + [Rejected(c, device)];
        return;
      }
      MarkResolved(c);
      answering := answering[Handle(nextHandle) := Answering(c, device)];
      nextHandle := nextHandle + 1;
    }

    method AnswerReturned(k: Handle, success: bool)
      requires k in answering && answering[k].call in pendingCalls
      modifies this
      ensures View() == FinishAnswer(old(View()), k, success)
    {
      var c, device := answering[k].call, answering[k].device;
      answering := answering - {k};
      if !success {
        pendingCalls := pendingCalls[c := pendingCalls[c].(resolved := false)];
        ArmRingTimer(c);
        log := log + [Rejected(c, device)];
        return;
      }
      var to := pendingCalls[c].to;
      activeCalls := activeCalls[to := c];
      log := log + [Answered(c, device), Cancelled(c, AnsweredElsewhere), ActiveStarted(to, c)];
      pendingCalls := pendingCalls - {c};
    }

    method DeclineCall(c: CallId)
      modifies this
      ensures View() == BeginDecline(old(View()), c)
    {
      if c !in pendingCalls || pendingCalls[c].resolved { return; }
      MarkResolved(c);
      log := log + [ProviderHangup(c)];
      declining := declining[Handle(nextHandle) := c];
      nextHandle := nextHandle + 1;
    }

    method DeclineReturned(k: Handle)
      requires k in declining
      modifies this
      ensures View() == FinishDecline(old(View()), k)
    {
      var c := declining[k];
      declining := declining - {k};
      log := log + [StopRinging(c), Cancelled(c, Declined), RecordedDeclined(c)];
      pendingCalls := pendingCalls - {c};
    }

    /** handleCallerDisconnect and handleTimeout: the same steps with their own reason. */
    method MissCall(c: CallId, reason: Reason)
      modifies this
      ensures View() == Miss(old(View()), c, reason)
    {
      if c !in pendingCalls || pendingCalls[c].resolved { return; }
      MarkResolved(c);
      if reason.TimedOut? { log := log + [ProviderHangup(c)]; }
      log := log + [StopRinging(c), Cancelled(c, reason), RecordedMissed(c)];
      pendingCalls := pendingCalls - {c};
    }

    method OnRingTimeout(t: Handle)
      requires t in timers
      modifies this
      ensures View() == Miss(old(View()).(timers := old(timers) - {t}), old(timers)[t], TimedOut)
    {
      var c := timers[t];
      timers := timers - {t};
      MissCall(c, TimedOut);
    }
  }
}
