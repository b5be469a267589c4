/** The notification centre as it runs: module-level lists, timers and ids changed by every operation. */
module NotificationCenter {
  import opened Basics
  import opened Notifications

  class Center {
    var visible: seq<Note>
    var queue: seq<Note>
    var timers: map<string, int>
    var seen: set<string>
    ghost var shown: seq<string>

    ghost function View(): State
      reads this
    {
      State(visible, queue, timers, seen, shown)
    }

    constructor ()
      ensures View() == Init
    {
      visible, queue, timers, seen, shown := [], [], map[], {}, [];
    }

    method ClearTimer(id: string)
      modifies this`timers
      ensures timers == old(timers) - {id}
    {
      if id in timers { timers := timers - {id}; }
    }

    method ArmTimer(n: Note, now: int)
      modifies this`timers
      ensures timers == old(timers)[n.id := now + n.timeoutMs]
    {
      ClearTimer(n.id);
      timers := timers[n.id := now + n.timeoutMs];
    }

    method Take(n: Note, now: int)
      modifies this`visible, this`timers, this`shown
      ensures View() == Show(old(View()), n, now)
    {
      visible := visible + [n];
      shown := shown + [n.id];
      ArmTimer(n, now);
    }

    method FillFreeSlots(now: int)
      modifies this
      ensures View() == FillSlots(old(View()), now)
    {
      while |visible| < MAX_VISIBLE && |queue| > 0
        invariant FillSlots(View(), now) == FillSlots(old(View()), now)
        decreases |queue|
      {
        var next := queue[0];
        queue := queue[1..];
        Take(next, now);
      }
    }

    method PushNotification(n: Note, now: int)
      modifies this
      ensures View() == Step(old(View()), DoPush(n, now))
    {
      if n.id in seen { return; }
      seen := seen + {n.id};
      if |visible| < MAX_VISIBLE {
        Take(n, now);
      } else {
        queue := queue + [n];
      }
    }

    method FilterOut(notes: seq<Note>, id: string) returns (kept: seq<Note>)
      ensures kept == Remove(notes, id)
    {
      kept := [];
      for i := 0 to |notes|
        invariant kept == Remove(notes[..i], id)
      {
        assert notes[..i + 1][..i] == notes[..i];
        if notes[i].id != id { kept := kept + [notes[i]]; }
      }
      assert notes[..|notes|] == notes;
    }

    /** Also what a notification's timer runs when it fires. */
    method DismissNotification(id: string, now: int)
      modifies this
      ensures View() == Step(old(View()), DoDismiss(id, now))
    {
      ClearTimer(id);
      var wasVisible := Has(visible, id);
      visible := FilterOut(visible, id);
      queue := FilterOut(queue, id);
      if wasVisible { FillFreeSlots(now); }
    }
  }
}
