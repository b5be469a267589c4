/**
  The web notification centre: three visible slots, a queue behind them, a dismissal
  timer per visible notification, and the ids already seen. It refines one list.
 */
module Notifications {
  import opened Basics

  const MAX_VISIBLE := 3

  datatype Note = Note(id: string, timeoutMs: int)

  /** `shown` is history: the ids in the order they came into a visible slot. */
  datatype State = State(visible: seq<Note>, queue: seq<Note>, timers: map<string, int>,
                         seen: set<string>, shown: seq<string>)

  const Init := State([], [], map[], {}, [])

  /** A notification takes a slot and its timer is armed. */
  function Show(s: State, n: Note, now: int): State {
    s.(visible := s.visible + [n], timers := s.timers[n.id := now + n.timeoutMs], shown := s.shown + [n.id])
  }

  function FillSlots(s: State, now: int): State
    decreases |s.queue|
  {
    if |s.visible| < MAX_VISIBLE && |s.queue| > 0 then
      FillSlots(Show(s.(queue := s.queue[1..]), s.queue[0], now), now)
    else s
  }

  function Push(s: State, n: Note, now: int): State {
    if n.id in s.seen then s
    else
      var s1 := s.(seen := s.seen + {n.id});
      if |s.visible| < MAX_VISIBLE then Show(s1, n, now) else s1.(queue := s.queue + [n])
  }

  function Remove(notes: seq<Note>, id: string): seq<Note> {
    if notes == [] then []
    else Remove(notes[..|notes| - 1], id) + if notes[|notes| - 1].id != id then [notes[|notes| - 1]] else []
  }

  predicate Has(notes: seq<Note>, id: string) { exists i :: 0 <= i < |notes| && notes[i].id == id }

  /** Dropping an id from both lists, before any slot is filled. */
  function Drop(s: State, id: string): State {
    s.(timers := s.timers - {id}, visible := Remove(s.visible, id), queue := Remove(s.queue, id))
  }

  /** A user's dismissal, or the notification's timer firing. */
  function Dismiss(s: State, id: string, now: int): State {
    var s1 := Drop(s, id);
    if Has(s.visible, id) then FillSlots(s1, now) else s1
  }

  // ---------------------------------------------------------------- runs

  datatype Op = DoPush(note: Note, now: int) | DoDismiss(id: string, now: int)

  function Step(s: State, op: Op): State {
    match op case DoPush(n, now) => Push(s, n, now) case DoDismiss(id, now) => Dismiss(s, id, now)
  }

  function Run(ops: seq<Op>): State {
    if ops == [] then Init else Step(Run(ops[..|ops| - 1]), ops[|ops| - 1])
  }

  /** The specification: first pushes in order, without what has been dismissed since. */
  datatype Spec = Spec(live: seq<Note>, seen: set<string>)

  function SpecStep(s: Spec, op: Op): Spec {
    match op
    case DoPush(n, _) => if n.id in s.seen then s else Spec(s.live + [n], s.seen + {n.id})
    case DoDismiss(id, _) => s.(live := Remove(s.live, id))
  }

  function SpecRun(ops: seq<Op>): Spec {
    if ops == [] then Spec([], {}) else SpecStep(SpecRun(ops[..|ops| - 1]), ops[|ops| - 1])
  }

  // ---------------------------------------------------------------- lists

  lemma {:induction false} RemoveShape(notes: seq<Note>, id: string)
    ensures forall n :: n in Remove(notes, id) <==> n in notes && n.id != id
    ensures |Remove(notes, id)| <= |notes|
    ensures !Has(notes, id) ==> Remove(notes, id) == notes
  {
    if notes != [] {
      var before, last := notes[..|notes| - 1], notes[|notes| - 1];
      RemoveShape(before, id);
      assert notes == before + [last];
      assert notes[|notes| - 1].id == id ==> Has(notes, id);
      if Has(before, id) {
        var i :| 0 <= i < |before| && before[i].id == id;
        assert notes[i].id == id;
      }
    }
  }

  lemma {:induction false} RemoveOfConcat(a: seq<Note>, b: seq<Note>, id: string)
    ensures Remove(a + b, id) == Remove(a, id) + Remove(b, id)
  {
    if b == [] {
      assert a + b == a;
    } else {
      var before, last := b[..|b| - 1], b[|b| - 1];
      var kept := if last.id != id then [last] else [];
      RemoveOfConcat(a, before, id);
      assert (a + b)[..|a + b| - 1] == a + before && (a + b)[|a + b| - 1] == last;
      assert Remove(a + b, id) == Remove(a + before, id) + kept;
      assert Remove(b, id) == Remove(before, id) + kept;
    }
  }

  ghost predicate Distinct(notes: seq<Note>) {
    forall i, j :: 0 <= i < j < |notes| ==> notes[i].id != notes[j].id
  }

  lemma DistinctAppend(notes: seq<Note>, n: Note)
    requires Distinct(notes) && !Has(notes, n.id)
    ensures Distinct(notes + [n])
  {
    var all := notes + [n];
    forall i, j | 0 <= i < j < |all| ensures all[i].id != all[j].id {
      assert i < |notes| && all[i] == notes[i];
      if j < |notes| { assert all[j] == notes[j]; }
    }
  }

  lemma HasInit(notes: seq<Note>, id: string)
    requires notes != []
    ensures Has(notes, id) <==> Has(notes[..|notes| - 1], id) || notes[|notes| - 1].id == id
  {
    var before := notes[..|notes| - 1];
    if Has(before, id) {
      var i :| 0 <= i < |before| && before[i].id == id;
      assert notes[i].id == id;
    }
    if Has(notes, id) {
      var i :| 0 <= i < |notes| && notes[i].id == id;
      assert i < |before| ==> before[i].id == id;
    }
  }

  lemma {:induction false} HasAfterRemove(notes: seq<Note>, id: string, other: string)
    ensures Has(Remove(notes, id), other) <==> Has(notes, other) && other != id
  {
    if notes != [] {
      var before, last := notes[..|notes| - 1], notes[|notes| - 1];
      HasAfterRemove(before, id, other);
      HasInit(notes, other);
      if last.id != id {
        var kept := Remove(notes, id);
        assert kept == Remove(before, id) + [last];
        assert kept[..|kept| - 1] == Remove(before, id);
        HasInit(kept, other);
      } else {
        assert Remove(notes, id) == Remove(before, id);
      }
    }
  }

  lemma DistinctInit(notes: seq<Note>)
    requires notes != [] && Distinct(notes)
    ensures Distinct(notes[..|notes| - 1]) && !Has(notes[..|notes| - 1], notes[|notes| - 1].id)
  {
    var before := notes[..|notes| - 1];
    assert forall i :: 0 <= i < |before| ==> before[i] == notes[i];
  }

  lemma {:induction false} RemoveKeepsDistinct(notes: seq<Note>, id: string)
    requires Distinct(notes)
    ensures Distinct(Remove(notes, id))
    ensures |Remove(notes, id)| == |notes| - if Has(notes, id) then 1 else 0
  {
    if notes != [] {
      var before, last := notes[..|notes| - 1], notes[|notes| - 1];
      DistinctInit(notes);
      RemoveKeepsDistinct(before, id);
      HasAfterRemove(before, id, last.id);
      HasInit(notes, id);
      if last.id != id { DistinctAppend(Remove(before, id), last); }
    }
  }

  function Ids(notes: seq<Note>): set<string> { set n | n in notes :: n.id }

  // ---------------------------------------------------------------- refinement

  /** The slots are the head of the list, the queue is the rest, and timers exist for exactly the visible ids. */
  ghost predicate Refines(s: State, live: seq<Note>) {
    && s.visible + s.queue == live && |s.visible| == Min(MAX_VISIBLE, |live|)
    && s.timers.Keys == Ids(s.visible)
    && Distinct(live)
  }

  /** Ids shown are seen, are never shown twice, and are not waiting in the queue. */
  ghost predicate ShownOnce(s: State) {
    && (forall i, j :: 0 <= i < j < |s.shown| ==> s.shown[i] != s.shown[j])
    && (forall id :: id in s.shown ==> id in s.seen)
    && (forall n :: n in s.queue ==> n.id !in s.shown)
    && (forall n :: n in s.visible + s.queue ==> n.id in s.seen)
  }

  lemma IdsAppend(notes: seq<Note>, n: Note)
    ensures Ids(notes + [n]) == Ids(notes) + {n.id}
  {
    forall id | id in Ids(notes) + {n.id} ensures id in Ids(notes + [n]) {
      if id in Ids(notes) {
        var m :| m in notes && m.id == id;
        assert m in notes + [n];
      } else {
        assert n in notes + [n];
      }
    }
  }

  lemma {:induction false} IdsRemove(notes: seq<Note>, id: string)
    ensures Ids(Remove(notes, id)) == Ids(notes) - {id}
  {
    RemoveShape(notes, id);
  }

  /** One free slot is enough: a full queue's head moves up. */
  lemma {:induction false} FillOne(s: State, now: int)
    requires |s.visible| == MAX_VISIBLE - 1 || (|s.visible| < MAX_VISIBLE && s.queue == [])
    ensures FillSlots(s, now) == if s.queue == [] then s else Show(s.(queue := s.queue[1..]), s.queue[0], now)
  {
  }

  lemma PushRefines(s: State, n: Note, now: int, live: seq<Note>)
    requires Refines(s, live) && ShownOnce(s) && n.id !in s.seen
    ensures Refines(Push(s, n, now), live + [n]) && ShownOnce(Push(s, n, now))
  {
    IdsAppend(s.visible, n);
    forall m | m in live ensures m.id != n.id {
      assert m.id in s.seen;
    }
    assert forall i :: 0 <= i < |live| ==> live[i] in live;
    assert |s.visible| < MAX_VISIBLE ==> s.queue == [];
    assert s.visible + s.queue + [n] == s.visible + (s.queue + [n]);
  }

  lemma {:induction false} DropLists(s: State, id: string, live: seq<Note>)
    requires Refines(s, live)
    ensures var r := Drop(s, id);
            && r.visible + r.queue == Remove(live, id) && Distinct(Remove(live, id))
            && r.timers.Keys == Ids(r.visible)
            && (if Has(s.visible, id) then |r.visible| == |s.visible| - 1 && r.queue == s.queue
                else r.visible == s.visible)
  {
    RemoveOfConcat(s.visible, s.queue, id);
    RemoveKeepsDistinct(live, id);
    Parts(s.visible, s.queue);
    RemoveKeepsDistinct(s.visible, id);
    RemoveShape(s.visible, id);
    IdsRemove(s.visible, id);
    if Has(s.visible, id) {
      ApartFrom(s.visible, s.queue, id);
      RemoveShape(s.queue, id);
    }
  }

  lemma DropShown(s: State, id: string)
    requires ShownOnce(s)
    ensures ShownOnce(Drop(s, id))
  {
    RemoveShape(s.visible, id);
    RemoveShape(s.queue, id);
    var r := Drop(s, id);
    forall n | n in r.visible + r.queue ensures n.id in r.seen {
      assert n in s.visible + s.queue;
    }
  }

  /** The head of the queue takes a slot. */
  lemma ShowHead(s: State, now: int)
    requires s.queue != [] && ShownOnce(s) && Distinct(s.visible + s.queue) && s.timers.Keys == Ids(s.visible)
    ensures var r := Show(s.(queue := s.queue[1..]), s.queue[0], now);
            && r.visible + r.queue == s.visible + s.queue
            && r.timers.Keys == Ids(r.visible) && ShownOnce(r)
  {
    var head := s.queue[0];
    IdsAppend(s.visible, head);
    Parts(s.visible, s.queue);
    QueueApart(s.queue);
    assert head in s.queue && head in s.visible + s.queue;
    assert s.visible + [head] + s.queue[1..] == s.visible + s.queue;
  }

  lemma {:induction false} DismissRefines(s: State, id: string, now: int, live: seq<Note>)
    requires Refines(s, live) && ShownOnce(s)
    ensures Refines(Dismiss(s, id, now), Remove(live, id)) && ShownOnce(Dismiss(s, id, now))
  {
    var r := Drop(s, id);
    DropLists(s, id, live);
    DropShown(s, id);
    if Has(s.visible, id) {
      FillOne(r, now);
      if r.queue != [] { ShowHead(r, now); }
    } else if s.queue != [] {
      assert |r.visible| == MAX_VISIBLE;
    } else {
      assert r.queue == [];
    }
  }

  lemma Parts(a: seq<Note>, b: seq<Note>)
    requires Distinct(a + b)
    ensures Distinct(a) && Distinct(b)
  {
    assert forall i :: 0 <= i < |a| ==> (a + b)[i] == a[i];
    assert forall i :: 0 <= i < |b| ==> (a + b)[|a| + i] == b[i];
  }

  lemma ApartFrom(a: seq<Note>, b: seq<Note>, id: string)
    requires Distinct(a + b) && Has(a, id)
    ensures !Has(b, id)
  {
    var i :| 0 <= i < |a| && a[i].id == id;
    assert (a + b)[i].id == id;
    assert forall j :: 0 <= j < |b| ==> (a + b)[|a| + j] == b[j];
  }

  lemma QueueApart(queue: seq<Note>)
    requires queue != [] && Distinct(queue)
    ensures forall n :: n in queue[1..] ==> n.id != queue[0].id && n in queue
  {
  }

  /**
    Whatever is pushed and dismissed: the visible notifications are the first three of
    the live list, the queue is the rest, exactly the visible ones have timers, and no id
    is shown twice.
   */
  lemma {:induction false} CentreRefinesList(ops: seq<Op>)
    ensures Refines(Run(ops), SpecRun(ops).live)
    ensures Run(ops).seen == SpecRun(ops).seen && ShownOnce(Run(ops))
  {
    if ops != [] {
      var before, op := ops[..|ops| - 1], ops[|ops| - 1];
      CentreRefinesList(before);
      var s, spec := Run(before), SpecRun(before);
      match op
      case DoPush(n, now) => if n.id !in s.seen { PushRefines(s, n, now, spec.live); }
      case DoDismiss(id, now) =>
        DismissRefines(s, id, now, spec.live);
        FillKeepsSeen(Drop(s, id), now);
    }
  }

  lemma {:induction false} FillKeepsSeen(s: State, now: int)
    ensures FillSlots(s, now).seen == s.seen
    decreases |s.queue|
  {
    if |s.visible| < MAX_VISIBLE && |s.queue| > 0 {
      FillKeepsSeen(Show(s.(queue := s.queue[1..]), s.queue[0], now), now);
    }
  }

  // ---------------------------------------------------------------- when timers are due

  function When(op: Op): int { match op case DoPush(_, now) => now case DoDismiss(_, now) => now }

  /** From one state to the next, a timer that stays is unchanged and a new one runs its full time from now. */
  ghost predicate TimersMove(s: State, r: State, now: int) {
    && (forall n :: n in r.visible ==> n.id in r.timers)
    && (forall n :: n in r.visible && n in s.visible ==> n.id in s.timers && r.timers[n.id] == s.timers[n.id])
    && (forall n :: n in r.visible && n !in s.visible ==> r.timers[n.id] == now + n.timeoutMs)
  }

  lemma ShowMovesTimers(s: State, n: Note, now: int)
    requires s.timers.Keys == Ids(s.visible) && n.id !in s.timers
    ensures TimersMove(s, Show(s, n, now), now)
  {
    forall m | m in s.visible ensures m.id in s.timers && m.id != n.id {
      assert m.id in Ids(s.visible);
    }
    assert n !in s.visible;
  }

  lemma DropMovesTimers(s: State, id: string, now: int)
    requires s.timers.Keys == Ids(s.visible)
    ensures TimersMove(s, Drop(s, id), now)
    ensures forall n :: n in Drop(s, id).visible <==> n in s.visible && n.id != id
  {
    RemoveShape(s.visible, id);
    forall n | n in s.visible ensures n.id in s.timers {
      assert n.id in Ids(s.visible);
    }
  }

  /** Dropping and then showing the head of the queue. */
  lemma DropShowMovesTimers(s: State, id: string, now: int, live: seq<Note>)
    requires Refines(s, live) && Has(s.visible, id) && s.queue != []
    ensures var d := Drop(s, id);
            d.queue == s.queue && TimersMove(s, Show(d.(queue := d.queue[1..]), d.queue[0], now), now)
  {
    var d := Drop(s, id);
    DropLists(s, id, live);
    DropMovesTimers(s, id, now);
    var head := s.queue[0];
    HeadIsNew(s.visible, s.queue);
    ShowMovesTimers(d, head, now);
    assert head !in s.visible;
  }

  lemma HeadIsNew(visible: seq<Note>, queue: seq<Note>)
    requires queue != [] && Distinct(visible + queue)
    ensures queue[0].id !in Ids(visible)
  {
    var all := visible + queue;
    assert all[|visible|] == queue[0];
    forall n | n in visible ensures n.id != queue[0].id {
      var i :| 0 <= i < |visible| && visible[i] == n;
      assert all[i] == n;
    }
  }

  lemma {:induction false} StepMovesTimers(s: State, op: Op, live: seq<Note>)
    requires Refines(s, live) && ShownOnce(s)
    ensures TimersMove(s, Step(s, op), When(op))
  {
    forall m | m in s.visible ensures m.id in s.timers && m in s.visible + s.queue {
      assert m.id in Ids(s.visible);
    }
    match op
    case DoPush(n, now) =>
      if n.id !in s.seen && |s.visible| < MAX_VISIBLE { ShowMovesTimers(s.(seen := s.seen + {n.id}), n, now); }
    case DoDismiss(id, now) =>
      DropLists(s, id, live);
      if Has(s.visible, id) && s.queue != [] {
        FillOne(Drop(s, id), now);
        DropShowMovesTimers(s, id, now, live);
      } else {
        if Has(s.visible, id) { FillOne(Drop(s, id), now); }
        DropMovesTimers(s, id, now);
      }
  }

  /** n came into a slot with the i-th operation and has stayed there since. */
  ghost predicate VisibleSince(ops: seq<Op>, n: Note, i: int) {
    && 0 <= i < |ops| && n !in Run(ops[..i]).visible
    && forall j :: i < j <= |ops| ==> n in Run(ops[..j]).visible
  }

  lemma {:induction false} StaysSince(ops: seq<Op>, n: Note, i: int)
    requires ops != [] && VisibleSince(ops[..|ops| - 1], n, i) && n in Run(ops).visible
    ensures VisibleSince(ops, n, i)
  {
    var before := ops[..|ops| - 1];
    assert before[..i] == ops[..i];
    forall j | i < j <= |ops| ensures n in Run(ops[..j]).visible {
      if j == |ops| { assert ops[..j] == ops; } else { assert before[..j] == ops[..j]; }
    }
  }

  lemma {:induction false} StartsWith(ops: seq<Op>, n: Note)
    requires ops != [] && n !in Run(ops[..|ops| - 1]).visible && n in Run(ops).visible
    ensures VisibleSince(ops, n, |ops| - 1)
  {
    assert ops[..|ops|] == ops;
  }

  lemma {:induction false} LastStep(ops: seq<Op>, n: Note)
    requires ops != [] && n in Run(ops).visible
    ensures var before, last := Run(ops[..|ops| - 1]), ops[|ops| - 1];
            && n.id in Run(ops).timers
            && if n in before.visible
               then n.id in before.timers && Run(ops).timers[n.id] == before.timers[n.id]
               else Run(ops).timers[n.id] == When(last) + n.timeoutMs
  {
    CentreRefinesList(ops[..|ops| - 1]);
    StepMovesTimers(Run(ops[..|ops| - 1]), ops[|ops| - 1], SpecRun(ops[..|ops| - 1]).live);
  }

  /** Over every run, a visible notification's timer is due its timeout after the operation that made it visible. */
  lemma {:induction false} TimerDueExactly(ops: seq<Op>, n: Note)
    requires n in Run(ops).visible
    ensures n.id in Run(ops).timers
    ensures exists i :: VisibleSince(ops, n, i) && Run(ops).timers[n.id] == When(ops[i]) + n.timeoutMs
  {
    var before := ops[..|ops| - 1];
    LastStep(ops, n);
    if n in Run(before).visible {
      TimerDueExactly(before, n);
      var i :| VisibleSince(before, n, i) && Run(before).timers[n.id] == When(before[i]) + n.timeoutMs;
      StaysSince(ops, n, i);
      assert ops[i] == before[i];
    } else {
      StartsWith(ops, n);
    }
  }

  // ---------------------------------------------------------------- what has been shown

  ghost predicate ShownAt(ops: seq<Op>, id: string, i: int) { 0 <= i <= |ops| && Has(Run(ops[..i]).visible, id) }

  lemma {:induction false} HasExactly(notes: seq<Note>, id: string)
    ensures Has(notes, id) <==> exists n :: n in notes && n.id == id
  {
  }

  /** The slots after an operation: what was shown before and no more, or what has just been shown. */
  ghost predicate ShowsMore(s: State, r: State) {
    && (forall id :: id in r.shown <==> id in s.shown || Has(r.visible, id))
    && (forall n <- r.visible :: n.id in r.shown)
  }

  ghost predicate AllShown(s: State) { forall n <- s.visible :: n.id in s.shown }

  lemma ShowShowsMore(s: State, n: Note, now: int)
    requires AllShown(s)
    ensures ShowsMore(s, Show(s, n, now))
  {
    var r := Show(s, n, now);
    forall id ensures Has(r.visible, id) <==> Has(s.visible, id) || id == n.id {
      HasExactly(r.visible, id);
      HasExactly(s.visible, id);
      assert n in r.visible;
    }
    forall id ensures Has(s.visible, id) ==> id in s.shown {
      HasExactly(s.visible, id);
    }
  }

  lemma SameSlotsShowMore(s: State, r: State)
    requires AllShown(s) && r.shown == s.shown && forall n <- r.visible :: n in s.visible
    ensures ShowsMore(s, r)
  {
    forall id ensures Has(r.visible, id) ==> id in s.shown {
      HasExactly(r.visible, id);
    }
  }

  lemma {:induction false} StepShowsMore(s: State, op: Op, live: seq<Note>)
    requires Refines(s, live) && AllShown(s)
    ensures ShowsMore(s, Step(s, op))
  {
    match op
    case DoPush(n, now) =>
      if n.id !in s.seen && |s.visible| < MAX_VISIBLE { ShowShowsMore(s.(seen := s.seen + {n.id}), n, now); }
      else { SameSlotsShowMore(s, Step(s, op)); }
    case DoDismiss(id, now) =>
      var d := Drop(s, id);
      DropLists(s, id, live);
      RemoveShape(s.visible, id);
      if Has(s.visible, id) { FillOne(d, now); }
      if Has(s.visible, id) && d.queue != [] {
        ShowShowsMore(d.(queue := d.queue[1..]), d.queue[0], now);
      } else {
        SameSlotsShowMore(s, Step(s, op));
      }
  }

  /** Over every run the ids shown are exactly those that have had a slot. */
  lemma {:induction false} ShownExactly(ops: seq<Op>, id: string)
    ensures id in Run(ops).shown <==> exists i :: ShownAt(ops, id, i)
    ensures AllShown(Run(ops))
  {
    if ops == [] {
      assert forall i :: !ShownAt([], id, i);
    } else {
      var before := ops[..|ops| - 1];
      ShownExactly(before, id);
      CentreRefinesList(before);
      StepShowsMore(Run(before), ops[|ops| - 1], SpecRun(before).live);
      ShownSometime(ops, id);
    }
  }

  lemma {:induction false} ShownSometime(ops: seq<Op>, id: string)
    requires ops != []
    ensures (exists i :: ShownAt(ops, id, i)) <==>
            var before := ops[..|ops| - 1];
            Has(Run(ops).visible, id) || exists i :: ShownAt(before, id, i)
  {
    var before := ops[..|ops| - 1];
    assert ops[..|ops|] == ops;
    forall i | 0 <= i <= |before| ensures ShownAt(ops, id, i) <==> ShownAt(before, id, i) {
      assert ops[..i] == before[..i];
    }
    if Has(Run(ops).visible, id) { assert ShownAt(ops, id, |ops|); }
  }
}
