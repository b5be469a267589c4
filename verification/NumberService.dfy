/**
  The number service as it runs: loops over the palette and the listing that update counts,
  lists and rows in place.
 */
module NumberService {
  import opened Basics
  import opened NumberColors

  /** Entries per palette colour. */
  method CountPaletteColors(colors: seq<int>) returns (counts: map<int, nat>)
    ensures forall c: int :: InPalette(c) ==> c in counts && counts[c] == Count(colors, c)
  {
    counts := map[];
    for c := 0 to PALETTE_SIZE
      invariant forall d: int :: 0 <= d < c ==> d in counts && counts[d] == 0
      invariant forall d: int :: d in counts ==> InPalette(d)
    {
      counts := counts[c := 0];
    }
    for i := 0 to |colors|
      invariant forall d: int :: InPalette(d) <==> d in counts
      invariant forall d: int :: InPalette(d) ==> counts[d] == Count(colors[..i], d)
    {
      assert colors[..i + 1] == colors[..i] + [colors[i]];
      if colors[i] in counts { counts := counts[colors[i] := counts[colors[i]] + 1]; }
    }
    assert colors[..|colors|] == colors;
  }

  lemma CountIsHeld(colors: seq<int>, c: int)
    ensures Count(colors, c) == 0 <==> c !in colors
  {
  }

  /** The palette loops of chooseColor. */
  method Choose(existing: Option<int>, active: seq<int>, inactive: seq<int>) returns (choice: Choice)
    ensures choice == ChooseColor(existing, active, inactive)
  {
    var activeCounts := CountPaletteColors(active);
    var inactiveCounts := CountPaletteColors(inactive);
    forall c: int | InPalette(c)
      ensures activeCounts[c] == 0 <==> c !in active
      ensures inactiveCounts[c] == 0 <==> c !in inactive
    {
      CountIsHeld(active, c);
      CountIsHeld(inactive, c);
    }
    if existing.Some? && InPalette(existing.value) && activeCounts[existing.value] == 0 {
      return Choice(existing.value, None);
    }
    for c := 0 to PALETTE_SIZE
      invariant FirstFree(active, inactive, 0) == FirstFree(active, inactive, c)
    {
      if activeCounts[c] == 0 && inactiveCounts[c] == 0 { return Choice(c, None); }
    }
    var reclaim := None;
    for c := 0 to PALETTE_SIZE
      invariant reclaim == Reclaimable(active, inactive, c)
      invariant reclaim.Some? ==> InPalette(reclaim.value)
    {
      if activeCounts[c] == 0 && inactiveCounts[c] > 0
         && (reclaim.None? || inactiveCounts[c] < inactiveCounts[reclaim.value]) {
        reclaim := Some(c);
      }
    }
    if reclaim.Some? { return Choice(reclaim.value, reclaim); }
    var best := 0;
    for c := 0 to PALETTE_SIZE
      invariant best == if c == 0 then 0 else LeastUsed(active, c)
      invariant InPalette(best)
    {
      if activeCounts[c] < activeCounts[best] { best := c; }
    }
    choice := Choice(best, None);
  }

  class Service {
    var numbers: Table

    constructor ()
      ensures numbers == map[]
    {
      numbers := map[];
    }

    method GetColorUsage(order: seq<PhoneNumber>) returns (active: seq<int>, inactive: seq<int>)
      ensures active == Usage(numbers, order, true) && inactive == Usage(numbers, order, false)
    {
      active, inactive := [], [];
      for i := 0 to |order|
        invariant active == Usage(numbers, order[..i], true)
        invariant inactive == Usage(numbers, order[..i], false)
      {
        assert order[..i + 1][..i] == order[..i];
        var n := order[i];
        if n in numbers && numbers[n].color.Some? {
          if numbers[n].active {
            active := active + [numbers[n].color.value];
          } else {
            inactive := inactive + [numbers[n].color.value];
          }
        }
      }
      assert order[..|order|] == order;
    }

    /** Nulls the colour on one inactive holder, the first in row order, and drops it from the list. */
    method ReclaimColor(order: seq<PhoneNumber>, choice: Choice, inactive: seq<int>) returns (left: seq<int>)
      modifies this
      ensures choice.reclaimFrom.None? ==> numbers == old(numbers) && left == inactive
      ensures choice.reclaimFrom.Some? ==> numbers == Reclaimed(old(numbers), order, choice.reclaimFrom.value)
      ensures choice.reclaimFrom.Some? ==> left == RemoveFirst(inactive, choice.reclaimFrom.value)
    {
      if choice.reclaimFrom.None? { return inactive; }
      var c := choice.reclaimFrom.value;
      left := RemoveFirst(inactive, c);
      for i := 0 to |order|
        invariant numbers == old(numbers)
        invariant Reclaimed(numbers, order, c) == Reclaimed(numbers, order[i..], c)
      {
        var n := order[i];
        if n in numbers && !numbers[n].active && numbers[n].color == Some(c) {
          numbers := numbers[n := numbers[n].(color := None)];
          return;
        }
      }
    }

    /** Chooses a colour for a number, reclaims it if needed, and writes the row that `row` makes of it. */
    method AssignColor(existing: Option<int>, order: seq<PhoneNumber>, n: PhoneNumber, active: seq<int>,
          inactive: seq<int>)
      returns (color: int, active': seq<int>, inactive': seq<int>)
      modifies this
      ensures var choice := ChooseColor(existing, active, inactive);
              && color == choice.color && active' == active + [color]
              && inactive' == (match choice.reclaimFrom case None => inactive case Some(c) => RemoveFirst(inactive, c))
              && numbers == (match choice.reclaimFrom
                             case None => old(numbers)
                             case Some(c) => Reclaimed(old(numbers), order, c))
    {
      var choice := Choose(existing, active, inactive);
      inactive' := ReclaimColor(order, choice, inactive);
      color := choice.color;
      active' := active + [color];
    }

    /** The body of the first loop: a new number is upserted, an inactive one wakes up. */
    method AddListed(start: Table, order: seq<PhoneNumber>, provider: ProviderId, n: PhoneNumber,
                     active: seq<int>, inactive: seq<int>)
      returns (active': seq<int>, inactive': seq<int>)
      requires start.Keys <= numbers.Keys
      modifies this
      ensures Pass(numbers, active', inactive') ==
              AddOne(Pass(old(numbers), active, inactive), start, order, provider, n)
      ensures start.Keys <= numbers.Keys
    {
      ghost var p := Pass(numbers, active, inactive);
      active', inactive' := active, inactive;
      if !Owned(start, provider, n) {
        var color;
        ReclaimedKeys(numbers, order, ChooseColor(None, active, inactive));
        var row := numbers;
        color, active', inactive' := AssignColor(None, order, n, active, inactive);
        numbers := numbers[n := Upserted(row, provider, n, color)];
      } else if !start[n].active {
        if start[n].color.Some? { inactive' := RemoveFirst(inactive', start[n].color.value); }
        var color;
        ReclaimedKeys(numbers, order, ChooseColor(start[n].color, active, inactive'));
        var row := numbers[n];
        color, active', inactive' := AssignColor(start[n].color, order, n, active', inactive');
        numbers := numbers[n := row.(active := true, color := Some(color))];
      }
    }

    /** syncNumbers for an available provider that lists `listing`; rows come back in `order`. */
    method SyncNumbers(order: seq<PhoneNumber>, provider: ProviderId, listing: seq<PhoneNumber>)
      modifies this
      ensures numbers == Sync(old(numbers), order, provider, listing).table
    {
      var start := numbers;
      var active, inactive := GetColorUsage(order);
      for i := 0 to |listing|
        invariant Pass(numbers, active, inactive) == AddAll(Before(start, order), start, order, provider, listing[..i])
        invariant start.Keys <= numbers.Keys
      {
        assert listing[..i + 1][..i] == listing[..i];
        active, inactive := AddListed(start, order, provider, listing[i], active, inactive);
      }
      assert listing[..|listing|] == listing;
      ghost var added := Pass(numbers, active, inactive);
      for i := 0 to |order|
        invariant Pass(numbers, active, inactive) == OrphanAll(added, start, provider, listing, order[..i])
      {
        assert order[..i + 1][..i] == order[..i];
        var n := order[i];
        if Owned(start, provider, n) && start[n].active && n !in listing && n in numbers {
          numbers := numbers[n := numbers[n].(active := false, provider := None)];
          if start[n].color.Some? {
            active := RemoveFirst(active, start[n].color.value);
            inactive := inactive + [start[n].color.value];
          }
        }
      }
      assert order[..|order|] == order;
    }

    method SetActive(n: PhoneNumber, active: bool) returns (found: bool)
      modifies this
      ensures numbers == NumberColors.SetActive(old(numbers), n, active) && (found <==> n in old(numbers))
    {
      if n !in numbers { return false; }
      numbers := numbers[n := numbers[n].(active := active)];
      return true;
    }
  }

  lemma {:induction false} ReclaimedKeys(t: Table, order: seq<PhoneNumber>, choice: Choice)
    ensures choice.reclaimFrom.Some? ==> Reclaimed(t, order, choice.reclaimFrom.value).Keys == t.Keys
  {
    if order != [] && choice.reclaimFrom.Some? { ReclaimedKeys(t, order[1..], choice); }
  }
}
