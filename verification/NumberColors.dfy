/**
  The colour allocator for phone numbers on values: the numbers table, the choice of a
  colour, one synchronisation pass over a provider's listing, and the proof that colours
  stay unique over whole histories.

  A colour is an index into the palette of sixteen; any other value is a colour from
  before the palette. The order in which the database returns rows is a parameter.
 */
module NumberColors {
  import opened Basics

  datatype PhoneNumber = PhoneNumber(digits: string)
  datatype ProviderId = ProviderId(uuid: string)

  datatype Row = Row(provider: Option<ProviderId>, color: Option<int>, active: bool, name: Option<string>)

  type Table = map<PhoneNumber, Row>

  const PALETTE_SIZE := 16

  predicate InPalette(c: int) { 0 <= c < PALETTE_SIZE }

  // ---------------------------------------------------------------- choosing

  datatype Choice = Choice(color: int, reclaimFrom: Option<int>)

  /** First palette colour at or after `k` that neither list holds. */
  function FirstFree(active: seq<int>, inactive: seq<int>, k: nat): Option<int>
    requires k <= PALETTE_SIZE
    decreases PALETTE_SIZE - k
  {
    if k == PALETTE_SIZE then None
    else if k !in active && k !in inactive then Some(k)
    else FirstFree(active, inactive, k + 1)
  }

  function Count(colors: seq<int>, c: int): nat { multiset(colors)[c] }

  /** Of the first `k` palette colours, the one only inactive numbers hold with fewest holders. */
  function Reclaimable(active: seq<int>, inactive: seq<int>, k: nat): Option<int>
    requires k <= PALETTE_SIZE
  {
    if k == 0 then None
    else
      var best := Reclaimable(active, inactive, k - 1);
      var c := k - 1;
      if c !in active && c in inactive && (best.None? || Count(inactive, c) < Count(inactive, best.value)) then Some(c)
      else best
  }

  /** Of the first `k` palette colours, the first that fewest active numbers hold. */
  function LeastUsed(active: seq<int>, k: nat): int
    requires 1 <= k <= PALETTE_SIZE
  {
    if k == 1 then 0
    else
      var best := LeastUsed(active, k - 1);
      if Count(active, k - 1) < Count(active, best) then k - 1 else best
  }

  function ChooseColor(existing: Option<int>, active: seq<int>, inactive: seq<int>): Choice {
    if existing.Some? && InPalette(existing.value) && existing.value !in active then Choice(existing.value, None)
    else
      var free := FirstFree(active, inactive, 0);
      if free.Some? then Choice(free.value, None)
      else
        var reclaim := Reclaimable(active, inactive, PALETTE_SIZE);
        if reclaim.Some? then Choice(reclaim.value, reclaim)
        else Choice(LeastUsed(active, PALETTE_SIZE), None)
  }

  lemma {:induction false} FirstFreeIsFree(active: seq<int>, inactive: seq<int>, k: nat)
    requires k <= PALETTE_SIZE
    ensures var f := FirstFree(active, inactive, k);
            match f
            case Some(c) =>
              k <= c < PALETTE_SIZE && c !in active && c !in inactive &&
              forall d :: k <= d < c ==> d in active || d in inactive
            case None => forall d :: k <= d < PALETTE_SIZE ==> d in active || d in inactive
    decreases PALETTE_SIZE - k
  {
    if k < PALETTE_SIZE { FirstFreeIsFree(active, inactive, k + 1); }
  }

  lemma {:induction false} ReclaimableIsBest(active: seq<int>, inactive: seq<int>, k: nat)
    requires k <= PALETTE_SIZE
    ensures match Reclaimable(active, inactive, k)
            case Some(c) =>
              (0 <= c < k && c !in active && c in inactive &&
              (forall d :: 0 <= d < k && d !in active && d in inactive ==> Count(inactive, c) <= Count(inactive, d)) &&
              (forall d :: 0 <= d < c && d !in active && d in inactive ==> Count(inactive, c) < Count(inactive, d)))
            case None => forall d :: 0 <= d < k ==> d in active || d !in inactive
  {
    if k > 0 { ReclaimableIsBest(active, inactive, k - 1); }
  }

  lemma {:induction false} LeastUsedIsLeast(active: seq<int>, k: nat)
    requires 1 <= k <= PALETTE_SIZE
    ensures var c := LeastUsed(active, k);
            && 0 <= c < k
            && (forall d :: 0 <= d < k ==> Count(active, c) <= Count(active, d))
            && (forall d :: 0 <= d < c ==> Count(active, c) < Count(active, d))
  {
    if k > 1 { LeastUsedIsLeast(active, k - 1); }
  }

  /** Some palette colour is held by no active entry. */
  ghost predicate HasRoom(active: seq<int>) {
    exists c: int :: InPalette(c) && c !in active
  }

  /** A choice is always from the palette, and is a colour of an active entry exactly when all of them are. */
  lemma ChoiceIsFreshExactly(existing: Option<int>, active: seq<int>, inactive: seq<int>)
    ensures var choice := ChooseColor(existing, active, inactive);
            && InPalette(choice.color)
            && (choice.color !in active <==> HasRoom(active))
            && (choice.color !in active && Some(choice.color) != existing && choice.reclaimFrom.None? ==>
               choice.color !in inactive)
            && (choice.reclaimFrom.Some? ==> choice.reclaimFrom.value == choice.color)
            && (choice.reclaimFrom.Some? ==> choice.color !in active && choice.color in inactive)
            && (choice.reclaimFrom.Some? ==> forall d :: InPalette(d) ==> d in active || d in inactive)
            && (choice.color in active ==> choice.reclaimFrom.None?)
            && (choice.color in active ==> forall d :: InPalette(d) ==> Count(active, choice.color) <= Count(active, d))
  {
    FirstFreeIsFree(active, inactive, 0);
    ReclaimableIsBest(active, inactive, PALETTE_SIZE);
    LeastUsedIsLeast(active, PALETTE_SIZE);
    var choice := ChooseColor(existing, active, inactive);
    if choice.color !in active { assert InPalette(choice.color); }
  }

  /** c is the first palette colour with fewest entries in `colors` among those not in `barred`. */
  ghost predicate IsFirstLeast(colors: seq<int>, barred: seq<int>, c: int) {
    && InPalette(c) && c !in barred
    && (forall d :: InPalette(d) && d !in barred ==> Count(colors, c) <= Count(colors, d))
    && (forall d :: 0 <= d < c && d !in barred ==> Count(colors, c) < Count(colors, d))
  }

  /**
    The four priorities: a palette colour no active entry holds is kept; else the first nobody
    holds; else, taken from an inactive holder, the one fewest of them hold; else the one
    fewest active entries hold.
   */
  lemma ChoiceExactly(existing: Option<int>, active: seq<int>, inactive: seq<int>)
    ensures var choice := ChooseColor(existing, active, inactive);
            if existing.Some? && InPalette(existing.value) && existing.value !in active then
              choice.color == existing.value && choice.reclaimFrom == None
            else if exists d: int :: InPalette(d) && d !in active + inactive then
              && InPalette(choice.color) && choice.color !in active + inactive && choice.reclaimFrom == None
              && forall d :: 0 <= d < choice.color ==> d in active + inactive
            else if exists d: int :: InPalette(d) && d !in active then
              IsFirstLeast(inactive, active, choice.color) && choice.reclaimFrom == Some(choice.color)
            else
              IsFirstLeast(active, [], choice.color) && choice.reclaimFrom == None
  {
    FirstFreeIsFree(active, inactive, 0);
    ReclaimableIsBest(active, inactive, PALETTE_SIZE);
    LeastUsedIsLeast(active, PALETTE_SIZE);
  }

  /** While there is room, a number keeps its colour exactly when it is a palette colour that no active entry holds. */
  lemma KeepsColorExactly(c: int, active: seq<int>, inactive: seq<int>)
    requires HasRoom(active)
    ensures ChooseColor(Some(c), active, inactive).color == c <==> InPalette(c) && c !in active
  {
    ChoiceIsFreshExactly(Some(c), active, inactive);
  }

  /** The palette colours no active entry holds. */
  function FreeColors(active: seq<int>): set<int> { set c: int | 0 <= c < PALETTE_SIZE && c !in active }

  lemma RoomIsFreeColor(active: seq<int>)
    ensures HasRoom(active) <==> |FreeColors(active)| > 0
  {
    if c: int :| InPalette(c) && c !in active {
      assert c in FreeColors(active);
    } else {
      assert FreeColors(active) == {};
    }
  }

  /** A fresh choice uses up one free colour. */
  lemma ChoiceUsesOne(active: seq<int>, c: int)
    requires InPalette(c) && c !in active
    ensures |FreeColors(active + [c])| == |FreeColors(active)| - 1
  {
    assert c in FreeColors(active);
    assert FreeColors(active + [c]) == FreeColors(active) - {c};
  }

  /** Every active entry takes at most one colour, so fewer than sixteen entries leave room. */
  lemma {:induction false} EntriesLeaveFree(active: seq<int>)
    ensures |FreeColors(active)| + |active| >= PALETTE_SIZE
  {
    if active == [] {
      var colors := FirstColors(PALETTE_SIZE);
      assert forall c: int :: c in colors <==> c in FreeColors([]);
      assert FreeColors([]) == colors;
    } else {
      var before, c := active[..|active| - 1], active[|active| - 1];
      assert active == before + [c];
      EntriesLeaveFree(before);
      assert FreeColors(active) == FreeColors(before) - {c};
    }
  }

  lemma {:induction false} FirstColors(k: nat) returns (colors: set<int>)
    ensures |colors| == k && forall c: int :: c in colors <==> 0 <= c < k
  {
    colors := {};
    if k > 0 {
      var before := FirstColors(k - 1);
      colors := before + {k - 1};
    }
  }

  function IndexOf<T(==)>(s: seq<T>, x: T): (i: nat)
    requires x in s
    ensures i < |s| && s[i] == x
  {
    if s[0] == x then 0 else 1 + IndexOf(s[1..], x)
  }

  /** splice of the first occurrence, when there is one. */
  function RemoveFirst<T(==)>(s: seq<T>, x: T): seq<T> {
    if x in s then s[..IndexOf(s, x)] + s[IndexOf(s, x) + 1..] else s
  }

  lemma OthersStay<T>(s: seq<T>, x: T, y: T)
    requires y != x && y in s
    ensures y in RemoveFirst(s, x)
  {
    if x in s {
      var i, j := IndexOf(s, x), IndexOf(s, y);
      assert RemoveFirst(s, x)[if j < i then j else j - 1] == y;
    }
  }

  // ---------------------------------------------------------------- the table

  /** No two numbers share a colour, active or not. */
  ghost predicate Unique(t: Table) {
    forall m, n :: m in t && n in t && m != n && t[m].color.Some? ==> t[m].color != t[n].color
  }

  /** The lists hold at least the colours of the rows, those of active rows in `active`, the others in `inactive`. */
  ghost predicate Covers(t: Table, active: seq<int>, inactive: seq<int>, except: Option<PhoneNumber>) {
    forall n :: n in t && t[n].color.Some? && Some(n) != except ==>
                  t[n].color.value in if t[n].active then active else inactive
  }

  /** getColorUsage: the colours of the rows with the given activity, in row order. */
  function Usage(t: Table, order: seq<PhoneNumber>, active: bool): seq<int> {
    if order == [] then []
    else
      var n := order[|order| - 1];
      var before := Usage(t, order[..|order| - 1], active);
      if n in t && t[n].active == active && t[n].color.Some? then before + [t[n].color.value] else before
  }

  /** An order in which the database may return the rows. */
  ghost predicate RowOrder(t: Table, order: seq<PhoneNumber>) { forall n :: n in t <==> n in order }

  lemma {:induction false} UsageHolds(t: Table, order: seq<PhoneNumber>, n: PhoneNumber)
    requires n in order && n in t && t[n].color.Some?
    ensures t[n].color.value in Usage(t, order, t[n].active)
  {
    var before := order[..|order| - 1];
    if n in before {
      UsageHolds(t, before, n);
    }
  }

  lemma {:induction false} UsageCovers(t: Table, order: seq<PhoneNumber>)
    requires RowOrder(t, order)
    ensures Covers(t, Usage(t, order, true), Usage(t, order, false), None)
  {
    forall n | n in t && t[n].color.Some?
      ensures t[n].color.value in Usage(t, order, t[n].active)
    {
      UsageHolds(t, order, n);
    }
  }

  /** reclaimColor in the table: one inactive holder, the first in row order, loses the colour. */
  function Reclaimed(t: Table, order: seq<PhoneNumber>, c: int): Table {
    if order == [] then t
    else if order[0] in t && !t[order[0]].active && t[order[0]].color == Some(c) then
      t[order[0] := t[order[0]].(color := None)]
    else Reclaimed(t, order[1..], c)
  }

  /** With unique colours the one holder found is the only one. */
  lemma {:induction false} ReclaimedClears(t: Table, order: seq<PhoneNumber>, c: int)
    requires Unique(t)
    ensures var r := Reclaimed(t, order, c);
            && r.Keys == t.Keys
            && (forall n <- t ::
                  r[n] == t[n] || (n in order && !t[n].active && t[n].color == Some(c) && r[n] == t[n].(color := None)))
            && (forall n <- t :: n in order && !t[n].active ==> r[n].color != Some(c))
  {
    if order != [] && !(order[0] in t && !t[order[0]].active && t[order[0]].color == Some(c)) {
      ReclaimedClears(t, order[1..], c);
    }
  }

  // ---------------------------------------------------------------- one synchronisation

  /** The table and the two lists as the pass changes them. */
  datatype Pass = Pass(table: Table, active: seq<int>, inactive: seq<int>)

  /** Reclaim if the choice says so, note the colour as active, write the row. */
  function Assign(p: Pass, order: seq<PhoneNumber>, choice: Choice, n: PhoneNumber, row: Row): Pass {
    match choice.reclaimFrom
    case None => Pass(p.table[n := row], p.active + [choice.color], p.inactive)
    case Some(c) =>
      Pass(Reclaimed(p.table, order, c)[n := row], p.active + [choice.color], RemoveFirst(p.inactive, c))
  }

  predicate Owned(t: Table, provider: ProviderId, n: PhoneNumber) { n in t && t[n].provider == Some(provider) }

  /** The row an upsert leaves: a stored number keeps its label. */
  function Upserted(t: Table, provider: ProviderId, n: PhoneNumber, color: int): Row {
    if n in t then t[n].(provider := Some(provider), active := true, color := Some(color))
    else Row(Some(provider), Some(color), true, None)
  }

  function Without(colors: seq<int>, color: Option<int>): seq<int> {
    match color case Some(c) => RemoveFirst(colors, c) case None => colors
  }

  /** One number of the listing; `start` is the table as read before the pass. */
  function AddOne(p: Pass, start: Table, order: seq<PhoneNumber>, provider: ProviderId, n: PhoneNumber): Pass {
    if !Owned(start, provider, n) then
      var choice := ChooseColor(None, p.active, p.inactive);
      Assign(p, order, choice, n, Upserted(p.table, provider, n, choice.color))
    else if start[n].active || n !in p.table then p
    else
      var freed := p.(inactive := Without(p.inactive, start[n].color));
      var choice := ChooseColor(start[n].color, freed.active, freed.inactive);
      Assign(freed, order, choice, n, p.table[n].(active := true, color := Some(choice.color)))
  }

  function AddAll(p: Pass, start: Table, order: seq<PhoneNumber>, provider: ProviderId,
        listing: seq<PhoneNumber>): Pass
  {
    if listing == [] then p
    else AddOne(AddAll(p, start, order, provider, listing[..|listing| - 1]), start, order, provider,
      listing[|listing| - 1])
  }

  predicate Vanished(start: Table, provider: ProviderId, listing: seq<PhoneNumber>, n: PhoneNumber) {
    Owned(start, provider, n) && start[n].active && n !in listing
  }

  /** A number the provider no longer lists is deactivated and detached; its colour moves to the inactive list. */
  function OrphanOne(p: Pass, start: Table, provider: ProviderId, listing: seq<PhoneNumber>, n: PhoneNumber): Pass {
    if !Vanished(start, provider, listing, n) || n !in p.table then p
    else
      Pass(p.table[n := p.table[n].(active := false, provider := None)],
           Without(p.active, start[n].color),
           p.inactive + match start[n].color case Some(c) => [c] case None => [])
  }

  function OrphanAll(p: Pass, start: Table, provider: ProviderId, listing: seq<PhoneNumber>,
        rows: seq<PhoneNumber>): Pass
  {
    if rows == [] then p
    else OrphanOne(OrphanAll(p, start, provider, listing, rows[..|rows| - 1]), start, provider, listing,
      rows[|rows| - 1])
  }

  function Before(t: Table, order: seq<PhoneNumber>): Pass {
    Pass(t, Usage(t, order, true), Usage(t, order, false))
  }

  function Sync(t: Table, order: seq<PhoneNumber>, provider: ProviderId, listing: seq<PhoneNumber>): Pass {
    OrphanAll(AddAll(Before(t, order), t, order, provider, listing), t, provider, listing, order)
  }

  /** How many numbers of the listing need a colour chosen. */
  function Choices(start: Table, provider: ProviderId, listing: seq<PhoneNumber>): nat {
    if listing == [] then 0
    else Choices(start, provider, listing[..|listing| - 1]) +
         if Owned(start, provider, listing[|listing| - 1]) && start[listing[|listing| - 1]].active then 0 else 1
  }

  /** No more choices than palette colours that active numbers leave free. */
  predicate WithinBudget(t: Table, order: seq<PhoneNumber>, provider: ProviderId, listing: seq<PhoneNumber>) {
    Choices(t, provider, listing) <= |FreeColors(Usage(t, order, true))|
  }

  /** In particular when every choice sees fewer than sixteen active entries. */
  lemma {:induction false} EntryBudgetSuffices(t: Table, order: seq<PhoneNumber>, provider: ProviderId,
        listing: seq<PhoneNumber>)
    requires |Usage(t, order, true)| + Choices(t, provider, listing) <= PALETTE_SIZE
    ensures WithinBudget(t, order, provider, listing)
  {
    EntriesLeaveFree(Usage(t, order, true));
  }

  // ---------------------------------------------------------------- uniqueness through the pass

  /** After a reclaim no other number holds the colour, and the other inactive ones are still covered. */
  lemma {:induction false} ReclaimFrees(p: Pass, order: seq<PhoneNumber>, c: int, n: PhoneNumber)
    requires Unique(p.table) && Covers(p.table, p.active, p.inactive, Some(n)) && c !in p.active
    requires forall m <- p.table :: !p.table[m].active ==> m in order
    ensures var r := Reclaimed(p.table, order, c);
            && r.Keys == p.table.Keys && Unique(r) && Covers(r, p.active, RemoveFirst(p.inactive, c), Some(n))
            && forall m <- r :: m != n ==> r[m].color != Some(c)
  {
    ReclaimedClears(p.table, order, c);
    var r := Reclaimed(p.table, order, c);
    forall m | m in r && m != n && r[m].color.Some?
      ensures r[m].color.value in if r[m].active then p.active else RemoveFirst(p.inactive, c)
    {
      if !r[m].active { OthersStay(p.inactive, c, r[m].color.value); }
    }
  }

  /** Writing a row with a colour nobody else holds. */
  lemma WriteKeeps(t: Table, active: seq<int>, inactive: seq<int>, n: PhoneNumber, row: Row)
    requires Unique(t) && Covers(t, active, inactive, Some(n)) && row.active && row.color.Some?
    requires forall m <- t :: m != n ==> t[m].color != row.color
    ensures Unique(t[n := row]) && Covers(t[n := row], active + [row.color.value], inactive, None)
  {
  }

  /** Assigning a colour nobody else holds keeps colours unique and covered. */
  lemma AssignKeeps(p: Pass, order: seq<PhoneNumber>, choice: Choice, n: PhoneNumber, row: Row)
    requires Unique(p.table) && Covers(p.table, p.active, p.inactive, Some(n))
    requires forall m <- p.table :: !p.table[m].active ==> m in order
    requires choice.color !in p.active && (choice.reclaimFrom.Some? ==> choice.reclaimFrom.value == choice.color)
    requires choice.reclaimFrom.None? ==> forall m <- p.table :: m != n ==> p.table[m].color != Some(choice.color)
    requires row.active && row.color == Some(choice.color)
    ensures var q := Assign(p, order, choice, n, row);
            Unique(q.table) && Covers(q.table, q.active, q.inactive, None)
  {
    var c := choice.color;
    if choice.reclaimFrom.Some? {
      ReclaimFrees(p, order, c, n);
      WriteKeeps(Reclaimed(p.table, order, c), p.active, RemoveFirst(p.inactive, c), n, row);
    } else {
      WriteKeeps(p.table, p.active, p.inactive, n, row);
    }
  }

  /** During the first loop an inactive row is one from before the pass, with its colour or none. */
  ghost predicate OnlyWakes(start: Table, t: Table) {
    && start.Keys <= t.Keys
    && (forall m <- t :: !t[m].active ==>
          m in start && !start[m].active && (t[m].color == start[m].color || t[m].color == None))
  }

  /** Rows the second loop will orphan are still as they were read. */
  ghost predicate VanishedUntouched(start: Table, t: Table, provider: ProviderId, listing: seq<PhoneNumber>) {
    forall m <- start :: Vanished(start, provider, listing, m) ==> m in t && t[m] == start[m]
  }

  ghost predicate Sound(p: Pass, start: Table) {
    Unique(p.table) && Covers(p.table, p.active, p.inactive, None) && OnlyWakes(start, p.table)
  }

  lemma AssignOnlyWakes(p: Pass, start: Table, order: seq<PhoneNumber>, choice: Choice, n: PhoneNumber, row: Row)
    requires OnlyWakes(start, p.table) && row.active && Unique(p.table)
    ensures OnlyWakes(start, Assign(p, order, choice, n, row).table)
    ensures forall m <- p.table :: m != n && p.table[m].active ==>
              m in Assign(p, order, choice, n, row).table && Assign(p, order, choice, n, row).table[m] == p.table[m]
  {
    if choice.reclaimFrom.Some? { ReclaimedClears(p.table, order, choice.reclaimFrom.value); }
  }

  /** The colour a returning number held when the pass began is held by no other inactive row. */
  lemma OwnColorFree(p: Pass, start: Table, n: PhoneNumber)
    requires Unique(start) && Sound(p, start)
    requires n in start && !start[n].active
    ensures forall m <- p.table :: m != n && !p.table[m].active && p.table[m].color.Some? ==>
            p.table[m].color != start[n].color
    ensures Covers(p.table, p.active, Without(p.inactive, start[n].color), Some(n))
  {
    forall m | m in p.table && m != n && !p.table[m].active && p.table[m].color.Some?
      ensures p.table[m].color != start[n].color
      ensures p.table[m].color.value in Without(p.inactive, start[n].color)
    {
      assert start[m].color == p.table[m].color;
      if start[n].color.Some? { OthersStay(p.inactive, start[n].color.value, p.table[m].color.value); }
    }
  }

  lemma NewKeeps(p: Pass, start: Table, order: seq<PhoneNumber>, provider: ProviderId, n: PhoneNumber)
    requires Sound(p, start) && RowOrder(start, order) && HasRoom(p.active)
    requires !Owned(start, provider, n)
    ensures Sound(AddOne(p, start, order, provider, n), start)
  {
    ChoiceIsFreshExactly(None, p.active, p.inactive);
    var choice := ChooseColor(None, p.active, p.inactive);
    var row := Upserted(p.table, provider, n, choice.color);
    AssignKeeps(p, order, choice, n, row);
    AssignOnlyWakes(p, start, order, choice, n, row);
  }

  lemma ReturningKeeps(p: Pass, start: Table, order: seq<PhoneNumber>, provider: ProviderId, n: PhoneNumber)
    requires Unique(start) && Sound(p, start) && RowOrder(start, order) && HasRoom(p.active)
    requires Owned(start, provider, n) && !start[n].active
    ensures Sound(AddOne(p, start, order, provider, n), start)
  {
    var freed := p.(inactive := Without(p.inactive, start[n].color));
    ChoiceIsFreshExactly(start[n].color, p.active, freed.inactive);
    OwnColorFree(p, start, n);
    var choice := ChooseColor(start[n].color, p.active, freed.inactive);
    var row := p.table[n].(active := true, color := Some(choice.color));
    AssignKeeps(freed, order, choice, n, row);
    AssignOnlyWakes(freed, start, order, choice, n, row);
  }

  /** A number that is not already active under the provider needs a choice. */
  predicate NeedsChoice(start: Table, provider: ProviderId, n: PhoneNumber) {
    !(Owned(start, provider, n) && start[n].active)
  }

  /** The choice made for a number. */
  function ChoiceFor(p: Pass, start: Table, provider: ProviderId, n: PhoneNumber): Choice {
    if !Owned(start, provider, n) then ChooseColor(None, p.active, p.inactive)
    else ChooseColor(start[n].color, p.active, Without(p.inactive, start[n].color))
  }

  /** A choice with room keeps the pass sound and uses up one free colour. */
  lemma ChoiceKeeps(p: Pass, start: Table, order: seq<PhoneNumber>, provider: ProviderId, n: PhoneNumber)
    requires Unique(start) && Sound(p, start) && RowOrder(start, order) && HasRoom(p.active)
    requires NeedsChoice(start, provider, n)
    ensures Sound(AddOne(p, start, order, provider, n), start)
    ensures |FreeColors(AddOne(p, start, order, provider, n).active)| == |FreeColors(p.active)| - 1
  {
    if !Owned(start, provider, n) {
      NewKeeps(p, start, order, provider, n);
      ChoiceIsFreshExactly(None, p.active, p.inactive);
    } else {
      ReturningKeeps(p, start, order, provider, n);
      ChoiceIsFreshExactly(start[n].color, p.active, Without(p.inactive, start[n].color));
    }
    ChoiceUsesOne(p.active, ChoiceFor(p, start, provider, n).color);
  }

  /**
    Within the budget colours stay unique through the first loop, the lists cover the table,
    each choice costs one colour.
   */
  lemma {:induction false} AddAllKeeps(start: Table, order: seq<PhoneNumber>, provider: ProviderId,
        listing: seq<PhoneNumber>)
    requires Unique(start) && RowOrder(start, order) && WithinBudget(start, order, provider, listing)
    ensures Sound(AddAll(Before(start, order), start, order, provider, listing), start)
    ensures |FreeColors(AddAll(Before(start, order), start, order, provider, listing).active)| ==
            |FreeColors(Usage(start, order, true))| - Choices(start, provider, listing)
  {
    if listing == [] {
      UsageCovers(start, order);
    } else {
      var before, n := listing[..|listing| - 1], listing[|listing| - 1];
      AddAllKeeps(start, order, provider, before);
      var p := AddAll(Before(start, order), start, order, provider, before);
      if NeedsChoice(start, provider, n) {
        RoomIsFreeColor(p.active);
        ChoiceKeeps(p, start, order, provider, n);
      }
    }
  }

  lemma {:induction false} AddAllLeavesVanished(start: Table, order: seq<PhoneNumber>, provider: ProviderId,
                                                listing: seq<PhoneNumber>, whole: seq<PhoneNumber>)
    requires Unique(start) && RowOrder(start, order) && WithinBudget(start, order, provider, listing)
    requires listing <= whole
    ensures VanishedUntouched(start, AddAll(Before(start, order), start, order, provider, listing).table, provider,
            whole)
  {
    if listing != [] {
      var before, n := listing[..|listing| - 1], listing[|listing| - 1];
      AddAllLeavesVanished(start, order, provider, before, whole);
      AddAllKeeps(start, order, provider, before);
      var p := AddAll(Before(start, order), start, order, provider, before);
      assert n in whole;
      AddOneLeaves(p, start, order, provider, n);
    }
  }

  lemma AddOneLeaves(p: Pass, start: Table, order: seq<PhoneNumber>, provider: ProviderId, n: PhoneNumber)
    requires Sound(p, start)
    ensures var q := AddOne(p, start, order, provider, n);
            forall m <- p.table :: m != n && p.table[m].active ==> m in q.table && q.table[m] == p.table[m]
  {
    if !Owned(start, provider, n) {
      var choice := ChooseColor(None, p.active, p.inactive);
      AssignOnlyWakes(p, start, order, choice, n, Upserted(p.table, provider, n, choice.color));
    } else if !start[n].active {
      var freed := p.(inactive := Without(p.inactive, start[n].color));
      var choice := ChooseColor(start[n].color, p.active, freed.inactive);
      AssignOnlyWakes(freed, start, order, choice, n, p.table[n].(active := true, color := Some(choice.color)));
    }
  }

  /** Orphaning changes no colour. */
  lemma {:induction false} OrphanAllKeeps(p: Pass, start: Table, provider: ProviderId, listing: seq<PhoneNumber>,
        rows: seq<PhoneNumber>)
    requires Unique(p.table) && Covers(p.table, p.active, p.inactive, None)
    requires VanishedUntouched(start, p.table, provider, listing)
    ensures var q := OrphanAll(p, start, provider, listing, rows);
            && Unique(q.table) && Covers(q.table, q.active, q.inactive, None)
            && q.table.Keys == p.table.Keys && forall m <- p.table :: q.table[m].color == p.table[m].color
  {
    if rows != [] {
      var before, n := rows[..|rows| - 1], rows[|rows| - 1];
      OrphanAllKeeps(p, start, provider, listing, before);
      OrphanOneKeeps(OrphanAll(p, start, provider, listing, before), start, provider, listing, n);
    }
  }

  lemma OrphanOneKeeps(q: Pass, start: Table, provider: ProviderId, listing: seq<PhoneNumber>, n: PhoneNumber)
    requires Unique(q.table) && Covers(q.table, q.active, q.inactive, None)
    requires n in q.table && Vanished(start, provider, listing, n) ==> q.table[n].color == start[n].color
    ensures var r := OrphanOne(q, start, provider, listing, n);
            Unique(r.table) && Covers(r.table, r.active, r.inactive, None)
  {
    var r := OrphanOne(q, start, provider, listing, n);
    if r != q && start[n].color.Some? {
      forall m | m in q.table && m != n && q.table[m].active && q.table[m].color.Some?
        ensures q.table[m].color.value in r.active
      {
        OthersStay(q.active, start[n].color.value, q.table[m].color.value);
      }
    }
  }

  /** One synchronisation keeps colours unique, and its lists cover the table to the end. */
  lemma SyncKeepsUnique(t: Table, order: seq<PhoneNumber>, provider: ProviderId, listing: seq<PhoneNumber>)
    requires Unique(t) && RowOrder(t, order) && WithinBudget(t, order, provider, listing)
    ensures var q := Sync(t, order, provider, listing);
            Unique(q.table) && Covers(q.table, q.active, q.inactive, None)
  {
    AddAllKeeps(t, order, provider, listing);
    AddAllLeavesVanished(t, order, provider, listing, listing);
    OrphanAllKeeps(AddAll(Before(t, order), t, order, provider, listing), t, provider, listing, order);
  }

  lemma {:induction false} UsageIsHeld(t: Table, order: seq<PhoneNumber>, active: bool, c: int) returns (n: PhoneNumber)
    requires c in Usage(t, order, active)
    ensures n in order && n in t && t[n].active == active && t[n].color == Some(c)
  {
    var last, before := order[|order| - 1], order[..|order| - 1];
    if c in Usage(t, before, active) {
      n := UsageIsHeld(t, before, active, c);
    } else {
      n := last;
    }
  }

  lemma {:induction false} OrphanKeepsColors(p: Pass, start: Table, provider: ProviderId, listing: seq<PhoneNumber>,
        rows: seq<PhoneNumber>)
    ensures var q := OrphanAll(p, start, provider, listing, rows);
            q.table.Keys == p.table.Keys && forall m <- p.table :: q.table[m].color == p.table[m].color
  {
    if rows != [] { OrphanKeepsColors(p, start, provider, listing, rows[..|rows| - 1]); }
  }

  // ---------------------------------------------------------------- and without the budget

  /** A listing without repeats, of numbers that no other provider has active. */
  ghost predicate Plain(start: Table, provider: ProviderId, listing: seq<PhoneNumber>) {
    && (forall i, j :: 0 <= i < j < |listing| ==> listing[i] != listing[j])
    && (forall n <- listing :: n in start && start[n].active ==> Owned(start, provider, n))
  }

  lemma PlainPrefix(start: Table, provider: ProviderId, listing: seq<PhoneNumber>)
    requires listing != [] && Plain(start, provider, listing)
    ensures Plain(start, provider, listing[..|listing| - 1])
    ensures listing[|listing| - 1] !in listing[..|listing| - 1]
  {
    var before := listing[..|listing| - 1];
    assert forall n <- before :: n in listing;
  }

  /** Active rows were active before the pass or have had their turn; an active entry is the colour of an active row. */
  ghost predicate Awake(t: Table, start: Table, done: seq<PhoneNumber>) {
    forall m <- t :: t[m].active ==> m in done || (m in start && start[m].active)
  }

  ghost predicate Held(p: Pass) {
    forall c <- p.active :: exists m <- p.table :: p.table[m].active && p.table[m].color == Some(c)
  }

  /** Two active rows share a colour. */
  ghost predicate Clash(t: Table) {
    exists m, n :: m in t && n in t && m != n && t[m].active && t[n].active && t[m].color.Some? &&
      t[m].color == t[n].color
  }

  lemma {:induction false} ReclaimedLeavesActive(t: Table, order: seq<PhoneNumber>, c: int)
    ensures Reclaimed(t, order, c).Keys == t.Keys
    ensures forall m <- t :: t[m].active ==> Reclaimed(t, order, c)[m] == t[m]
    ensures forall m <- t :: Reclaimed(t, order, c)[m].active == t[m].active
  {
    if order != [] && !(order[0] in t && !t[order[0]].active && t[order[0]].color == Some(c)) {
      ReclaimedLeavesActive(t, order[1..], c);
    }
  }

  /** Whatever the choice, one number wakes up with its colour and the rows already active stay as they are. */
  lemma ChoiceWakesOne(p: Pass, start: Table, order: seq<PhoneNumber>, provider: ProviderId, n: PhoneNumber)
    requires start.Keys <= p.table.Keys && NeedsChoice(start, provider, n)
    ensures var q, color := AddOne(p, start, order, provider, n), ChoiceFor(p, start, provider, n).color;
            && q.table.Keys == p.table.Keys + {n} && q.table[n].active && q.table[n].color == Some(color)
            && q.active == p.active + [color]
            && (forall m <- p.table :: m != n ==> q.table[m].active == p.table[m].active)
            && forall m <- p.table :: m != n && p.table[m].active ==> q.table[m] == p.table[m]
  {
    var choice := ChoiceFor(p, start, provider, n);
    if choice.reclaimFrom.Some? { ReclaimedLeavesActive(p.table, order, choice.reclaimFrom.value); }
  }

  /** Without room a number that sleeps or is new clashes with the active row that holds its colour. */
  lemma ChoiceWithoutRoomClashes(p: Pass, start: Table, order: seq<PhoneNumber>, provider: ProviderId, n: PhoneNumber)
    requires start.Keys <= p.table.Keys && NeedsChoice(start, provider, n)
    requires !(n in p.table && p.table[n].active) && Held(p) && !HasRoom(p.active)
    ensures Clash(AddOne(p, start, order, provider, n).table)
  {
    ChoiceWakesOne(p, start, order, provider, n);
    ChoiceIsFreshExactly(None, p.active, p.inactive);
    if Owned(start, provider, n) {
      ChoiceIsFreshExactly(start[n].color, p.active, Without(p.inactive, start[n].color));
    }
    var color, q := ChoiceFor(p, start, provider, n).color, AddOne(p, start, order, provider, n);
    var m :| m in p.table && p.table[m].active && p.table[m].color == Some(color);
    assert q.table[m] == p.table[m] && m != n;
  }

  /** What every choice keeps: the rows awake, the entries held, and a clash once there. */
  lemma ChoiceKeepsAwake(p: Pass, start: Table, order: seq<PhoneNumber>, provider: ProviderId, n: PhoneNumber,
        done: seq<PhoneNumber>)
    requires start.Keys <= p.table.Keys && NeedsChoice(start, provider, n)
    requires !(n in p.table && p.table[n].active) && Awake(p.table, start, done) && Held(p)
    ensures var q := AddOne(p, start, order, provider, n);
            && start.Keys <= q.table.Keys && Awake(q.table, start, done + [n]) && Held(q)
            && (Clash(p.table) ==> Clash(q.table))
  {
    ChoiceWakesOne(p, start, order, provider, n);
    var color, q := ChoiceFor(p, start, provider, n).color, AddOne(p, start, order, provider, n);
    forall c | c in q.active ensures exists m <- q.table :: q.table[m].active && q.table[m].color == Some(c) {
      if c in p.active {
        var m :| m in p.table && p.table[m].active && p.table[m].color == Some(c);
        assert q.table[m] == p.table[m];
      } else {
        assert q.table[n].color == Some(c);
      }
    }
    if Clash(p.table) {
      var a, b :| a in p.table && b in p.table && a != b && p.table[a].active && p.table[b].active
                  && p.table[a].color.Some? && p.table[a].color == p.table[b].color;
      assert q.table[a] == p.table[a] && q.table[b] == p.table[b];
    }
  }

  /** Where the first loop stands: rows awake, entries held, and a clash once past the budget. */
  ghost predicate Underway(p: Pass, start: Table, done: seq<PhoneNumber>, overspent: bool) {
    start.Keys <= p.table.Keys && Awake(p.table, start, done) && Held(p) && (overspent ==> Clash(p.table))
  }

  lemma BeforeIsUnderway(start: Table, order: seq<PhoneNumber>)
    ensures Underway(Before(start, order), start, [], false)
  {
    forall c | c in Usage(start, order, true)
      ensures exists m <- start :: start[m].active && start[m].color == Some(c)
    {
      var m := UsageIsHeld(start, order, true, c);
    }
  }

  lemma StaysUnderway(p: Pass, start: Table, order: seq<PhoneNumber>, provider: ProviderId, n: PhoneNumber,
                      done: seq<PhoneNumber>, overspent: bool)
    requires Underway(p, start, done, overspent) && n !in done
    requires n in start && start[n].active ==> Owned(start, provider, n)
    ensures Underway(AddOne(p, start, order, provider, n), start, done + [n], overspent)
    ensures NeedsChoice(start, provider, n) && !HasRoom(p.active) ==> Clash(AddOne(p, start, order, provider, n).table)
  {
    if NeedsChoice(start, provider, n) {
      ChoiceKeepsAwake(p, start, order, provider, n, done);
      if !HasRoom(p.active) { ChoiceWithoutRoomClashes(p, start, order, provider, n); }
    }
  }

  /** Past the budget two active rows share a colour. */
  lemma {:induction false} AddAllClashes(start: Table, order: seq<PhoneNumber>, provider: ProviderId,
        listing: seq<PhoneNumber>)
    requires Unique(start) && RowOrder(start, order) && Plain(start, provider, listing)
    ensures Underway(AddAll(Before(start, order), start, order, provider, listing), start, listing,
                     !WithinBudget(start, order, provider, listing))
  {
    if listing == [] {
      BeforeIsUnderway(start, order);
    } else {
      var before, n := listing[..|listing| - 1], listing[|listing| - 1];
      PlainPrefix(start, provider, listing);
      AddAllClashes(start, order, provider, before);
      var p := AddAll(Before(start, order), start, order, provider, before);
      assert listing == before + [n] && n in listing;
      StaysUnderway(p, start, order, provider, n, before, !WithinBudget(start, order, provider, before));
      if WithinBudget(start, order, provider, before) {
        AddAllKeeps(start, order, provider, before);
        RoomIsFreeColor(p.active);
      }
    }
  }

  /**
    A synchronisation keeps colours unique exactly when it makes no more choices than
    active numbers leave palette colours free, for a listing without repeats of numbers
    that no other provider has active.
   */
  lemma SyncUniqueExactly(t: Table, order: seq<PhoneNumber>, provider: ProviderId, listing: seq<PhoneNumber>)
    requires Unique(t) && RowOrder(t, order) && Plain(t, provider, listing)
    ensures Unique(Sync(t, order, provider, listing).table) <==> WithinBudget(t, order, provider, listing)
  {
    if WithinBudget(t, order, provider, listing) {
      SyncKeepsUnique(t, order, provider, listing);
    } else {
      AddAllClashes(t, order, provider, listing);
      var p := AddAll(Before(t, order), t, order, provider, listing);
      OrphanKeepsColors(p, t, provider, listing, order);
      var m, n :| m in p.table && n in p.table && m != n && p.table[m].active && p.table[n].active
                  && p.table[m].color.Some? && p.table[m].color == p.table[n].color;
      var q := Sync(t, order, provider, listing).table;
      assert q[m].color == q[n].color && q[m].color.Some?;
    }
  }

  /** In particular a number seen for the first time gets a colour of its own exactly when active numbers leave one. */
  lemma {:induction false} NewNumberUniqueExactly(t: Table, order: seq<PhoneNumber>, provider: ProviderId,
        n: PhoneNumber)
    requires Unique(t) && RowOrder(t, order) && n !in t
    ensures Unique(Sync(t, order, provider, [n]).table) <==> HasRoom(Usage(t, order, true))
  {
    assert [n][..0] == [] && Choices(t, provider, []) == 0;
    assert Choices(t, provider, [n]) == 1;
    SyncUniqueExactly(t, order, provider, [n]);
    RoomIsFreeColor(Usage(t, order, true));
  }

  // ---------------------------------------------------------------- histories

  datatype Op =
    | DoSync(provider: ProviderId, listing: seq<PhoneNumber>, order: seq<PhoneNumber>)
    | DoSetActive(number: PhoneNumber, active: bool)
    | DoRemoveProvider(provider: ProviderId)

  function SetActive(t: Table, n: PhoneNumber, active: bool): Table {
    if n in t then t[n := t[n].(active := active)] else t
  }

  function RemoveProvider(t: Table, provider: ProviderId): Table {
    map n | n in t ::
      if t[n].provider == Some(provider) then t[n].(active := false, provider := None, name := None) else t[n]
  }

  function Apply(t: Table, op: Op): Table {
    match op
    case DoSync(provider, listing, order) => Sync(t, order, provider, listing).table
    case DoSetActive(n, active) => SetActive(t, n, active)
    case DoRemoveProvider(provider) => RemoveProvider(t, provider)
  }

  function History(t: Table, ops: seq<Op>): Table {
    if ops == [] then t else Apply(History(t, ops[..|ops| - 1]), ops[|ops| - 1])
  }

  /** Each synchronisation sees the rows of the table, in some order, and stays within its budget. */
  ghost predicate Affordable(t: Table, ops: seq<Op>) {
    ops != [] ==>
      var before, op := History(t, ops[..|ops| - 1]), ops[|ops| - 1];
      && Affordable(t, ops[..|ops| - 1])
      && (op.DoSync? ==> RowOrder(before, op.order) && WithinBudget(before, op.order, op.provider, op.listing))
  }

  /** Over any history of synchronisations, (de)activations and provider removals no two numbers share a colour. */
  lemma {:induction false} ColorsStayUnique(t: Table, ops: seq<Op>)
    requires Unique(t) && Affordable(t, ops)
    ensures Unique(History(t, ops))
  {
    if ops != [] {
      var before, op := ops[..|ops| - 1], ops[|ops| - 1];
      ColorsStayUnique(t, before);
      if op.DoSync? { SyncKeepsUnique(History(t, before), op.order, op.provider, op.listing); }
    }
  }
}
