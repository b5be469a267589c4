/**
  Migration 013 and the reassign script: every active number, in a fixed order, gets the
  colour pickActiveColor names; inactive numbers keep theirs.
 */
module ReassignColors {
  import opened Basics
  import opened NumberColors

  predicate Unused(d: int, given: seq<int>) { InPalette(d) && d !in given }

  predicate Free(d: int, given: seq<int>, inactive: set<int>) { Unused(d, given) && d !in inactive }

  /**
    pickActiveColor's answer: the first palette colour that neither an active number
    done so far nor an inactive one holds; else the first that no active number done so
    far holds; else the first that fewest of them hold.
   */
  ghost predicate IsPick(c: int, given: seq<int>, inactive: set<int>) {
    if exists d: int :: Free(d, given, inactive) then
      Free(c, given, inactive) && forall d: int :: d < c ==> !Free(d, given, inactive)
    else if exists d: int :: Unused(d, given) then
      Unused(c, given) && forall d: int :: d < c ==> !Unused(d, given)
    else
      && InPalette(c)
      && (forall d: int :: InPalette(d) ==> Count(given, c) <= Count(given, d))
      && (forall d: int :: InPalette(d) && d < c ==> Count(given, c) < Count(given, d))
  }

  lemma OnlyOnePick(c: int, d: int, given: seq<int>, inactive: set<int>)
    requires IsPick(c, given, inactive) && IsPick(d, given, inactive)
    ensures c == d
  {
  }

  lemma PickExists(given: seq<int>, inactive: set<int>)
    ensures exists c: int :: IsPick(c, given, inactive)
  {
    if d: int :| Free(d, given, inactive) {
      var c := FirstFreeBelow(d, given, inactive);
      assert IsPick(c, given, inactive);
    } else if d: int :| Unused(d, given) {
      var c := FirstUnusedBelow(d, given);
      assert IsPick(c, given, inactive);
    } else {
      LeastUsedIsLeast(given, PALETTE_SIZE);
      assert IsPick(LeastUsed(given, PALETTE_SIZE), given, inactive);
    }
  }

  lemma {:induction false} FirstFreeBelow(d: int, given: seq<int>, inactive: set<int>) returns (c: int)
    requires Free(d, given, inactive)
    ensures Free(c, given, inactive) && forall e: int :: e < c ==> !Free(e, given, inactive)
    decreases d
  {
    c := d;
    if e: int :| e < d && Free(e, given, inactive) { c := FirstFreeBelow(e, given, inactive); }
  }

  lemma {:induction false} FirstUnusedBelow(d: int, given: seq<int>) returns (c: int)
    requires Unused(d, given)
    ensures Unused(c, given) && forall e: int :: e < c ==> !Unused(e, given)
    decreases d
  {
    c := d;
    if e: int :| e < d && Unused(e, given) { c := FirstUnusedBelow(e, given); }
  }

  /** Each row's colour is the pick after the rows before it. */
  ghost predicate IsAssignment(colors: seq<int>, inactive: set<int>) {
    forall i :: 0 <= i < |colors| ==> PickAt(colors, i, inactive)
  }

  ghost predicate PickAt(colors: seq<int>, i: int, inactive: set<int>)
    requires 0 <= i < |colors|
  {
    IsPick(colors[i], colors[..i], inactive)
  }

  lemma AssignmentSplits(colors: seq<int>, inactive: set<int>)
    requires colors != [] && IsAssignment(colors, inactive)
    ensures var before := colors[..|colors| - 1];
            colors == before + [colors[|colors| - 1]] && IsAssignment(before, inactive)
            && IsPick(colors[|colors| - 1], before, inactive)
  {
    var before := colors[..|colors| - 1];
    assert PickAt(colors, |before|, inactive);
    forall i | 0 <= i < |before| ensures PickAt(before, i, inactive) {
      assert PickAt(colors, i, inactive) && before[..i] == colors[..i];
    }
  }

  lemma AssignmentGrows(before: seq<int>, c: int, inactive: set<int>)
    requires IsAssignment(before, inactive) && IsPick(c, before, inactive)
    ensures IsAssignment(before + [c], inactive)
  {
    var colors := before + [c];
    forall i | 0 <= i < |colors| ensures PickAt(colors, i, inactive) {
      if i < |before| { assert PickAt(before, i, inactive); }
      assert colors[..i] == before[..i];
    }
  }

  /** For every number of rows there is one assignment. */
  lemma {:induction false} AssignmentExists(n: nat, inactive: set<int>) returns (colors: seq<int>)
    ensures |colors| == n && IsAssignment(colors, inactive)
  {
    colors := [];
    if n > 0 {
      var before := AssignmentExists(n - 1, inactive);
      PickExists(before, inactive);
      var c: int :| IsPick(c, before, inactive);
      AssignmentGrows(before, c, inactive);
      colors := before + [c];
    }
  }

  /** And only one. */
  lemma {:induction false} OnlyOneAssignment(a: seq<int>, b: seq<int>, inactive: set<int>)
    requires |a| == |b| && IsAssignment(a, inactive) && IsAssignment(b, inactive)
    ensures a == b
  {
    if a != [] {
      AssignmentSplits(a, inactive);
      AssignmentSplits(b, inactive);
      OnlyOneAssignment(a[..|a| - 1], b[..|b| - 1], inactive);
      OnlyOnePick(a[|a| - 1], b[|b| - 1], a[..|a| - 1], inactive);
    }
  }

  // ---------------------------------------------------------------- even shares

  /** The colour picked is one that fewest of the numbers done so far have. */
  lemma PickIsLeast(c: int, given: seq<int>, inactive: set<int>)
    requires IsPick(c, given, inactive)
    ensures InPalette(c)
    ensures forall d: int {:trigger Count(given, d)} :: InPalette(d) ==> Count(given, c) <= Count(given, d)
  {
    if d: int :| Free(d, given, inactive) { assert Unused(d, given); }
  }

  /** No colour is ahead of another by more than one. */
  ghost predicate Even(colors: seq<int>) {
    forall c: int, d: int {:trigger Count(colors, c), Count(colors, d)} ::
      InPalette(c) && InPalette(d) ==> Count(colors, c) <= Count(colors, d) + 1
  }

  lemma CountAppend(colors: seq<int>, x: int, c: int)
    ensures Count(colors + [x], c) == Count(colors, c) + if x == c then 1 else 0
  {
  }

  /** Entries of the first k palette colours. */
  function Sum(colors: seq<int>, k: nat): nat {
    if k == 0 then 0 else Sum(colors, k - 1) + Count(colors, k - 1)
  }

  lemma {:induction false} SumAppend(colors: seq<int>, x: int, k: nat)
    ensures Sum(colors + [x], k) == Sum(colors, k) + if 0 <= x < k then 1 else 0
  {
    if k > 0 {
      SumAppend(colors, x, k - 1);
      CountAppend(colors, x, k - 1);
    }
  }

  lemma {:induction false} SumEmpty(k: nat)
    ensures Sum([], k) == 0
  {
    if k > 0 { SumEmpty(k - 1); }
  }

  lemma {:induction false} AssignmentEven(colors: seq<int>, inactive: set<int>)
    requires IsAssignment(colors, inactive)
    ensures Even(colors)
  {
    if colors != [] {
      var before, x := colors[..|colors| - 1], colors[|colors| - 1];
      AssignmentSplits(colors, inactive);
      AssignmentEven(before, inactive);
      PickIsLeast(x, before, inactive);
      EvenAppend(before, x);
    }
  }

  lemma {:induction false} AssignmentTotal(colors: seq<int>, inactive: set<int>, k: nat)
    requires IsAssignment(colors, inactive) && k >= PALETTE_SIZE
    ensures Sum(colors, k) == |colors|
  {
    if colors == [] {
      SumEmpty(k);
    } else {
      var before, x := colors[..|colors| - 1], colors[|colors| - 1];
      AssignmentSplits(colors, inactive);
      AssignmentTotal(before, inactive, k);
      PickIsLeast(x, before, inactive);
      SumAppend(before, x, k);
    }
  }

  lemma {:induction false} AssignmentInPalette(colors: seq<int>, inactive: set<int>)
    requires IsAssignment(colors, inactive)
    ensures forall i :: 0 <= i < |colors| ==> InPalette(colors[i])
  {
    forall i | 0 <= i < |colors| ensures InPalette(colors[i]) {
      assert PickAt(colors, i, inactive);
      PickIsLeast(colors[i], colors[..i], inactive);
    }
  }

  lemma EvenAppend(colors: seq<int>, x: int)
    requires Even(colors) && InPalette(x)
    requires forall d: int {:trigger Count(colors, d)} :: InPalette(d) ==> Count(colors, x) <= Count(colors, d)
    ensures Even(colors + [x])
  {
    forall c: int, d: int | InPalette(c) && InPalette(d)
      ensures Count(colors + [x], c) <= Count(colors + [x], d) + 1
    {
      CountAppend(colors, x, c);
      CountAppend(colors, x, d);
    }
  }

  lemma {:induction false} SumBounds(colors: seq<int>, c: int, k: nat)
    requires Even(colors) && InPalette(c) && k <= PALETTE_SIZE
    ensures Sum(colors, k) <= k * (Count(colors, c) + 1) - (if c < k then 1 else 0)
    ensures Sum(colors, k) >= k * (Count(colors, c) - 1) + (if c < k then 1 else 0)
  {
    if k > 0 {
      SumBounds(colors, c, k - 1);
      var x := Count(colors, c);
      assert InPalette(k - 1) && x - 1 <= Count(colors, k - 1) <= x + 1;
      assert k * (x + 1) == (k - 1) * (x + 1) + (x + 1) && k * (x - 1) == (k - 1) * (x - 1) + (x - 1);
    }
  }

  /** n rows: every palette colour is given to n/16 of them, rounded down or up. */
  lemma EvenShares(colors: seq<int>, inactive: set<int>, c: int)
    requires IsAssignment(colors, inactive) && InPalette(c)
    ensures |colors| / PALETTE_SIZE <= Count(colors, c) <= (|colors| + PALETTE_SIZE - 1) / PALETTE_SIZE
  {
    AssignmentEven(colors, inactive);
    AssignmentTotal(colors, inactive, PALETTE_SIZE);
    SumBounds(colors, c, PALETTE_SIZE);
  }

  ghost predicate Distinct(colors: seq<int>) {
    forall i, j :: 0 <= i < j < |colors| ==> colors[i] != colors[j]
  }

  lemma TwiceCounts(colors: seq<int>, i: nat, j: nat)
    requires i < j < |colors| && colors[i] == colors[j]
    ensures Count(colors, colors[i]) >= 2
  {
    var a, b := colors[..j], colors[j..];
    assert colors == a + b && colors[i] == a[i] && colors[j] == b[0];
    assert colors[i] in a && colors[i] in b;
    assert multiset(colors) == multiset(a) + multiset(b);
  }

  lemma LastAgain(colors: seq<int>, x: int)
    ensures x in colors ==> !Distinct(colors + [x])
  {
    if x in colors {
      assert (colors + [x])[IndexOf(colors, x)] == (colors + [x])[|colors|];
    }
  }

  lemma {:induction false} DistinctCountsOnce(colors: seq<int>, c: int)
    requires Distinct(colors)
    ensures Count(colors, c) <= 1
  {
    if colors != [] {
      var before, x := colors[..|colors| - 1], colors[|colors| - 1];
      assert colors == before + [x];
      DistinctCountsOnce(before, c);
      CountAppend(before, x, c);
      LastAgain(before, x);
    }
  }

  /** Active numbers get pairwise distinct colours exactly when there are at most sixteen of them. */
  lemma DistinctExactly(colors: seq<int>, inactive: set<int>)
    requires IsAssignment(colors, inactive)
    ensures Distinct(colors) <==> |colors| <= PALETTE_SIZE
  {
    if |colors| <= PALETTE_SIZE {
      AssignmentInPalette(colors, inactive);
      forall i, j | 0 <= i < j < |colors| ensures colors[i] != colors[j] {
        EvenShares(colors, inactive, colors[i]);
        if colors[i] == colors[j] { TwiceCounts(colors, i, j); }
      }
    } else if Distinct(colors) {
      AssignmentTotal(colors, inactive, PALETTE_SIZE);
      AllOnce(colors, PALETTE_SIZE);
    }
  }

  lemma {:induction false} AllOnce(colors: seq<int>, k: nat)
    requires Distinct(colors)
    ensures Sum(colors, k) <= k
  {
    if k > 0 {
      AllOnce(colors, k - 1);
      DistinctCountsOnce(colors, k - 1);
    }
  }

  // ---------------------------------------------------------------- the loops

  /** The map the loops keep: entries per palette colour among the rows done so far. */
  ghost predicate CountsOf(counts: map<int, nat>, given: seq<int>) {
    && (forall c: int :: InPalette(c) <==> c in counts)
    && (forall c: int :: InPalette(c) ==> counts[c] == Count(given, c))
  }

  lemma CountOneMore(counts: map<int, nat>, given: seq<int>, color: int)
    requires CountsOf(counts, given) && InPalette(color)
    ensures CountsOf(counts[color := counts[color] + 1], given + [color])
  {
    forall c: int | InPalette(c) ensures counts[color := counts[color] + 1][c] == Count(given + [color], c) {
      CountAppend(given, color, c);
    }
  }

  method Pick(counts: map<int, nat>, ghost given: seq<int>, inactive: set<int>) returns (color: int)
    requires CountsOf(counts, given)
    ensures IsPick(color, given, inactive)
  {
    forall c: int | InPalette(c) ensures counts[c] == 0 <==> Unused(c, given) {
    }
    for c := 0 to PALETTE_SIZE
      invariant forall d: int :: d < c ==> !Free(d, given, inactive)
    {
      if counts[c] == 0 && c !in inactive {
        assert Free(c, given, inactive);
        return c;
      }
    }
    for c := 0 to PALETTE_SIZE
      invariant forall d: int :: d < c ==> !Unused(d, given)
    {
      if counts[c] == 0 {
        assert Unused(c, given);
        return c;
      }
    }
    var best := 0;
    for c := 0 to PALETTE_SIZE
      invariant InPalette(best)
      invariant forall d: int :: 0 <= d < c ==> counts[best] <= counts[d]
      invariant forall d: int :: 0 <= d < best ==> counts[best] < counts[d]
    {
      if counts[c] < counts[best] { best := c; }
    }
    color := best;
  }

  /** How many of the first k rows differ. */
  function Different(was: seq<Option<int>>, rows: seq<Option<int>>, k: nat): nat
    requires k <= |was| == |rows|
  {
    if k == 0 then 0 else Different(was, rows, k - 1) + if was[k - 1] != rows[k - 1] then 1 else 0
  }

  function Painted(colors: seq<int>): (rows: seq<Option<int>>)
    ensures |rows| == |colors|
  {
    seq(|colors|, i requires 0 <= i < |colors| => Some(colors[i]))
  }

  /** The assignment loop over the active rows; the script counts the rows it changes. */
  method Reassign(rows: array<Option<int>>, inactive: set<int>) returns (changed: nat, ghost colors: seq<int>)
    modifies rows
    ensures IsAssignment(colors, inactive) && rows[..] == Painted(colors)
    ensures changed == Different(old(rows[..]), rows[..], rows.Length)
  {
    ghost var was := rows[..];
    var counts := CountNone();
    changed, colors := 0, [];
    for i := 0 to rows.Length
      invariant |colors| == i && IsAssignment(colors, inactive) && CountsOf(counts, colors)
      invariant rows[..i] == Painted(colors)
      invariant rows[i..] == was[i..]
      invariant changed == Different(was, rows[..], i)
    {
      var color := Pick(counts, colors, inactive);
      counts := AddCount(counts, colors, inactive, color);
      AssignmentGrows(colors, color, inactive);
      assert rows[i] == was[i];
      ghost var before := rows[..];
      if rows[i] != Some(color) {
        changed := changed + 1;
        rows[i] := Some(color);
      }
      SameDifference(was, before, rows[..], i);
      colors := colors + [color];
    }
  }

  lemma {:induction false} SameDifference(was: seq<Option<int>>, a: seq<Option<int>>, b: seq<Option<int>>, k: nat)
    requires k <= |was| == |a| == |b| && a[..k] == b[..k]
    ensures Different(was, a, k) == Different(was, b, k)
  {
    if k > 0 {
      assert a[k - 1] == a[..k][k - 1] == b[..k][k - 1] == b[k - 1];
      assert a[..k - 1] == a[..k][..k - 1] == b[..k][..k - 1] == b[..k - 1];
      SameDifference(was, a, b, k - 1);
    }
  }

  method AddCount(counts: map<int, nat>, ghost given: seq<int>, inactive: set<int>, color: int)
    returns (more: map<int, nat>)
    requires CountsOf(counts, given) && IsPick(color, given, inactive)
    ensures CountsOf(more, given + [color])
  {
    PickIsLeast(color, given, inactive);
    CountOneMore(counts, given, color);
    more := counts[color := counts[color] + 1];
  }

  method CountNone() returns (counts: map<int, nat>)
    ensures CountsOf(counts, [])
  {
    counts := map[];
    for c := 0 to PALETTE_SIZE
      invariant forall d: int :: 0 <= d < c <==> d in counts
      invariant forall d: int :: 0 <= d < c ==> counts[d] == 0
    {
      counts := counts[c := 0];
    }
  }

  /** A second run changes nothing. */
  method ReassignTwice(rows: array<Option<int>>, inactive: set<int>) returns (changedAgain: nat)
    modifies rows
    ensures changedAgain == 0
  {
    var _, first := Reassign(rows, inactive);
    var changed, second := Reassign(rows, inactive);
    OnlyOneAssignment(first, second, inactive);
    NothingDifferent(Painted(first), rows.Length);
    changedAgain := changed;
  }

  lemma {:induction false} NothingDifferent(rows: seq<Option<int>>, k: nat)
    requires k <= |rows|
    ensures Different(rows, rows, k) == 0
  {
    if k > 0 { NothingDifferent(rows, k - 1); }
  }
}
