/** What each operation of the number service leaves in the table, row by row. */
module NumberRows {
  import opened Basics
  import opened NumberColors

  /** n is listed by the provider: active under it; its name stays, and a number it already had active is as before. */
  ghost predicate ListedRow(t: Table, r: Table, provider: ProviderId, n: PhoneNumber) {
    && n in r && r[n].active && r[n].provider == Some(provider)
    && r[n].name == (if n in t then t[n].name else None)
    && (if n in t && t[n].provider == Some(provider) && t[n].active then r[n] == t[n]
        else r[n].color.Some? && 0 <= r[n].color.value < 16)
  }

  /** n is as before, except that an inactive number may have lost its colour. */
  ghost predicate OtherRow(t: Table, r: Table, n: PhoneNumber) {
    && (n in r <==> n in t)
    && (n in t ==> r[n] == t[n] || (!t[n].active && r[n] == t[n].(color := None)))
  }

  /** n was active under the provider, which lists it no more. */
  ghost predicate Gone(t: Table, provider: ProviderId, listing: seq<PhoneNumber>, n: PhoneNumber) {
    n in t && t[n].provider == Some(provider) && t[n].active && n !in listing
  }

  ghost predicate GoneRow(t: Table, r: Table, n: PhoneNumber) {
    n in t && n in r && r[n] == t[n].(active := false, provider := None)
  }

  // ---------------------------------------------------------------- the first loop

  /** Where the first loop stands after `done`. */
  ghost predicate Added(t: Table, r: Table, provider: ProviderId, done: seq<PhoneNumber>) {
    && (forall n <- done :: ListedRow(t, r, provider, n))
    && (forall n {:trigger OtherRow(t, r, n)} :: n !in done ==> OtherRow(t, r, n))
  }

  lemma {:induction false} ReclaimedRows(t: Table, order: seq<PhoneNumber>, c: int)
    ensures var r := Reclaimed(t, order, c);
            r.Keys == t.Keys &&
            forall n <- t :: r[n] == t[n] || (!t[n].active && t[n].color == Some(c) && r[n] == t[n].(color := None))
  {
    if order != [] && !(order[0] in t && !t[order[0]].active && t[order[0]].color == Some(c)) {
      ReclaimedRows(t, order[1..], c);
    }
  }

  /** The table after an assignment: the row written, the rest as before but for a reclaimed colour. */
  lemma AssignedRows(p: Pass, order: seq<PhoneNumber>, choice: Choice, n: PhoneNumber, row: Row)
    ensures var q := Assign(p, order, choice, n, row).table;
            && q.Keys == p.table.Keys + {n} && q[n] == row
            && forall m <- p.table :: m != n ==>
                 q[m] == p.table[m] || (!p.table[m].active && q[m] == p.table[m].(color := None))
  {
    if choice.reclaimFrom.Some? { ReclaimedRows(p.table, order, choice.reclaimFrom.value); }
  }

  /** A row for n is written, and no active row but n's changes. */
  ghost predicate Writes(r: Table, q: Table, n: PhoneNumber, row: Row) {
    && q.Keys == r.Keys + {n} && q[n] == row
    && forall m <- r :: m != n ==> q[m] == r[m] || (!r[m].active && q[m] == r[m].(color := None))
  }

  /** What a listed number's new row must be. */
  ghost predicate GoodRow(t: Table, provider: ProviderId, n: PhoneNumber, row: Row) {
    && row.active && row.provider == Some(provider) && row.name == (if n in t then t[n].name else None)
    && row.color.Some? && 0 <= row.color.value < 16
    && !(n in t && t[n].provider == Some(provider) && t[n].active)
  }

  lemma WriteAdds(t: Table, r: Table, q: Table, provider: ProviderId, done: seq<PhoneNumber>, n: PhoneNumber, row: Row)
    requires Added(t, r, provider, done) && Writes(r, q, n, row) && GoodRow(t, provider, n, row)
    ensures Added(t, q, provider, done + [n])
  {
    forall m | m in done + [n] ensures ListedRow(t, q, provider, m) {
      if m != n { assert m in done && ListedRow(t, r, provider, m); }
    }
    forall m | m !in done + [n] ensures OtherRow(t, q, m) {
      assert m !in done && m != n && OtherRow(t, r, m);
    }
  }

  lemma KnownName(t: Table, r: Table, provider: ProviderId, done: seq<PhoneNumber>, n: PhoneNumber)
    requires Added(t, r, provider, done)
    ensures (if n in r then r[n].name else None) == (if n in t then t[n].name else None)
    ensures Owned(t, provider, n) ==> n in r && r[n].provider == Some(provider)
  {
    if n in done { assert ListedRow(t, r, provider, n); } else { assert OtherRow(t, r, n); }
  }

  lemma AddOneRows(p: Pass, t: Table, order: seq<PhoneNumber>, provider: ProviderId, done: seq<PhoneNumber>,
        n: PhoneNumber)
    requires Added(t, p.table, provider, done)
    ensures Added(t, AddOne(p, t, order, provider, n).table, provider, done + [n])
  {
    var q := AddOne(p, t, order, provider, n).table;
    KnownName(t, p.table, provider, done, n);
    if !Owned(t, provider, n) {
      var choice := ChooseColor(None, p.active, p.inactive);
      var row := Upserted(p.table, provider, n, choice.color);
      ChoiceIsFreshExactly(None, p.active, p.inactive);
      AssignedRows(p, order, choice, n, row);
      WriteAdds(t, p.table, q, provider, done, n, row);
    } else if t[n].active {
      AlreadyActive(t, p.table, provider, done, n);
    } else {
      var freed := p.(inactive := Without(p.inactive, t[n].color));
      var choice := ChooseColor(t[n].color, freed.active, freed.inactive);
      var row := p.table[n].(active := true, color := Some(choice.color));
      ChoiceIsFreshExactly(t[n].color, freed.active, freed.inactive);
      AssignedRows(freed, order, choice, n, row);
      WriteAdds(t, p.table, q, provider, done, n, row);
    }
  }

  lemma AlreadyActive(t: Table, r: Table, provider: ProviderId, done: seq<PhoneNumber>, n: PhoneNumber)
    requires Added(t, r, provider, done) && Owned(t, provider, n) && t[n].active
    ensures Added(t, r, provider, done + [n])
  {
    if n !in done { assert OtherRow(t, r, n); }
    forall m | m in done + [n] ensures ListedRow(t, r, provider, m) {
      if m in done { assert ListedRow(t, r, provider, m); }
    }
  }

  lemma {:induction false} AddAllRows(t: Table, order: seq<PhoneNumber>, provider: ProviderId,
        listing: seq<PhoneNumber>)
    ensures Added(t, AddAll(Before(t, order), t, order, provider, listing).table, provider, listing)
  {
    if listing == [] {
      forall n ensures OtherRow(t, t, n) {}
    } else {
      var before, n := listing[..|listing| - 1], listing[|listing| - 1];
      AddAllRows(t, order, provider, before);
      AddOneRows(AddAll(Before(t, order), t, order, provider, before), t, order, provider, before, n);
      assert listing == before + [n];
    }
  }

  // ---------------------------------------------------------------- the second loop

  /** After the rows `seen` the numbers that are gone are detached; the others are as the first loop left them. */
  ghost predicate Orphaned(t: Table, a: Table, r: Table, provider: ProviderId, listing: seq<PhoneNumber>,
        seen: seq<PhoneNumber>) {
    && r.Keys == a.Keys
    && forall n <- a :: if Gone(t, provider, listing, n) && n in seen then GoneRow(t, r, n) else r[n] == a[n]
  }

  lemma {:induction false} OrphanAllRows(t: Table, p: Pass, provider: ProviderId, listing: seq<PhoneNumber>,
        rows: seq<PhoneNumber>)
    requires Added(t, p.table, provider, listing)
    ensures Orphaned(t, p.table, OrphanAll(p, t, provider, listing, rows).table, provider, listing, rows)
  {
    if rows != [] {
      var before, n := rows[..|rows| - 1], rows[|rows| - 1];
      OrphanAllRows(t, p, provider, listing, before);
      OrphanOneRow(t, p, OrphanAll(p, t, provider, listing, before), provider, listing, before, n);
      assert rows == before + [n];
    }
  }

  lemma OrphanOneRow(t: Table, p: Pass, q: Pass, provider: ProviderId, listing: seq<PhoneNumber>,
        seen: seq<PhoneNumber>, n: PhoneNumber)
    requires Added(t, p.table, provider, listing)
    requires Orphaned(t, p.table, q.table, provider, listing, seen)
    ensures Orphaned(t, p.table, OrphanOne(q, t, provider, listing, n).table, provider, listing, seen + [n])
  {
    if Gone(t, provider, listing, n) { assert OtherRow(t, p.table, n); }
  }

  // ---------------------------------------------------------------- the whole pass

  /**
    What a synchronisation leaves in the table: an active number of this provider that is not
    listed is deactivated and detached, keeping name and colour; every listed number is active
    under the provider and keeps its name, with a palette colour unless it was active before,
    which changes nothing; every other number is as before, except that an inactive one may
    have lost its colour.
   */
  lemma {:induction false} SyncRows(t: Table, order: seq<PhoneNumber>, provider: ProviderId,
        listing: seq<PhoneNumber>, n: PhoneNumber)
    requires RowOrder(t, order)
    ensures var r := Sync(t, order, provider, listing).table;
            && (Gone(t, provider, listing, n) ==> GoneRow(t, r, n))
            && (n in listing ==> ListedRow(t, r, provider, n))
            && (n !in listing && !Gone(t, provider, listing, n) ==> OtherRow(t, r, n))
  {
    var p := AddAll(Before(t, order), t, order, provider, listing);
    AddAllRows(t, order, provider, listing);
    OrphanAllRows(t, p, provider, listing, order);
    if n in listing { assert ListedRow(t, p.table, provider, n); } else { assert OtherRow(t, p.table, n); }
  }

  // ---------------------------------------------------------------- lost colours

  /** A colour an inactive number has lost is the colour of a listed one. */
  ghost predicate PassedOn(t: Table, r: Table, done: seq<PhoneNumber>) {
    forall n <- t :: n !in done && n in r && r[n].color != t[n].color ==>
      exists m :: m in done && m in r && r[m].color == t[n].color
  }

  lemma WritePassesOn(t: Table, p: Pass, q: Table, order: seq<PhoneNumber>, provider: ProviderId,
        done: seq<PhoneNumber>, choice: Choice, n: PhoneNumber, row: Row)
    requires Added(t, p.table, provider, done) && PassedOn(t, p.table, done) && n !in done
    requires choice.reclaimFrom.Some? ==> choice.reclaimFrom.value == choice.color
    requires q == Assign(p, order, choice, n, row).table && row.color == Some(choice.color)
    ensures PassedOn(t, q, done + [n])
  {
    if choice.reclaimFrom.Some? { ReclaimedRows(p.table, order, choice.color); }
    forall m | m in t && m !in done + [n] && m in q && q[m].color != t[m].color
      ensures exists k :: k in done + [n] && k in q && q[k].color == t[m].color
    {
      assert OtherRow(t, p.table, m);
      if p.table[m].color != t[m].color {
        var k :| k in done && k in p.table && p.table[k].color == t[m].color;
        assert ListedRow(t, p.table, provider, k) && k in done + [n] && q[k].color == t[m].color;
      } else {
        assert t[m].color == Some(choice.color);
        assert n in done + [n] && q[n].color == t[m].color;
      }
    }
  }

  lemma AddOnePassesOn(t: Table, p: Pass, order: seq<PhoneNumber>, provider: ProviderId, done: seq<PhoneNumber>,
        n: PhoneNumber)
    requires Added(t, p.table, provider, done) && PassedOn(t, p.table, done) && n !in done
    ensures PassedOn(t, AddOne(p, t, order, provider, n).table, done + [n])
  {
    var q := AddOne(p, t, order, provider, n).table;
    KnownName(t, p.table, provider, done, n);
    if !Owned(t, provider, n) {
      var choice := ChooseColor(None, p.active, p.inactive);
      ChoiceIsFreshExactly(None, p.active, p.inactive);
      WritePassesOn(t, p, q, order, provider, done, choice, n, Upserted(p.table, provider, n, choice.color));
    } else if !t[n].active {
      var freed := p.(inactive := Without(p.inactive, t[n].color));
      var choice := ChooseColor(t[n].color, freed.active, freed.inactive);
      ChoiceIsFreshExactly(t[n].color, freed.active, freed.inactive);
      WritePassesOn(t, freed, q, order, provider, done, choice, n,
                    p.table[n].(active := true, color := Some(choice.color)));
    } else {
      forall m | m in t && m !in done + [n] && m in q && q[m].color != t[m].color
        ensures exists k :: k in done + [n] && k in q && q[k].color == t[m].color
      {
        var k :| k in done && k in q && q[k].color == t[m].color;
        assert k in done + [n];
      }
    }
  }

  ghost predicate NoRepeats(listing: seq<PhoneNumber>) {
    forall i, j :: 0 <= i < j < |listing| ==> listing[i] != listing[j]
  }

  lemma {:induction false} AddAllPassesOn(t: Table, order: seq<PhoneNumber>, provider: ProviderId,
        listing: seq<PhoneNumber>)
    requires NoRepeats(listing)
    ensures PassedOn(t, AddAll(Before(t, order), t, order, provider, listing).table, listing)
  {
    if listing != [] {
      var before, n := listing[..|listing| - 1], listing[|listing| - 1];
      AddAllPassesOn(t, order, provider, before);
      AddAllRows(t, order, provider, before);
      AddOnePassesOn(t, AddAll(Before(t, order), t, order, provider, before), order, provider, before, n);
      assert listing == before + [n];
    }
  }

  /** A number outside the listing loses its colour only to a listed one, which then has it. */
  lemma {:induction false} ColorsArePassedOn(t: Table, order: seq<PhoneNumber>, provider: ProviderId,
        listing: seq<PhoneNumber>, n: PhoneNumber)
    requires RowOrder(t, order) && NoRepeats(listing) && n in t && n !in listing
    ensures var r := Sync(t, order, provider, listing).table;
            n in r && (r[n].color != t[n].color ==> exists m :: m in listing && m in r && r[m].color == t[n].color)
  {
    var p := AddAll(Before(t, order), t, order, provider, listing);
    SyncRows(t, order, provider, listing, n);
    AddAllRows(t, order, provider, listing);
    AddAllPassesOn(t, order, provider, listing);
    OrphanAllRows(t, p, provider, listing, order);
    if Sync(t, order, provider, listing).table[n].color != t[n].color {
      assert p.table[n].color != t[n].color;
      var m :| m in listing && m in p.table && p.table[m].color == t[n].color;
    }
  }

  // ---------------------------------------------------------------- the other operations

  /** (De)activating a number changes that flag of that row alone, and removing a provider the rows it has. */
  lemma OtherOperations(t: Table, n: PhoneNumber, active: bool, provider: ProviderId, m: PhoneNumber)
    ensures m in Apply(t, DoSetActive(n, active)) <==> m in t
    ensures m in t ==> Apply(t, DoSetActive(n, active))[m] == if m == n then t[m].(active := active) else t[m]
    ensures m in Apply(t, DoRemoveProvider(provider)) <==> m in t
    ensures m in t ==> Apply(t, DoRemoveProvider(provider))[m] ==
                       if t[m].provider == Some(provider) then Row(None, t[m].color, false, None) else t[m]
  {
  }
}
