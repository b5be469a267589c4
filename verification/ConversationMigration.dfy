/**
  Migration 014 on the conversations table: up changes the identity of a conversation
  from the remote number to the pair of own and remote number, down collapses it again.
  Numbers are compared only for equality, and in down by the database's order on text;
  `rank` is a number's place in that order.
 */
module ConversationMigration {
  import opened Basics

  datatype Number = Number(rank: int)

  /** The empty string, which stands for an unknown own number, comes first in the order. */
  const UNKNOWN := Number(0)

  datatype Message = Message(provider: Option<Number>, phone: Number, preview: string, time: int)

  datatype Conversation = Conversation(preview: Option<string>, time: Option<int>, removed: bool, created: int)

  datatype Key = Key(provider: Number, phone: Number)

  // ---------------------------------------------------------------- up

  predicate Bears(m: Message, phone: Number, provider: Option<Number>) {
    m.phone == phone && m.provider.Some? && (provider.Some? ==> m.provider == provider)
  }

  /** The newest message to a remote number that names an own number, or names this one; the first of several. */
  function Newest(messages: seq<Message>, phone: Number, provider: Option<Number>): (newest: Option<Message>)
    ensures newest.Some? ==> Bears(newest.value, phone, provider)
  {
    if messages == [] then None
    else
      var before, m := Newest(messages[..|messages| - 1], phone, provider), messages[|messages| - 1];
      if Bears(m, phone, provider) && (before.None? || before.value.time < m.time) then Some(m) else before
  }

  lemma {:induction false} NewestIsNewest(messages: seq<Message>, phone: Number, provider: Option<Number>)
    ensures match Newest(messages, phone, provider)
            case Some(n) => n in messages && Bears(n, phone, provider) &&
              (forall m <- messages :: Bears(m, phone, provider) ==> m.time <= n.time)
            case None => forall m <- messages :: !Bears(m, phone, provider)
  {
    if messages != [] {
      var before := messages[..|messages| - 1];
      NewestIsNewest(before, phone, provider);
      assert messages == before + [messages[|messages| - 1]];
    }
  }

  /** The own number a conversation row is given. */
  function Backfill(messages: seq<Message>, phone: Number): Number {
    match Newest(messages, phone, None) case Some(m) => m.provider.value case None => UNKNOWN
  }

  function Backfilled(was: map<Number, Conversation>, messages: seq<Message>): map<Key, Conversation> {
    map k | k in (set phone | phone in was :: Key(Backfill(messages, phone), phone)) :: was[k.phone]
  }

  /** The pairs of numbers that messages name. */
  function Pairs(messages: seq<Message>): set<Key> {
    set m | m in messages && m.provider.Some? :: Key(m.provider.value, m.phone)
  }

  /** The row the split inserts: text and time of the thread's newest message, the rest from the original row. */
  function SplitRow(was: map<Number, Conversation>, messages: seq<Message>, k: Key): Conversation
    requires k.phone in was
  {
    var newest := Newest(messages, k.phone, Some(k.provider));
    if newest.None? then was[k.phone]
    else Conversation(Some(newest.value.preview), Some(newest.value.time), was[k.phone].removed, was[k.phone].created)
  }

  function Up(was: map<Number, Conversation>, messages: seq<Message>): map<Key, Conversation> {
    var first := Backfilled(was, messages);
    first + map k | k in Pairs(messages) && k.phone in was && k !in first :: SplitRow(was, messages, k)
  }

  /**
    up: one row per pair, for exactly the backfilled pairs and the pairs that messages to
    known remote numbers name; backfilled rows keep their content, split rows hold their
    thread's newest message.
   */
  lemma UpExactly(was: map<Number, Conversation>, messages: seq<Message>)
    ensures forall k :: k in Up(was, messages) <==>
                          k.phone in was && (k.provider == Backfill(messages, k.phone) || k in Pairs(messages))
    ensures forall phone <- was :: Up(was, messages)[Key(Backfill(messages, phone), phone)] == was[phone]
    ensures forall k <- Up(was, messages) :: k.provider != Backfill(messages, k.phone) ==>
              exists m <- messages :: Bears(m, k.phone, Some(k.provider))
                && Up(was, messages)[k].time == Some(m.time) && Up(was, messages)[k].preview == Some(m.preview)
                && Up(was, messages)[k].removed == was[k.phone].removed
                && Up(was, messages)[k].created == was[k.phone].created
                && forall other <- messages :: Bears(other, k.phone, Some(k.provider)) ==> other.time <= m.time
  {
    var first, all := Backfilled(was, messages), Up(was, messages);
    assert forall phone <- was :: Key(Backfill(messages, phone), phone) in first;
    forall k | k in all && k.provider != Backfill(messages, k.phone)
      ensures exists m <- messages :: Bears(m, k.phone, Some(k.provider))
                && all[k].time == Some(m.time) && all[k].preview == Some(m.preview)
                && all[k].removed == was[k.phone].removed && all[k].created == was[k.phone].created
                && forall other <- messages :: Bears(other, k.phone, Some(k.provider)) ==> other.time <= m.time
    {
      assert k !in first && k in Pairs(messages);
      var named :| named in messages && named.provider == Some(k.provider) && named.phone == k.phone;
      assert Bears(named, k.phone, Some(k.provider));
      NewestIsNewest(messages, k.phone, Some(k.provider));
    }
  }

  ghost predicate Names(messages: seq<Message>, k: Key) {
    exists m <- messages :: m.phone == k.phone && m.provider == Some(k.provider)
  }

  predicate Unnamed(messages: seq<Message>, phone: Number) {
    forall m <- messages :: m.phone == phone ==> m.provider == None
  }

  /** up's rows: a row per pair a message to a known number names, and one for every known number no message names. */
  lemma UpRows(was: map<Number, Conversation>, messages: seq<Message>, k: Key)
    ensures k in Up(was, messages) <==>
            k.phone in was && (Names(messages, k) || (k.provider == UNKNOWN && Unnamed(messages, k.phone)))
  {
    UpExactly(was, messages);
    NewestIsNewest(messages, k.phone, None);
    assert Names(messages, k) <==> k in Pairs(messages);
  }

  /** m is a newest message to its number among those that name an own number, or among those of its pair. */
  ghost predicate NewestToPhone(messages: seq<Message>, m: Message) {
    && m in messages && m.provider.Some?
    && forall other <- messages :: other.phone == m.phone && other.provider.Some? ==> other.time <= m.time
  }

  ghost predicate NewestOfPair(messages: seq<Message>, m: Message, k: Key) {
    && m in messages && m.phone == k.phone && m.provider == Some(k.provider)
    && forall other <- messages :: other.phone == k.phone && other.provider == m.provider ==> other.time <= m.time
  }

  /** k0 keeps its number's row: it names the own number of a newest message, the empty one without any. */
  ghost predicate Inherits(messages: seq<Message>, k0: Key) {
    if Unnamed(messages, k0.phone) then k0.provider == UNKNOWN
    else exists m <- messages :: NewestToPhone(messages, m) && m.phone == k0.phone && m.provider == Some(k0.provider)
  }

  /** A row made for k by the split: its thread's newest message, the rest from the number's row. */
  ghost predicate SplitOff(messages: seq<Message>, k: Key, was: Conversation, row: Conversation) {
    exists m <- messages :: NewestOfPair(messages, m, k)
      && row == Conversation(Some(m.preview), Some(m.time), was.removed, was.created)
  }

  lemma InheritingKey(messages: seq<Message>, phone: Number)
    ensures Inherits(messages, Key(Backfill(messages, phone), phone))
  {
    NewestIsNewest(messages, phone, None);
    var newest := Newest(messages, phone, None);
    if newest.Some? {
      assert newest.value in messages && NewestToPhone(messages, newest.value);
      assert !Unnamed(messages, phone);
    } else {
      forall m | m in messages && m.phone == phone ensures m.provider == None {
        assert !Bears(m, phone, None);
      }
    }
  }

  lemma SplitsOff(was: map<Number, Conversation>, messages: seq<Message>, k: Key)
    requires k in Up(was, messages) && k.provider != Backfill(messages, k.phone)
    ensures k.phone in was && SplitOff(messages, k, was[k.phone], Up(was, messages)[k])
  {
    UpExactly(was, messages);
    var row := Up(was, messages)[k];
    var m :| m in messages && Bears(m, k.phone, Some(k.provider)) && row.time == Some(m.time)
             && row.preview == Some(m.preview) && row.removed == was[k.phone].removed
             && row.created == was[k.phone].created
             && forall other <- messages :: Bears(other, k.phone, Some(k.provider)) ==> other.time <= m.time;
    forall other | other in messages && other.phone == k.phone && other.provider == m.provider
      ensures other.time <= m.time
    {
      assert Bears(other, k.phone, Some(k.provider));
    }
    assert NewestOfPair(messages, m, k);
    assert row == Conversation(Some(m.preview), Some(m.time), was[k.phone].removed, was[k.phone].created);
  }

  /** Of every known number one pair keeps the row as it was; each other pair's row is split off it. */
  lemma UpContents(was: map<Number, Conversation>, messages: seq<Message>, phone: Number)
    requires phone in was
    ensures exists k0 <- Up(was, messages) ::
              && k0.phone == phone && Inherits(messages, k0) && Up(was, messages)[k0] == was[phone]
              && forall k <- Up(was, messages) :: k.phone == phone && k != k0 ==>
                   SplitOff(messages, k, was[phone], Up(was, messages)[k])
  {
    UpExactly(was, messages);
    InheritingKey(messages, phone);
    var k0 := Key(Backfill(messages, phone), phone);
    var all := Up(was, messages);
    assert k0 in all && all[k0] == was[phone];
    forall k | k in all && k.phone == phone && k != k0 ensures SplitOff(messages, k, was[phone], all[k]) {
      SplitsOff(was, messages, k);
    }
  }

  /** With the foreign key of the old schema every pair a message names gets its row: no thread is lost. */
  lemma NoThreadLost(was: map<Number, Conversation>, messages: seq<Message>, m: Message)
    requires forall m <- messages :: m.phone in was
    requires m in messages && m.provider.Some?
    ensures Key(m.provider.value, m.phone) in Up(was, messages)
  {
    UpExactly(was, messages);
  }

  // ---------------------------------------------------------------- down

  /** COALESCE with the epoch. */
  function Activity(c: Conversation): int { match c.time case Some(t) => t case None => 0 }

  /** Row k of the table comes after row j in the order that down keeps the last of. */
  predicate Later(t: map<Key, Conversation>, j: Key, k: Key)
    requires j in t && k in t
  {
    Activity(t[j]) < Activity(t[k]) || (Activity(t[j]) == Activity(t[k]) && j.provider.rank < k.provider.rank)
  }

  /** The DELETE's condition: another row of the same remote number comes later. */
  predicate Beaten(t: map<Key, Conversation>, j: Key)
    requires j in t
  {
    exists k <- t :: k.phone == j.phone && k.provider != j.provider && Later(t, j, k)
  }

  function Survivors(t: map<Key, Conversation>): map<Key, Conversation> {
    map k | k in t && !Beaten(t, k) :: t[k]
  }

  /** down's table: the surviving rows under their remote number. */
  function Down(t: map<Key, Conversation>): map<Number, Conversation> {
    map phone | phone in (set k | k in Survivors(t) :: k.phone) :: t[Survivor(t, phone)]
  }

  /** The surviving row of a remote number; there is only one. */
  function Survivor(t: map<Key, Conversation>, phone: Number): (k: Key)
    requires exists k <- Survivors(t) :: k.phone == phone
    ensures k in Survivors(t) && k.phone == phone
  {
    OneSurvivor(t, phone);
    var k :| k in Survivors(t) && k.phone == phone;
    k
  }

  lemma OneSurvivor(t: map<Key, Conversation>, phone: Number)
    ensures forall j, k :: j in Survivors(t) && k in Survivors(t) && j.phone == k.phone == phone ==> j == k
  {
    forall j, k | j in t && k in t && j.phone == k.phone == phone && j != k ensures Beaten(t, j) || Beaten(t, k) {
      OneBeaten(t, j, k);
    }
  }

  lemma OneBeaten(t: map<Key, Conversation>, j: Key, k: Key)
    requires j in t && k in t && j.phone == k.phone && j != k
    ensures Beaten(t, j) || Beaten(t, k)
  {
    Ordered(t, j, j, k);
    if Later(t, j, k) { assert Beaten(t, j); } else { assert Beaten(t, k); }
  }

  /** Later is a total order on the rows of one remote number. */
  lemma Ordered(t: map<Key, Conversation>, i: Key, j: Key, k: Key)
    requires i in t && j in t && k in t && i.phone == j.phone == k.phone
    ensures Later(t, i, j) && Later(t, j, k) ==> Later(t, i, k)
    ensures j == k || Later(t, j, k) || Later(t, k, j)
    ensures Later(t, j, k) ==> !Later(t, k, j)
  {
    if j != k { assert j.provider.rank != k.provider.rank; }
  }

  /** Among finitely many rows of a remote number one comes last. */
  lemma {:induction false} LastRow(t: map<Key, Conversation>, rows: set<Key>, phone: Number) returns (last: Key)
    requires rows != {} && forall k <- rows :: k in t && k.phone == phone
    ensures last in rows && forall k <- rows :: k == last || Later(t, k, last)
  {
    var k :| k in rows;
    var rest := rows - {k};
    if rest == {} {
      last := k;
      assert rows == rest + {k};
    } else {
      var other := LastRow(t, rest, phone);
      last := if Later(t, k, other) then other else k;
      forall j | j in rows ensures j == last || Later(t, j, last) {
        Ordered(t, j, other, k);
        if j != k { assert j in rest; }
      }
    }
  }

  lemma SurvivorExists(t: map<Key, Conversation>, j: Key)
    requires j in t
    ensures exists k <- Survivors(t) :: k.phone == j.phone && (k == j || Later(t, j, k))
  {
    var rows := set k | k in t && k.phone == j.phone;
    assert j in rows;
    var last := LastRow(t, rows, j.phone);
    forall k | k in t && k.phone == last.phone && k.provider != last.provider ensures !Later(t, last, k) {
      assert k in rows;
      Ordered(t, k, last, k);
    }
    assert last in Survivors(t);
  }

  /** down keeps exactly one row per remote number: the last by time of activity, then own number. */
  lemma DownKeepsLatest(t: map<Key, Conversation>)
    ensures forall phone :: phone in Down(t) <==> exists k <- t :: k.phone == phone
    ensures forall k <- t ::
              && k.phone in Down(t)
              && (k == Survivor(t, k.phone) || Later(t, k, Survivor(t, k.phone)))
              && Down(t)[k.phone] == t[Survivor(t, k.phone)]
  {
    forall j | j in t
      ensures j.phone in Down(t)
      ensures j == Survivor(t, j.phone) || Later(t, j, Survivor(t, j.phone))
    {
      SurvivorExists(t, j);
      var k :| k in Survivors(t) && k.phone == j.phone && (k == j || Later(t, j, k));
      OneSurvivor(t, j.phone);
      assert Survivor(t, j.phone) == k;
    }
  }

  /** What a row is compared by: the time of its newest message, the epoch without one. */
  ghost predicate ActiveAt(c: Conversation, time: int) { c.time == Some(time) || (c.time == None && time == 0) }

  ghost predicate Before(t: map<Key, Conversation>, j: Key, k: Key)
    requires j in t && k in t
  {
    forall a, b :: ActiveAt(t[j], a) && ActiveAt(t[k], b) ==> a < b || (a == b && j.provider.rank < k.provider.rank)
  }

  /** down's row for a number is the row of the pair all others of that number come before. */
  lemma DownRows(t: map<Key, Conversation>, phone: Number)
    ensures phone in Down(t) <==> exists k <- t :: k.phone == phone
    ensures phone in Down(t) ==>
              exists k <- t :: k.phone == phone && Down(t)[phone] == t[k] &&
                               forall j <- t :: j.phone == phone && j != k ==> Before(t, j, k)
  {
    DownKeepsLatest(t);
    if phone in Down(t) {
      var k := Survivor(t, phone);
      forall j | j in t && j.phone == phone && j != k ensures Before(t, j, k) {
        assert Later(t, j, k);
      }
    }
  }

  lemma DownOfRow(t: map<Key, Conversation>, k: Key)
    requires k in t
    ensures k.phone in Down(t) && Activity(Down(t)[k.phone]) >= Activity(t[k])
  {
    DownKeepsLatest(t);
  }

  /** up then down: the same remote numbers, none with older activity than before. */
  lemma UpThenDown(was: map<Number, Conversation>, messages: seq<Message>)
    ensures forall phone :: phone in Down(Up(was, messages)) <==> phone in was
    ensures forall phone <- was :: Activity(Down(Up(was, messages))[phone]) >= Activity(was[phone])
  {
    var t := Up(was, messages);
    var back := Down(t);
    UpExactly(was, messages);
    forall phone | phone in was ensures phone in back && Activity(back[phone]) >= Activity(was[phone]) {
      DownOfRow(t, Key(Backfill(messages, phone), phone));
    }
    forall phone | phone in back ensures phone in was {
      OnlyPhonesOf(t, phone);
    }
  }

  lemma OnlyPhonesOf(t: map<Key, Conversation>, phone: Number)
    requires phone in Down(t)
    ensures exists k <- t :: k.phone == phone
  {
  }

  // ---------------------------------------------------------------- the statements

  class Database {
    var byPhone: map<Number, Conversation>
    var conversations: map<Key, Conversation>
    var messages: seq<Message>

    constructor (byPhone: map<Number, Conversation>, messages: seq<Message>)
      ensures this.byPhone == byPhone && this.messages == messages && conversations == map[]
    {
      this.byPhone, this.messages, conversations := byPhone, messages, map[];
    }

    /** The old table gains the column, is backfilled, re-keyed and split. */
    method MigrateUp()
      modifies this`byPhone, this`conversations
      ensures conversations == Up(old(byPhone), messages) && byPhone == map[]
    {
      var original := byPhone;
      conversations := Backfilled(byPhone, messages);
      byPhone := map[];
      var missing := set k | k in Pairs(messages) && k.phone in original && k !in conversations;
      var inserted := map k | k in missing :: SplitRow(original, messages, k);
      conversations := conversations + inserted;
      var first := Backfilled(original, messages);
      assert inserted == map k | k in Pairs(messages) && k.phone in original && k !in first ::
               SplitRow(original, messages, k);
    }

    /** The DELETE, then the table is keyed by remote number again. */
    method MigrateDown()
      modifies this`byPhone, this`conversations
      ensures byPhone == Down(old(conversations)) && conversations == map[]
    {
      var all := conversations;
      conversations := map k | k in all && !Beaten(all, k) :: all[k];
      assert conversations == Survivors(all);
      byPhone := map phone | phone in (set k | k in conversations :: k.phone) :: all[Survivor(all, phone)];
      conversations := map[];
    }
  }
}
