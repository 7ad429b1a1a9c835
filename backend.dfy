/**
 * The ticket service: an insertion-ordered dictionary from id to ticket,
 * seeded with three tickets, listed newest first, and changed in place by
 * create, partial update and delete. The random id (`uuid4()`) and the
 * clock (`datetime.utcnow()`) are parameters.
 */
module Backend {
  import opened Wrappers
  import opened Text
  import opened Seqs
  import opened Tickets

  /** The body of a create request. */
  datatype TicketCreate = TicketCreate(title: string, status: Status, priority: Priority, assignee: string)

  /** One field of an update request: left out, sent as `null`, or sent with a value. */
  datatype Patch<T> = Unset | Null | To(value: T)

  /** The body of an update request: each field independently present or not. */
  datatype TicketUpdate = TicketUpdate(
    title: Patch<string>,
    status: Patch<Status>,
    priority: Patch<Priority>,
    assignee: Patch<string>)

  /** The one failure the handlers raise: 404 "Not found". */
  datatype ApiError = NotFound

  /**
   * The dictionary `DB` with its insertion order: `db` maps each key to its
   * ticket, `order` lists the keys in the order they were first inserted.
   */
  datatype Table = Table(db: map<string, Ticket>, order: seq<string>)

  /** Every key in `order` is stored, under a ticket carrying that key as its id. */
  ghost predicate IdsMatch(tb: Table)
  {
    forall i :: 0 <= i < |tb.order| ==> tb.order[i] in tb.db && tb.db[tb.order[i]].id == tb.order[i]
  }

  /** `order` lists each key of `db` once, and every ticket is stored under its own id. */
  ghost predicate TableInv(tb: Table)
  {
    && NoDuplicates(tb.order)
    && IdsMatch(tb)
    && (forall k :: k in tb.db ==> k in tb.order)
  }

  /** The empty dictionary. */
  const Empty := Table(map[], [])

  /** `list(DB.values())`: the tickets in insertion order. */
  function Values(db: map<string, Ticket>, order: seq<string>): (r: seq<Ticket>)
    requires forall i :: 0 <= i < |order| ==> order[i] in db
    ensures |r| == |order|
    ensures forall i :: 0 <= i < |order| ==> r[i] == db[order[i]]
  {
    if order == [] then [] else [db[order[0]]] + Values(db, order[1..])
  }

  /** `list_tickets`: the stored tickets, the most recently inserted key first. */
  function Listing(tb: Table): (r: seq<Ticket>)
    requires forall i :: 0 <= i < |tb.order| ==> tb.order[i] in tb.db
    ensures |r| == |tb.order|
  {
    var n := |tb.order|;
    seq(n, j requires 0 <= j < n => tb.db[tb.order[n - 1 - j]])
  }

  /** The listing is `list(DB.values())[::-1]`: the values in insertion order, reversed. */
  lemma ListingIsReversedValues(tb: Table)
    requires forall i :: 0 <= i < |tb.order| ==> tb.order[i] in tb.db
    ensures Listing(tb) == Reverse(Values(tb.db, tb.order))
  {
    var l, v := Listing(tb), Values(tb.db, tb.order);
    forall j | 0 <= j < |l|
      ensures l[j] == Reverse(v)[j]
    {
      assert Reverse(v)[j] == v[|v| - 1 - j];
    }
  }

  /** The listing holds every stored ticket, once each, and nothing else. */
  lemma ListingIsContents(tb: Table)
    requires TableInv(tb)
    ensures |Listing(tb)| == |tb.db|
    ensures forall t :: t in Listing(tb) <==> t in tb.db.Values
  {
    DistinctCount(tb.order);
    assert tb.db.Keys == set k | k in tb.order;
    var r := Listing(tb);
    var n := |tb.order|;
    forall t | t in tb.db.Values
      ensures t in r
    {
      var k :| k in tb.db && tb.db[k] == t;
      var i :| 0 <= i < n && tb.order[i] == k;
      assert r[n - 1 - i] == t;
    }
  }

  /** `DB[t.id] = t`: a new key goes last in the order, an existing key keeps its place. */
  function Put(tb: Table, t: Ticket): (r: Table)
    ensures r.db == tb.db[t.id := t]
    ensures t.id in tb.db ==> r.order == tb.order
    ensures t.id !in tb.db ==> r.order == tb.order + [t.id]
  {
    if t.id in tb.db then Table(tb.db[t.id := t], tb.order)
    else Table(tb.db[t.id := t], tb.order + [t.id])
  }

  /** `del DB[id]`: the key leaves the dictionary and the order. */
  function Delete(tb: Table, id: string): (r: Table)
    ensures r.db == tb.db - {id}
    ensures forall k :: k in r.order <==> k in tb.order && k != id
    ensures IsSubsequence(r.order, tb.order)
  {
    KeepIsSubsequence(tb.order, KeyOther(id));
    Table(tb.db - {id}, Keep(tb.order, KeyOther(id)))
  }

  /** Storing a ticket under its own id keeps the table consistent. */
  lemma PutKeepsInv(tb: Table, t: Ticket)
    requires TableInv(tb)
    ensures TableInv(Put(tb, t))
  {
    var r := Put(tb, t);
    if t.id !in tb.db {
      assert t.id !in tb.order;
      forall i, j | 0 <= i < j < |r.order|
        ensures r.order[i] != r.order[j]
      {
        if j < |tb.order| {
          assert r.order[i] == tb.order[i] && r.order[j] == tb.order[j];
        } else {
          assert r.order[i] in tb.order;
        }
      }
    }
  }

  /** Deleting a key keeps the table consistent. */
  lemma DeleteKeepsInv(tb: Table, id: string)
    requires TableInv(tb)
    ensures TableInv(Delete(tb, id))
  {
    KeepNoDuplicates(tb.order, KeyOther(id));
  }

  /** A ticket with a fresh id heads the listing; the others follow in their old order. */
  lemma PutFreshListing(tb: Table, t: Ticket)
    requires IdsMatch(tb) && t.id !in tb.db
    ensures Listing(Put(tb, t)) == [t] + Listing(tb)
  {
    var r := Put(tb, t);
    var a, old_ := Listing(r), Listing(tb);
    var n := |tb.order|;
    assert a[0] == t by {
      assert r.order[n] == t.id;
    }
    forall j | 1 <= j <= n
      ensures a[j] == old_[j - 1]
    {
      var k := tb.order[n - j];
      assert r.order[n - j] == k && k in tb.db;
    }
    assert a == [t] + old_;
  }

  /** A ticket with a fresh id adds one entry to the dictionary. */
  lemma PutFreshSize(tb: Table, t: Ticket)
    requires t.id !in tb.db
    ensures |Put(tb, t).db| == |tb.db| + 1
  {
  }

  /** Storing under an existing id keeps the set of keys, so the size. */
  lemma PutExistingSize(tb: Table, t: Ticket)
    requires t.id in tb.db
    ensures |Put(tb, t).db| == |tb.db|
  {
    assert Put(tb, t).db.Keys == tb.db.Keys;
  }

  /** Storing under an existing id replaces that ticket in its place in the listing. */
  lemma PutExistingListing(tb: Table, t: Ticket)
    requires IdsMatch(tb) && t.id in tb.db
    ensures |Listing(Put(tb, t))| == |Listing(tb)|
    ensures forall j :: 0 <= j < |Listing(tb)| ==>
              Listing(Put(tb, t))[j] == if Listing(tb)[j].id == t.id then t else Listing(tb)[j]
  {
    var a, b := Listing(Put(tb, t)), Listing(tb);
    var n := |tb.order|;
    forall j | 0 <= j < n
      ensures a[j] == if b[j].id == t.id then t else b[j]
    {
      var k := tb.order[n - 1 - j];
      assert b[j] == tb.db[k] && tb.db[k].id == k;
      assert a[j] == tb.db[t.id := t][k];
    }
  }

  /** The keys other than `id`. */
  function KeyOther(id: string): string -> bool
  {
    k => k != id
  }

  /** The tickets whose id is not `id`. */
  function TicketOther(id: string): Ticket -> bool
  {
    (t: Ticket) => t.id != id
  }

  /** Every key kept by the deletion is still in the dictionary. */
  lemma KeptKeysStored(db: map<string, Ticket>, order: seq<string>, id: string)
    requires forall i :: 0 <= i < |order| ==> order[i] in db
    ensures forall i :: 0 <= i < |Keep(order, KeyOther(id))| ==> Keep(order, KeyOther(id))[i] in db - {id}
  {
  }

  /** `list(DB.values())` over a key followed by more keys. */
  lemma ValuesCons(db: map<string, Ticket>, k: string, rest: seq<string>)
    requires k in db && forall i :: 0 <= i < |rest| ==> rest[i] in db
    ensures Values(db, [k] + rest) == [db[k]] + Values(db, rest)
  {
    assert ([k] + rest)[1..] == rest;
  }

  /** `list(DB.values())` after deleting a key: the same tickets without that one, in the same order. */
  lemma {:induction false} DeleteValues(db: map<string, Ticket>, order: seq<string>, id: string)
    requires forall i :: 0 <= i < |order| ==> order[i] in db && db[order[i]].id == order[i]
    ensures forall i :: 0 <= i < |Keep(order, KeyOther(id))| ==> Keep(order, KeyOther(id))[i] in db - {id}
    ensures Values(db - {id}, Keep(order, KeyOther(id))) == Keep(Values(db, order), TicketOther(id))
  {
    KeptKeysStored(db, order, id);
    if order != [] {
      var k, rest := order[0], order[1..];
      assert order == [k] + rest;
      DeleteValues(db, rest, id);
      KeptKeysStored(db, rest, id);
      KeepCons(k, rest, KeyOther(id));
      ValuesCons(db, k, rest);
      KeepCons(db[k], Values(db, rest), TicketOther(id));
      if k != id {
        ValuesCons(db - {id}, k, Keep(rest, KeyOther(id)));
      }
    }
  }

  /** Deleting a key removes exactly that ticket from the listing and keeps the others in order. */
  lemma DeleteListing(tb: Table, id: string)
    requires TableInv(tb)
    ensures TableInv(Delete(tb, id))
    ensures Listing(Delete(tb, id)) == Keep(Listing(tb), TicketOther(id))
  {
    DeleteKeepsInv(tb, id);
    DeleteValues(tb.db, tb.order, id);
    KeepReverse(Values(tb.db, tb.order), TicketOther(id));
    ListingIsReversedValues(tb);
    ListingIsReversedValues(Delete(tb, id));
  }

  /** No listed ticket carries an id that is not a key, so filtering it out keeps the listing. */
  lemma DeleteAbsentListing(tb: Table, id: string)
    requires IdsMatch(tb) && id !in tb.db
    ensures Keep(Listing(tb), TicketOther(id)) == Listing(tb)
  {
    var l := Listing(tb);
    forall j | 0 <= j < |l|
      ensures TicketOther(id)(l[j])
    {
      assert l[j] == tb.db[tb.order[|l| - 1 - j]];
    }
    KeepAllIff(l, TicketOther(id));
  }

  /** The update `copy(update=...)` should perform: every field sent with a value replaces the stored one. */
  function ApplyUpdate(current: Ticket, body: TicketUpdate): (r: Ticket)
    ensures r.id == current.id && r.createdAt == current.createdAt
    ensures r.title == (if body.title.To? then body.title.value else current.title)
    ensures r.status == (if body.status.To? then body.status.value else current.status)
    ensures r.priority == (if body.priority.To? then body.priority.value else current.priority)
    ensures r.assignee == (if body.assignee.To? then body.assignee.value else current.assignee)
  {
    Ticket(current.id,
           Overwrite(current.title, body.title),
           Overwrite(current.status, body.status),
           Overwrite(current.priority, body.priority),
           Overwrite(current.assignee, body.assignee),
           current.createdAt)
  }

  /** A field after a corrected update: the sent value, or the old one. */
  function Overwrite<T>(old_: T, patch: Patch<T>): T
  {
    if patch.To? then patch.value else old_
  }

  /** Applying the same update twice is applying it once. */
  lemma ApplyUpdateIdempotent(current: Ticket, body: TicketUpdate)
    ensures ApplyUpdate(ApplyUpdate(current, body), body) == ApplyUpdate(current, body)
  {
  }

  /** A stored record as `copy(update=...)` leaves it: any of the four fields may be `None`. */
  datatype Row = Row(
    id: string,
    title: Option<string>,
    status: Option<Status>,
    priority: Option<Priority>,
    assignee: Option<string>,
    createdAt: string)

  /** A ticket as a stored record. */
  function RowOf(t: Ticket): Row
  {
    Row(t.id, Some(t.title), Some(t.status), Some(t.priority), Some(t.assignee), t.createdAt)
  }

  /** The record satisfies the `Ticket` schema: no field is `None`. */
  predicate IsTicketRow(row: Row)
  {
    row.title.Some? && row.status.Some? && row.priority.Some? && row.assignee.Some?
  }

  /** A field after `model_dump(exclude_unset=True)` and `copy(update=...)`: an explicit null is copied too. */
  function CopyField<T>(old_: T, patch: Patch<T>): Option<T>
  {
    match patch
    case Unset => Some(old_)
    case Null => None
    case To(v) => Some(v)
  }

  /** `current.copy(update=body.model_dump(exclude_unset=True))`, as written. */
  function CopyAsWritten(current: Ticket, body: TicketUpdate): (r: Row)
    ensures r.id == current.id && r.createdAt == current.createdAt
  {
    Row(current.id,
        CopyField(current.title, body.title),
        CopyField(current.status, body.status),
        CopyField(current.priority, body.priority),
        CopyField(current.assignee, body.assignee),
        current.createdAt)
  }

  /** No field of the update is an explicit null. */
  predicate NoNulls(body: TicketUpdate)
  {
    !body.title.Null? && !body.status.Null? && !body.priority.Null? && !body.assignee.Null?
  }

  /** Without explicit nulls the code as written and the corrected update agree. */
  lemma CopyAgreesWithoutNulls(current: Ticket, body: TicketUpdate)
    requires NoNulls(body)
    ensures CopyAsWritten(current, body) == RowOf(ApplyUpdate(current, body))
  {
  }

  /** A body `{"status": null}` makes the code as written store a ticket with no status. */
  lemma NullStatusBreaksSchema(current: Ticket)
    ensures !IsTicketRow(CopyAsWritten(current, TicketUpdate(Unset, Null, Unset, Unset)))
    ensures IsTicketRow(RowOf(ApplyUpdate(current, TicketUpdate(Unset, Null, Unset, Unset))))
    ensures ApplyUpdate(current, TicketUpdate(Unset, Null, Unset, Unset)) == current
  {
  }

  /** The three seed rows: title, status, priority, assignee. */
  const SeedRows: seq<(string, Status, Priority, string)> := [
    ("Login bug on /auth", Open, High, "Alex"),
    ("Upgrade dependencies", InProgress, Low, "Jamie"),
    ("Add billing address field", Closed, Medium, "Sam")
  ]

  /** The id of seed row `k`: numbering starts at 1001. */
  function SeedId(k: nat): string
  {
    "T-" + DecimalString(1001 + k)
  }

  /** Seed row `k` as a ticket stamped `now`. */
  function SeedTicket(k: nat, now: string): (t: Ticket)
    requires k < |SeedRows|
    ensures t.id == SeedId(k) && t.createdAt == now
  {
    var (title, status, priority, assignee) := SeedRows[k];
    Ticket(SeedId(k), title, status, priority, assignee, now)
  }

  /**
   * The empty dictionary after the first `k` seed rows have been stored: its
   * keys are exactly the first `k` seed ids.
   */
  function SeedTable(k: nat, now: string): (r: Table)
    requires k <= |SeedRows|
    ensures r.db.Keys == set i | 0 <= i < k :: SeedId(i)
  {
    if k == 0 then Empty else Put(SeedTable(k - 1, now), SeedTicket(k - 1, now))
  }

  /** Every prefix of the seeding leaves a consistent table. */
  lemma {:induction false} SeedTableInv(k: nat, now: string)
    requires k <= |SeedRows|
    ensures TableInv(SeedTable(k, now))
  {
    if k > 0 {
      SeedTableInv(k - 1, now);
      PutKeepsInv(SeedTable(k - 1, now), SeedTicket(k - 1, now));
    }
  }

  /** The seed ids are T-1001, T-1002 and T-1003. */
  lemma SeedIds()
    ensures SeedId(0) == "T-1001" && SeedId(1) == "T-1002" && SeedId(2) == "T-1003"
  {
    assert DecimalString(100) == "100";
    assert DecimalString(1001) == "1001";
    assert DecimalString(1002) == "1002";
    assert DecimalString(1003) == "1003";
  }

  /** Seeding step `k` stores a ticket whose id is not yet in the dictionary. */
  lemma SeedIdFresh(k: nat, now: string)
    requires k < |SeedRows|
    ensures SeedId(k) !in SeedTable(k, now).db
  {
    forall i | 0 <= i < k
      ensures SeedId(i) != SeedId(k)
    {
      SeedIdInjective(i, k);
    }
  }

  /** Different seed rows get different ids. */
  lemma SeedIdInjective(i: nat, j: nat)
    requires i != j
    ensures SeedId(i) != SeedId(j)
  {
    DecimalStringInjective(1001 + i, 1001 + j);
    assert SeedId(i)[2..] == DecimalString(1001 + i);
    assert SeedId(j)[2..] == DecimalString(1001 + j);
  }

  /** After `seed()` the dictionary lists T-1003, T-1002, T-1001, newest first. */
  lemma SeedListing(now: string)
    ensures TableInv(SeedTable(|SeedRows|, now))
    ensures Listing(SeedTable(|SeedRows|, now)) == [
              Ticket("T-1003", "Add billing address field", Closed, Medium, "Sam", now),
              Ticket("T-1002", "Upgrade dependencies", InProgress, Low, "Jamie", now),
              Ticket("T-1001", "Login bug on /auth", Open, High, "Alex", now)]
  {
    SeedIds();
    SeedTableInv(0, now);
    SeedTableInv(1, now);
    SeedTableInv(2, now);
    SeedTableInv(3, now);
    SeedIdFresh(0, now);
    SeedIdFresh(1, now);
    SeedIdFresh(2, now);
    PutFreshListing(SeedTable(0, now), SeedTicket(0, now));
    PutFreshListing(SeedTable(1, now), SeedTicket(1, now));
    PutFreshListing(SeedTable(2, now), SeedTicket(2, now));
  }

  /** The module-level dictionary `DB` and the handlers that change it. */
  class TicketTable {
    var db: map<string, Ticket>
    var order: seq<string>

    /** The dictionary as a value. */
    function State(): Table
      reads this
    {
      Table(db, order)
    }

    ghost predicate Valid()
      reads this
    {
      TableInv(State())
    }

    /** `DB: Dict[str, Ticket] = {}`. */
    constructor()
      ensures Valid() && State() == Empty
    {
      db := map[];
      order := [];
    }

    /** `DB[t.id] = t`. */
    method Assign(t: Ticket)
      requires Valid()
      modifies this
      ensures Valid() && State() == Put(old(State()), t)
    {
      PutKeepsInv(State(), t);
      if t.id !in db {
        order := order + [t.id];
      }
      db := db[t.id := t];
    }

    /** `seed()` on the empty dictionary, every ticket stamped with the one reading `now`. */
    method Seed(now: string)
      requires Valid() && State() == Empty
      modifies this
      ensures Valid() && State() == SeedTable(|SeedRows|, now)
    {
      for k := 0 to |SeedRows|
        invariant Valid() && State() == SeedTable(k, now)
      {
        Assign(SeedTicket(k, now));
      }
    }

    /** `list_tickets`: every stored ticket, newest first. */
    function ListTickets(): (r: seq<Ticket>)
      requires Valid()
      reads this
      ensures r == Reverse(Values(db, order))
      ensures |r| == |db|
      ensures forall t :: t in r <==> t in db.Values
    {
      ListingIsReversedValues(State());
      ListingIsContents(State());
      Listing(State())
    }

    /** `create_ticket`: a ticket with id `newId` (from `uuid4()`) and timestamp `now`, stored under its id. */
    method CreateTicket(body: TicketCreate, newId: string, now: string) returns (t: Ticket)
      requires Valid()
      modifies this
      ensures t == Ticket(newId, body.title, body.status, body.priority, body.assignee, now)
      ensures Valid() && State() == Put(old(State()), t)
      ensures newId !in old(db) ==> |db| == |old(db)| + 1 && ListTickets() == [t] + Listing(old(State()))
    {
      t := Ticket(newId, body.title, body.status, body.priority, body.assignee, now);
      if newId !in db {
        PutFreshListing(State(), t);
        PutFreshSize(State(), t);
      }
      Assign(t);
    }

    /**
     * `update_ticket`: 404 for an unknown id; otherwise the stored ticket is
     * replaced in place by the corrected merge `ApplyUpdate`, in which a field
     * sent as `null` keeps its value (`CopyAsWritten` is the code as written).
     */
    method UpdateTicket(id: string, body: TicketUpdate) returns (r: Result<Ticket, ApiError>)
      requires Valid()
      modifies this
      ensures Valid()
      ensures id !in old(db) ==> r == Failure(NotFound) && State() == old(State())
      ensures id in old(db) ==> r == Success(ApplyUpdate(old(db)[id], body))
      ensures id in old(db) ==> State() == Put(old(State()), r.value) && order == old(order)
      ensures id in old(db) ==> |ListTickets()| == |Listing(old(State()))|
      ensures id in old(db) ==> forall j :: 0 <= j < |ListTickets()| ==>
                ListTickets()[j] == if Listing(old(State()))[j].id == id then r.value else Listing(old(State()))[j]
    {
      if id !in db {
        return Failure(NotFound);
      }
      var updated := ApplyUpdate(db[id], body);
      PutExistingListing(State(), updated);
      Assign(updated);
      r := Success(updated);
    }

    /** `delete_ticket`: 404 for an unknown id; otherwise that one ticket is removed. */
    method DeleteTicket(id: string) returns (r: Result<(), ApiError>)
      requires Valid()
      modifies this
      ensures Valid()
      ensures id !in old(db) ==> r == Failure(NotFound) && State() == old(State())
      ensures id in old(db) ==> r == Success(()) && State() == Delete(old(State()), id)
      ensures ListTickets() == Keep(Listing(old(State())), TicketOther(id))
    {
      if id !in db {
        DeleteAbsentListing(State(), id);
        return Failure(NotFound);
      }
      DeleteListing(State(), id);
      DeleteKeepsInv(State(), id);
      db := db - {id};
      order := Keep(order, KeyOther(id));
      r := Success(());
    }
  }
}
