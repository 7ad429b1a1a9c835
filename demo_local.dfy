/**
 * The local dashboard: a list of tickets held in page state, the filtered
 * view and the status counts derived from it, removal, the create-or-update
 * operation, and the drawer that hosts the ticket form.
 */
module DemoLocal {
  import opened Wrappers
  import opened Text
  import opened Seqs
  import opened Tickets

  /** The five tickets the page starts with. */
  const LoginBug := Ticket("T-1001", "Login bug on /auth", Open, High, "Alex", "2025-10-30")
  const UpgradeDeps := Ticket("T-1002", "Upgrade dependencies", InProgress, Low, "Jamie", "2025-10-29")
  const BillingField := Ticket("T-1003", "Add billing address field", Closed, Medium, "Sam", "2025-10-27")
  const DashboardChart := Ticket("T-1004", "Optimize dashboard chart", Open, Medium, "Maya", "2025-10-26")
  const OrdersError := Ticket("T-1005", "Fix 500 on /orders", InProgress, High, "Riley", "2025-10-25")
  const Seed: seq<Ticket> := [LoginBug, UpgradeDeps, BillingField, DashboardChart, OrdersError]

  /** The status selector: `"All"` or one status. */
  datatype StatusFilter = AnyStatus | OnlyStatus(status: Status)

  /** The priority selector: `"All"` or one priority. */
  datatype PriorityFilter = AnyPriority | OnlyPriority(priority: Priority)

  /** The three conjuncts a ticket must pass to be shown; a selector on "All" lets every ticket through. */
  predicate Matches(t: Ticket, query: string, sf: StatusFilter, pf: PriorityFilter): (b: bool)
    ensures b ==> MatchesQuery(t, query)
    ensures sf.OnlyStatus? && t.status != sf.status ==> !b
    ensures pf.OnlyPriority? && t.priority != pf.priority ==> !b
    ensures sf.AnyStatus? && pf.AnyPriority? ==> (b <==> MatchesQuery(t, query))
  {
    && MatchesQuery(t, query)
    && (sf.AnyStatus? || t.status == sf.status)
    && (pf.AnyPriority? || t.priority == pf.priority)
  }

  /** The rows of the table: the tickets that pass all three tests, in list order. */
  function Filtered(items: seq<Ticket>, query: string, sf: StatusFilter, pf: PriorityFilter): (r: seq<Ticket>)
    ensures IsSubsequence(r, items)
    ensures forall i :: 0 <= i < |r| ==> r[i] in items && Matches(r[i], query, sf, pf)
    ensures forall i :: 0 <= i < |items| && Matches(items[i], query, sf, pf) ==> items[i] in r
    ensures multiset(r) <= multiset(items)
    ensures forall i :: 0 <= i < |items| && Matches(items[i], query, sf, pf) ==>
              multiset(r)[items[i]] == multiset(items)[items[i]]
  {
    KeepIsSubsequence(items, t => Matches(t, query, sf, pf));
    KeepMultiset(items, t => Matches(t, query, sf, pf));
    Keep(items, t => Matches(t, query, sf, pf))
  }

  /** With an empty query and both selectors on "All", every ticket is shown. */
  lemma FilteredShowsAll(items: seq<Ticket>)
    ensures Filtered(items, "", AnyStatus, AnyPriority) == items
  {
    forall i | 0 <= i < |items|
      ensures Matches(items[i], "", AnyStatus, AnyPriority)
    {
      EmptyQueryMatches(items[i]);
    }
    KeepAllIff(items, t => Matches(t, "", AnyStatus, AnyPriority));
  }

  /** Filtering the filtered rows again with the same inputs changes nothing. */
  lemma FilteredIdempotent(items: seq<Ticket>, query: string, sf: StatusFilter, pf: PriorityFilter)
    ensures Filtered(Filtered(items, query, sf, pf), query, sf, pf) == Filtered(items, query, sf, pf)
  {
    KeepIdempotent(items, t => Matches(t, query, sf, pf));
  }

  /** How many of the seed tickets pass `p`, ticket by ticket. */
  lemma SeedKeepLength(p: Ticket -> bool)
    ensures |Keep(Seed, p)| == (if p(LoginBug) then 1 else 0) + (if p(UpgradeDeps) then 1 else 0)
                              + (if p(BillingField) then 1 else 0) + (if p(DashboardChart) then 1 else 0)
                              + (if p(OrdersError) then 1 else 0)
  {
    var s4: seq<Ticket> := [OrdersError] + [];
    var s3 := [DashboardChart] + s4;
    var s2 := [BillingField] + s3;
    var s1 := [UpgradeDeps] + s2;
    assert Seed == [LoginBug] + s1;
    KeepCons(OrdersError, [], p);
    var n4 := if p(OrdersError) then 1 else 0;
    assert |Keep(s4, p)| == n4;
    KeepCons(DashboardChart, s4, p);
    var n3 := (if p(DashboardChart) then 1 else 0) + n4;
    assert |Keep(s3, p)| == n3;
    KeepCons(BillingField, s3, p);
    var n2 := (if p(BillingField) then 1 else 0) + n3;
    assert |Keep(s2, p)| == n2;
    KeepCons(UpgradeDeps, s2, p);
    assert |Keep(s1, p)| == (if p(UpgradeDeps) then 1 else 0) + n2;
    KeepCons(LoginBug, s1, p);
  }

  /** The query "bug" is already lower case. */
  lemma LowerBug()
    ensures Lower("bug") == "bug"
  {
    assert Lower("bug")[0] == 'b' && Lower("bug")[1] == 'u' && Lower("bug")[2] == 'g';
  }

  /** A text without the letter u, in either case, does not contain "bug" once lower-cased. */
  lemma MissesBugWithoutU(s: string)
    requires 'u' !in s && 'U' !in s
    ensures !Contains(Lower(s), Lower("bug"))
  {
    LowerBug();
    LowerExcludes(s, 'u');
    NotContainsMissingChar(Lower(s), "bug", 1);
  }

  /** T-1001 matches "bug": its title contains it. */
  lemma LoginBugMatches()
    ensures MatchesQuery(LoginBug, "bug")
  {
    LowerBug();
    var title := Lower("Login bug on /auth");
    assert title[6..9] == "bug" by {
      assert title[6] == 'b' && title[7] == 'u' && title[8] == 'g';
    }
    ContainsAt(title, "bug", 6);
  }

  /** The title of T-1002 has no b, so it does not contain "bug". */
  lemma UpgradeTitleMisses()
    ensures !Contains(Lower("Upgrade dependencies"), Lower("bug"))
  {
    LowerBug();
    LowerExcludes("Upgrade dependencies", 'b');
    NotContainsMissingChar(Lower("Upgrade dependencies"), "bug", 0);
  }

  /** The title of T-1003 has no u. */
  lemma BillingTitleMisses()
    ensures !Contains(Lower("Add billing address field"), Lower("bug"))
  {
    MissesBugWithoutU("Add billing address field");
  }

  /** The title of T-1004 has no u. */
  lemma DashboardTitleMisses()
    ensures !Contains(Lower("Optimize dashboard chart"), Lower("bug"))
  {
    MissesBugWithoutU("Optimize dashboard chart");
  }

  /** The title of T-1005 has no u. */
  lemma OrdersTitleMisses()
    ensures !Contains(Lower("Fix 500 on /orders"), Lower("bug"))
  {
    MissesBugWithoutU("Fix 500 on /orders");
  }

  /** None of the assignees of T-1002 to T-1005 has a u. */
  lemma AssigneesMiss()
    ensures !Contains(Lower("Jamie"), Lower("bug")) && !Contains(Lower("Sam"), Lower("bug"))
    ensures !Contains(Lower("Maya"), Lower("bug")) && !Contains(Lower("Riley"), Lower("bug"))
  {
    MissesBugWithoutU("Jamie");
    MissesBugWithoutU("Sam");
    MissesBugWithoutU("Maya");
    MissesBugWithoutU("Riley");
  }

  /** T-1002 to T-1005 do not match "bug". */
  lemma OthersMissBug()
    ensures !MatchesQuery(UpgradeDeps, "bug") && !MatchesQuery(BillingField, "bug")
    ensures !MatchesQuery(DashboardChart, "bug") && !MatchesQuery(OrdersError, "bug")
  {
    UpgradeTitleMisses();
    BillingTitleMisses();
    DashboardTitleMisses();
    OrdersTitleMisses();
    AssigneesMiss();
  }

  /** Searching the seed list for "bug" with both selectors on "All" shows T-1001 alone. */
  lemma SeedSearchBug()
    ensures Filtered(Seed, "bug", AnyStatus, AnyPriority) == [LoginBug]
  {
    LoginBugMatches();
    OthersMissBug();
    KeepOnlyFirst(Seed, (t: Ticket) => Matches(t, "bug", AnyStatus, AnyPriority));
  }

  /** The four numbers on the dashboard cards. */
  datatype Counts = Counts(total: nat, open: nat, inProgress: nat, closed: nat)

  /** The tickets with status `s`. */
  function HasStatus(s: Status): Ticket -> bool
  {
    (t: Ticket) => t.status == s
  }

  /** `items.filter(t => t.status === s).length`: the number of positions holding a ticket with status `s`. */
  function CountStatus(items: seq<Ticket>, s: Status): (c: nat)
    ensures c <= |items|
    ensures c == |set i | 0 <= i < |items| && items[i].status == s|
  {
    CountStatusPrefix(items, s, |items|);
    assert items[..|items|] == items;
    |Keep(items, HasStatus(s))|
  }

  /** The tickets with status `s` among the first `n` are as many as the positions below `n` holding one. */
  lemma {:induction false} CountStatusPrefix(items: seq<Ticket>, s: Status, n: nat)
    requires n <= |items|
    ensures |Keep(items[..n], HasStatus(s))| == |set i | 0 <= i < n && items[i].status == s|
  {
    if n == 0 {
      assert items[..0] == [];
    } else {
      var x := items[n - 1];
      CountStatusPrefix(items, s, n - 1);
      assert items[..n] == items[..n - 1] + [x];
      KeepAppend(items[..n - 1], [x], HasStatus(s));
      KeepCons(x, [], HasStatus(s));
      assert [x] + [] == [x];
      StatusIndicesStep(items, s, n);
    }
  }

  /** One more position adds one index to the set exactly when it holds a ticket with status `s`. */
  lemma StatusIndicesStep(items: seq<Ticket>, s: Status, n: nat)
    requires 0 < n <= |items|
    ensures |set i | 0 <= i < n && items[i].status == s|
            == |set i | 0 <= i < n - 1 && items[i].status == s| + (if items[n - 1].status == s then 1 else 0)
  {
    var upto := set i | 0 <= i < n && items[i].status == s;
    var before := set i | 0 <= i < n - 1 && items[i].status == s;
    if items[n - 1].status == s {
      assert upto == before + {n - 1};
    } else {
      assert upto == before;
    }
  }

  /** The three per-status counts add up to the number of tickets. */
  lemma StatusCountsPartition(items: seq<Ticket>)
    ensures CountStatus(items, Open) + CountStatus(items, InProgress) + CountStatus(items, Closed) == |items|
  {
    KeepPartition3(items, HasStatus(Open), HasStatus(InProgress), HasStatus(Closed));
  }

  /** The card values: the total and the count for each status. */
  function CountsOf(items: seq<Ticket>): (c: Counts)
    ensures c.total == |items|
    ensures c.open + c.inProgress + c.closed == c.total
    ensures c.open == CountStatus(items, Open) && c.inProgress == CountStatus(items, InProgress)
    ensures c.closed == CountStatus(items, Closed)
  {
    StatusCountsPartition(items);
    Counts(|items|, CountStatus(items, Open), CountStatus(items, InProgress), CountStatus(items, Closed))
  }

  /** The seed list counts 5 tickets: 2 open, 2 in progress, 1 closed. */
  lemma SeedCounts()
    ensures CountsOf(Seed) == Counts(5, 2, 2, 1)
  {
    SeedKeepLength(HasStatus(Open));
    SeedKeepLength(HasStatus(InProgress));
    SeedKeepLength(HasStatus(Closed));
  }

  /** The list without the tickets whose id is `id`. */
  function Removed(items: seq<Ticket>, id: string): (r: seq<Ticket>)
    ensures forall i :: 0 <= i < |r| ==> r[i].id != id
    ensures IsSubsequence(r, items)
    ensures forall i :: 0 <= i < |items| && items[i].id != id ==> items[i] in r
    ensures (forall i :: 0 <= i < |items| ==> items[i].id != id) ==> r == items
    ensures multiset(r) <= multiset(items)
    ensures forall i :: 0 <= i < |items| && items[i].id != id ==> multiset(r)[items[i]] == multiset(items)[items[i]]
  {
    KeepAllIff(items, (t: Ticket) => t.id != id);
    KeepMultiset(items, (t: Ticket) => t.id != id);
    KeepIsSubsequence(items, (t: Ticket) => t.id != id);
    Keep(items, (t: Ticket) => t.id != id)
  }

  /** Removal keeps ids unique. */
  lemma RemovedKeepsUniqueIds(items: seq<Ticket>, id: string)
    requires UniqueIds(items)
    ensures UniqueIds(Removed(items, id))
  {
    KeepNoDuplicates(items, (t: Ticket) => t.id != id);
    var r := Removed(items, id);
    forall i, j | 0 <= i < |r| && 0 <= j < |r| && r[i].id == r[j].id
      ensures i == j
    {
      var a :| 0 <= a < |items| && items[a] == r[i];
      var b :| 0 <= b < |items| && items[b] == r[j];
    }
  }

  /** The argument of `upsert`: a ticket's fields, with or without an id. */
  datatype TicketData = TicketData(
    id: Option<string>,
    title: string,
    status: Status,
    priority: Priority,
    assignee: string,
    createdAt: string)

  /** `if (data.id)`: an id is present and, being a non-empty string, truthy. */
  predicate HasId(data: TicketData): (b: bool)
    ensures b ==> data.id.Some?
    ensures data.id == Some("") ==> !b
    ensures data.id.Some? && |data.id.value| > 0 ==> b
  {
    data.id.Some? && data.id.value != ""
  }

  /** `{ ...p, ...data }`: every field `data` carries replaces the one of `p`. */
  function Spread(p: Ticket, data: TicketData): (r: Ticket)
    ensures r.id == if data.id.Some? then data.id.value else p.id
    ensures r.title == data.title && r.status == data.status && r.priority == data.priority
    ensures r.assignee == data.assignee && r.createdAt == data.createdAt
  {
    Ticket(if data.id.Some? then data.id.value else p.id,
           data.title, data.status, data.priority, data.assignee, data.createdAt)
  }

  /** `T-${Date.now().toString().slice(-6)}`: "T-" followed by one to six decimal digits. */
  function NewId(now: nat): (r: string)
    ensures 3 <= |r| <= 8 && r[..2] == "T-" && IsDigits(r[2..])
  {
    var d := DecimalString(now);
    var x := Suffix(d, 6);
    SuffixDigits(d, 6);
    assert ("T-" + x)[2..] == x;
    "T-" + x
  }

  /**
   * A generated id is "T-" and the last six digits of the clock once it
   * reaches 100000, and "T-" and all its digits before.
   */
  lemma NewIdShape(now: nat)
    ensures now >= 100000 ==> NewId(now) == "T-" + LowDigits(now, 6)
    ensures now >= 100000 ==> |NewId(now)| == 8
    ensures now < 100000 ==> NewId(now) == "T-" + DecimalString(now)
  {
    assert Pow10(6) == 1000000 && Pow10(5) == 100000;
    if now >= 100000 {
      DecimalStringLength(now, 6);
      SuffixIsLowDigits(now, 6);
    } else {
      DecimalStringShort(now, 6);
    }
  }

  /**
   * Generated ids repeat: two clock readings 1000000 ms apart give the same
   * id, so nothing but timing keeps a new id away from the existing ones.
   */
  lemma NewIdRepeats(now: nat)
    requires now >= 100000
    ensures NewId(now + 1000000) == NewId(now)
  {
    assert Pow10(6) == 1000000 && Pow10(5) == 100000;
    DecimalStringLength(now, 6);
    DecimalStringLength(now + 1000000, 6);
    SuffixIsLowDigits(now, 6);
    SuffixIsLowDigits(now + 1000000, 6);
    LowDigitsPeriodic(now, 6);
  }

  /**
   * `upsert`: with an id, every ticket carrying that id takes the data's
   * fields; without one, a new ticket goes in front with a generated id
   * (unless the data carries the empty id, which the spread copies over it).
   */
  function Upserted(items: seq<Ticket>, data: TicketData, now: nat): (r: seq<Ticket>)
    ensures HasId(data) ==> |r| == |items| && forall i :: 0 <= i < |r| ==> r[i].id == items[i].id
    ensures HasId(data) ==> forall i :: 0 <= i < |items| && items[i].id != data.id.value ==> r[i] == items[i]
    ensures HasId(data) ==> forall i :: 0 <= i < |items| && items[i].id == data.id.value ==>
              r[i] == Ticket(items[i].id, data.title, data.status, data.priority, data.assignee, data.createdAt)
    ensures HasId(data) && (forall i :: 0 <= i < |items| ==> items[i].id != data.id.value) ==> r == items
    ensures !HasId(data) ==> |r| == |items| + 1 && r[1..] == items
    ensures !HasId(data) ==> r[0].id == (if data.id.Some? then "" else NewId(now))
    ensures !HasId(data) ==> r[0] == r[0].(title := data.title, status := data.status, priority := data.priority,
                                           assignee := data.assignee, createdAt := data.createdAt)
  {
    if HasId(data) then
      seq(|items|, i requires 0 <= i < |items| => if items[i].id == data.id.value then Spread(items[i], data) else items[i])
    else
      [Spread(Ticket(NewId(now), "", Open, Medium, "", ""), data)] + items
  }

  /** Editing keeps ids unique; so does creating, when the generated id is not already taken. */
  lemma UpsertedKeepsUniqueIds(items: seq<Ticket>, data: TicketData, now: nat)
    requires UniqueIds(items)
    requires !HasId(data) ==> data.id.None? && forall i :: 0 <= i < |items| ==> items[i].id != NewId(now)
    ensures UniqueIds(Upserted(items, data, now))
  {
    var r := Upserted(items, data, now);
    if HasId(data) {
      forall i, j | 0 <= i < |r| && 0 <= j < |r| && r[i].id == r[j].id
        ensures i == j
      {
        assert items[i].id == items[j].id;
      }
    } else {
      assert r == [r[0]] + items;
      PrependKeepsUniqueIds(r[0], items);
    }
  }

  /** Putting a ticket with a fresh id in front of a list with unique ids keeps them unique. */
  lemma PrependKeepsUniqueIds(t: Ticket, items: seq<Ticket>)
    requires UniqueIds(items)
    requires forall i :: 0 <= i < |items| ==> items[i].id != t.id
    ensures UniqueIds([t] + items)
  {
    var r := [t] + items;
    assert r[0] == t && forall k :: 1 <= k < |r| ==> r[k] == items[k - 1];
    forall i, j | 0 <= i < |r| && 0 <= j < |r| && r[i].id == r[j].id
      ensures i == j
    {
      if 0 < i && 0 < j {
        assert items[i - 1].id == items[j - 1].id;
      }
    }
  }

  /** The fields of the ticket form. */
  datatype FormFields = FormFields(title: string, status: Status, priority: Priority, assignee: string)

  /** Whether the drawer is shown, and the ticket it edits (none for a new ticket). */
  datatype Drawer = Drawer(open: bool, editing: Option<Ticket>)

  /** A ticket as `upsert` data: all its fields, id included. */
  function DataOf(t: Ticket): (d: TicketData)
    ensures Spread(t, d) == t
  {
    TicketData(Some(t.id), t.title, t.status, t.priority, t.assignee, t.createdAt)
  }

  /**
   * The form's `initial`: the edited ticket, or a blank open ticket of
   * medium priority stamped with the current time.
   */
  function FormInitial(editing: Option<Ticket>, nowIso: string): (d: TicketData)
    ensures editing.Some? ==> HasId(d) == (editing.value.id != "") && Spread(editing.value, d) == editing.value
    ensures editing.None? ==> !HasId(d) && d.id.None?
    ensures editing.None? ==> d.title == "" && d.status == Open && d.priority == Medium && d.assignee == ""
    ensures editing.None? ==> d.createdAt == nowIso
  {
    match editing
    case Some(t) => DataOf(t)
    case None => TicketData(None, "", Open, Medium, "", nowIso)
  }

  /** The form's field values when it first appears. */
  function FormStart(initial: TicketData): FormFields
  {
    FormFields(initial.title, initial.status, initial.priority, initial.assignee)
  }

  /**
   * `handleSubmit`: nothing when the title is only white space (the
   * source's `!title.trim()`, which `Text.TrimEmptyIffBlank` shows is
   * `IsBlank`); otherwise `initial` with the four form fields written over it.
   */
  function HandleSubmit(initial: TicketData, form: FormFields): (r: Option<TicketData>)
    ensures r.None? <==> IsBlank(form.title)
    ensures r.Some? ==> r.value.id == initial.id && r.value.createdAt == initial.createdAt
    ensures r.Some? ==> (r.value.title == form.title && r.value.status == form.status
                         && r.value.priority == form.priority && r.value.assignee == form.assignee)
  {
    if IsBlank(form.title) then None
    else Some(initial.(title := form.title, status := form.status, priority := form.priority, assignee := form.assignee))
  }

  /** Saving the edit form of a listed ticket without changing it leaves the list as it was. */
  lemma UnchangedEditIsNoop(items: seq<Ticket>, k: nat, nowIso: string, now: nat)
    requires k < |items| && UniqueIds(items)
    requires items[k].id != "" && !IsBlank(items[k].title)
    ensures var initial := FormInitial(Some(items[k]), nowIso);
            var data := HandleSubmit(initial, FormStart(initial));
            data.Some? && Upserted(items, data.value, now) == items
  {
    var t := items[k];
    var initial := FormInitial(Some(t), nowIso);
    var data := HandleSubmit(initial, FormStart(initial)).value;
    assert data == DataOf(t);
    var r := Upserted(items, data, now);
    forall i | 0 <= i < |items|
      ensures r[i] == items[i]
    {
      if items[i].id == t.id {
        assert i == k;
      }
    }
  }

  /** The page state of the local dashboard. */
  class LocalDemo {
    var items: seq<Ticket>
    var query: string
    var statusFilter: StatusFilter
    var priorityFilter: PriorityFilter
    var drawer: Drawer

    /** The page as first shown: the seed list, no search, no filters, drawer closed. */
    constructor()
      ensures items == Seed && query == ""
      ensures statusFilter == AnyStatus && priorityFilter == AnyPriority
      ensures drawer == Drawer(false, None)
    {
      items := Seed;
      query := "";
      statusFilter := AnyStatus;
      priorityFilter := AnyPriority;
      drawer := Drawer(false, None);
    }

    /** The rows the table shows. */
    function Rows(): seq<Ticket>
      reads this
    {
      Filtered(items, query, statusFilter, priorityFilter)
    }

    /** The numbers the cards show. */
    function Cards(): Counts
      reads this
    {
      CountsOf(items)
    }

    /** Typing in the search box. */
    method SetQuery(q: string)
      modifies this
      ensures query == q
      ensures items == old(items) && statusFilter == old(statusFilter)
      ensures priorityFilter == old(priorityFilter) && drawer == old(drawer)
    {
      query := q;
    }

    /** Choosing in the status selector. */
    method SetStatusFilter(sf: StatusFilter)
      modifies this
      ensures statusFilter == sf
      ensures items == old(items) && query == old(query)
      ensures priorityFilter == old(priorityFilter) && drawer == old(drawer)
    {
      statusFilter := sf;
    }

    /** Choosing in the priority selector. */
    method SetPriorityFilter(pf: PriorityFilter)
      modifies this
      ensures priorityFilter == pf
      ensures items == old(items) && query == old(query)
      ensures statusFilter == old(statusFilter) && drawer == old(drawer)
    {
      priorityFilter := pf;
    }

    /** `openNew`: the drawer opens on an empty form. */
    method OpenNew()
      modifies this
      ensures drawer == Drawer(true, None)
      ensures items == old(items) && query == old(query)
      ensures statusFilter == old(statusFilter) && priorityFilter == old(priorityFilter)
    {
      drawer := Drawer(true, None);
    }

    /** `openEdit(t)`: the drawer opens on the form of `t`. */
    method OpenEdit(t: Ticket)
      modifies this
      ensures drawer == Drawer(true, Some(t))
      ensures items == old(items) && query == old(query)
      ensures statusFilter == old(statusFilter) && priorityFilter == old(priorityFilter)
    {
      drawer := Drawer(true, Some(t));
    }

    /** The drawer's Close button. */
    method CloseDrawer()
      modifies this
      ensures drawer == Drawer(false, None)
      ensures items == old(items) && query == old(query)
      ensures statusFilter == old(statusFilter) && priorityFilter == old(priorityFilter)
    {
      drawer := Drawer(false, None);
    }

    /** `remove(id)`: the row's Delete button. */
    method Remove(id: string)
      modifies this
      ensures items == Removed(old(items), id)
      ensures forall i :: 0 <= i < |items| ==> items[i].id != id
      ensures query == old(query) && drawer == old(drawer)
      ensures statusFilter == old(statusFilter) && priorityFilter == old(priorityFilter)
    {
      items := Removed(items, id);
    }

    /** `upsert(data)`, with `now` standing for `Date.now()`. */
    method Upsert(data: TicketData, now: nat)
      modifies this
      ensures items == Upserted(old(items), data, now)
      ensures query == old(query) && drawer == old(drawer)
      ensures statusFilter == old(statusFilter) && priorityFilter == old(priorityFilter)
    {
      items := Upserted(items, data, now);
    }

    /**
     * Saving the form shown in the open drawer: a blank title changes
     * nothing; otherwise the data goes through `upsert` and the drawer
     * closes. `nowIso` stands for the render-time `new Date().toISOString()`.
     */
    method Submit(form: FormFields, nowIso: string, now: nat)
      requires drawer.open
      modifies this
      ensures IsBlank(form.title) ==> items == old(items) && drawer == old(drawer)
      ensures !IsBlank(form.title) ==>
                && items == Upserted(old(items), HandleSubmit(FormInitial(old(drawer).editing, nowIso), form).value, now)
                && drawer == Drawer(false, None)
      ensures query == old(query)
      ensures statusFilter == old(statusFilter) && priorityFilter == old(priorityFilter)
    {
      var submitted := HandleSubmit(FormInitial(drawer.editing, nowIso), form);
      if submitted.Some? {
        Upsert(submitted.value, now);
        drawer := Drawer(false, None);
      }
    }
  }
}
