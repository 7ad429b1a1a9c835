/**
 * The server-backed page: a search over the tickets the server returned,
 * a single-row inline editor (`editingId` and `draft`), and the requests
 * the page sends. A request is modelled by the body it carries and whether
 * the server answers with success; a successful mutation marks the cached
 * ticket list stale, which is what invalidating the list query does.
 */
module DemoApi {
  import opened Wrappers
  import opened Seqs
  import opened Tickets
  import DemoLocal

  /** The four editable fields of the row being edited. */
  datatype Draft = Draft(title: string, status: Status, priority: Priority, assignee: string)

  /** The body of `PUT /tickets/{id}`: the id and the whole draft. */
  datatype UpdateBody = UpdateBody(id: string, title: string, status: Status, priority: Priority, assignee: string)

  /** The body of `POST /tickets`. */
  datatype CreateBody = CreateBody(title: string, status: Status, priority: Priority, assignee: string)

  /** What the Quick Add button sends, every time. */
  const QuickAddBody := CreateBody("New from UI", Open, Medium, "You")

  /** `data ?? []`: the tickets the server returned, or none while there is no answer. */
  function Items(data: Option<seq<Ticket>>): (r: seq<Ticket>)
    ensures data.None? ==> r == []
    ensures data.Some? ==> r == data.value
  {
    match data
    case Some(tickets) => tickets
    case None => []
  }

  /** The rows shown: the returned tickets that match the search, in server order. */
  function Visible(data: Option<seq<Ticket>>, query: string): (r: seq<Ticket>)
    ensures data.None? ==> r == []
    ensures IsSubsequence(r, Items(data))
    ensures forall i :: 0 <= i < |r| ==> r[i] in Items(data) && MatchesQuery(r[i], query)
    ensures forall i :: 0 <= i < |Items(data)| && MatchesQuery(Items(data)[i], query) ==> Items(data)[i] in r
    ensures multiset(r) <= multiset(Items(data))
    ensures forall i :: 0 <= i < |Items(data)| && MatchesQuery(Items(data)[i], query) ==>
              multiset(r)[Items(data)[i]] == multiset(Items(data))[Items(data)[i]]
  {
    KeepIsSubsequence(Items(data), t => MatchesQuery(t, query));
    KeepMultiset(Items(data), t => MatchesQuery(t, query));
    Keep(Items(data), t => MatchesQuery(t, query))
  }

  /** This page's search is the local page's filter with both selectors on "All". */
  lemma VisibleIsUnfilteredSearch(data: Option<seq<Ticket>>, query: string)
    ensures Visible(data, query) == DemoLocal.Filtered(Items(data), query, DemoLocal.AnyStatus, DemoLocal.AnyPriority)
  {
    KeepCongruent(Items(data), (t: Ticket) => MatchesQuery(t, query),
                  (t: Ticket) => DemoLocal.Matches(t, query, DemoLocal.AnyStatus, DemoLocal.AnyPriority));
  }

  /** The draft `startEdit(t)` builds: a copy of the four editable fields of `t`. */
  function DraftOf(t: Ticket): (d: Draft)
    ensures d.title == t.title && d.status == t.status
    ensures d.priority == t.priority && d.assignee == t.assignee
  {
    Draft(t.title, t.status, t.priority, t.assignee)
  }

  /** `{ id, ...draft }`: the update request for row `id`. */
  function UpdateBodyOf(id: string, d: Draft): (b: UpdateBody)
    ensures b.id == id
    ensures Draft(b.title, b.status, b.priority, b.assignee) == d
  {
    UpdateBody(id, d.title, d.status, d.priority, d.assignee)
  }

  /**
   * `editingId === t.id`: whether row `t` shows the inline editor. Without an
   * edited row no row shows it; otherwise exactly the rows carrying that id do.
   */
  predicate IsEditing(editingId: Option<string>, t: Ticket): (b: bool)
    ensures editingId.None? ==> !b
    ensures editingId.Some? ==> (b <==> t.id == editingId.value)
  {
    editingId == Some(t.id)
  }

  /** With unique ids, at most one row shows the inline editor. */
  lemma AtMostOneEditingRow(rows: seq<Ticket>, editingId: Option<string>, i: nat, j: nat)
    requires UniqueIds(rows) && i < |rows| && j < |rows|
    requires IsEditing(editingId, rows[i]) && IsEditing(editingId, rows[j])
    ensures i == j
  {
  }

  /** The four cells a row shows between its id and its buttons. */
  datatype Cells = Cells(title: string, status: string, priority: string, assignee: string)

  /** The state of the server-backed page. */
  class ApiDemo {
    /** The last list the server returned; none before the first answer. */
    var data: Option<seq<Ticket>>
    var query: string
    var editingId: Option<string>
    var draft: Option<Draft>
    /** Set when a mutation succeeded and the list must be fetched again. */
    var stale: bool

    /** A row is being edited exactly when there is a draft. */
    predicate Valid()
      reads this
    {
      editingId.Some? <==> draft.Some?
    }

    /** The page before the server has answered: nothing edited, nothing stale. */
    constructor()
      ensures Valid()
      ensures data == None && query == "" && editingId == None && draft == None && !stale
    {
      data := None;
      query := "";
      editingId := None;
      draft := None;
      stale := false;
    }

    /** The rows the table shows. */
    function Rows(): seq<Ticket>
      reads this
    {
      Visible(data, query)
    }

    /**
     * The cells of row `t`: the edited row shows the draft (`draft?.title ?? ""`
     * and so on), every other row its ticket. Because a row is edited only
     * while there is a draft, the edited row never falls back to "".
     */
    function CellsOf(t: Ticket): (c: Cells)
      reads this
      ensures Valid() && IsEditing(editingId, t) ==> draft.Some? && c == Cells(draft.value.title, StatusLabel(draft.value.status),
                                                               PriorityLabel(draft.value.priority), draft.value.assignee)
      ensures !IsEditing(editingId, t) ==> c == Cells(t.title, StatusLabel(t.status), PriorityLabel(t.priority), t.assignee)
    {
      if !IsEditing(editingId, t) then Cells(t.title, StatusLabel(t.status), PriorityLabel(t.priority), t.assignee)
      else if draft.None? then Cells("", "", "", "")
      else Cells(draft.value.title, StatusLabel(draft.value.status), PriorityLabel(draft.value.priority), draft.value.assignee)
    }

    /** Typing in the search box. */
    method SetQuery(q: string)
      requires Valid()
      modifies this
      ensures Valid() && query == q
      ensures data == old(data) && editingId == old(editingId) && draft == old(draft) && stale == old(stale)
    {
      query := q;
    }

    /** A list answer arriving from the server: it replaces the data and the cache is fresh again. */
    method Refetched(tickets: seq<Ticket>)
      requires Valid()
      modifies this
      ensures Valid() && data == Some(tickets) && !stale
      ensures query == old(query) && editingId == old(editingId) && draft == old(draft)
    {
      data := Some(tickets);
      stale := false;
    }

    /** `startEdit(t)`: row `t` becomes the edited row, replacing any edit in progress. */
    method StartEdit(t: Ticket)
      requires Valid()
      modifies this
      ensures Valid()
      ensures editingId == Some(t.id) && draft == Some(DraftOf(t))
      ensures data == old(data) && query == old(query) && stale == old(stale)
    {
      editingId := Some(t.id);
      draft := Some(DraftOf(t));
    }

    /** `cancelEdit`: back to no edited row and no draft. */
    method CancelEdit()
      requires Valid()
      modifies this
      ensures Valid()
      ensures editingId == None && draft == None
      ensures data == old(data) && query == old(query) && stale == old(stale)
    {
      editingId := None;
      draft := None;
    }

    /** Typing in the title field of the edited row. */
    method SetDraftTitle(v: string)
      requires Valid() && draft.Some?
      modifies this
      ensures Valid() && draft == Some(old(draft).value.(title := v))
      ensures editingId == old(editingId) && data == old(data) && query == old(query) && stale == old(stale)
    {
      draft := Some(draft.value.(title := v));
    }

    /** Choosing in the status selector of the edited row. */
    method SetDraftStatus(v: Status)
      requires Valid() && draft.Some?
      modifies this
      ensures Valid() && draft == Some(old(draft).value.(status := v))
      ensures editingId == old(editingId) && data == old(data) && query == old(query) && stale == old(stale)
    {
      draft := Some(draft.value.(status := v));
    }

    /** Choosing in the priority selector of the edited row. */
    method SetDraftPriority(v: Priority)
      requires Valid() && draft.Some?
      modifies this
      ensures Valid() && draft == Some(old(draft).value.(priority := v))
      ensures editingId == old(editingId) && data == old(data) && query == old(query) && stale == old(stale)
    {
      draft := Some(draft.value.(priority := v));
    }

    /** Typing in the assignee field of the edited row. */
    method SetDraftAssignee(v: string)
      requires Valid() && draft.Some?
      modifies this
      ensures Valid() && draft == Some(old(draft).value.(assignee := v))
      ensures editingId == old(editingId) && data == old(data) && query == old(query) && stale == old(stale)
    {
      draft := Some(draft.value.(assignee := v));
    }

    /**
     * `saveEdit(id)`: without a draft nothing is sent; otherwise the id and
     * the whole draft are sent, and only a successful answer ends the edit
     * and marks the list stale. A failed answer keeps the draft for a retry.
     */
    method SaveEdit(id: string, succeeds: bool) returns (sent: Option<UpdateBody>)
      requires Valid()
      modifies this
      ensures Valid()
      ensures old(draft).None? ==> sent.None? && editingId == old(editingId) && draft == old(draft) && stale == old(stale)
      ensures old(draft).Some? ==> sent == Some(UpdateBodyOf(id, old(draft).value))
      ensures old(draft).Some? && succeeds ==> editingId == None && draft == None && stale
      ensures old(draft).Some? && !succeeds ==> editingId == old(editingId) && draft == old(draft) && stale == old(stale)
      ensures data == old(data) && query == old(query)
    {
      if draft.None? {
        return None;
      }
      sent := Some(UpdateBodyOf(id, draft.value));
      if succeeds {
        CancelEdit();
        stale := true;
      }
    }

    /** The Quick Add button: always the same body; success marks the list stale. */
    method QuickAdd(succeeds: bool) returns (sent: CreateBody)
      requires Valid()
      modifies this
      ensures Valid() && sent == QuickAddBody
      ensures stale == (old(stale) || succeeds)
      ensures data == old(data) && query == old(query) && editingId == old(editingId) && draft == old(draft)
    {
      sent := QuickAddBody;
      if succeeds {
        stale := true;
      }
    }

    /** A row's Delete button: sends the row's id; success marks the list stale. */
    method DeleteRow(id: string, succeeds: bool) returns (sent: string)
      requires Valid()
      modifies this
      ensures Valid() && sent == id
      ensures stale == (old(stale) || succeeds)
      ensures data == old(data) && query == old(query) && editingId == old(editingId) && draft == old(draft)
    {
      sent := id;
      if succeeds {
        stale := true;
      }
    }
  }
}
