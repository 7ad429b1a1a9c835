/**
 * The ticket entity shared by the browser pages and the server: two closed
 * enumerations and the six-field record, plus the search test both pages
 * apply to a ticket.
 */
module Tickets {
  import opened Wrappers
  import opened Text

  /** `"Open" | "In Progress" | "Closed"`. */
  datatype Status = Open | InProgress | Closed

  /** `"Low" | "Medium" | "High"`. */
  datatype Priority = Low | Medium | High

  /** A ticket; `createdAt` is the timestamp text the creator supplied. */
  datatype Ticket = Ticket(
    id: string,
    title: string,
    status: Status,
    priority: Priority,
    assignee: string,
    createdAt: string)

  /** The wire spelling of a status. */
  function StatusLabel(s: Status): string
  {
    match s
    case Open => "Open"
    case InProgress => "In Progress"
    case Closed => "Closed"
  }

  /** The wire spelling of a priority. */
  function PriorityLabel(p: Priority): string
  {
    match p
    case Low => "Low"
    case Medium => "Medium"
    case High => "High"
  }

  /** Validation of a status literal: only the three spellings are accepted. */
  function ParseStatus(text: string): (r: Option<Status>)
    ensures r.Some? ==> StatusLabel(r.value) == text
    ensures r.None? ==> forall s: Status :: StatusLabel(s) != text
  {
    if text == "Open" then Some(Open)
    else if text == "In Progress" then Some(InProgress)
    else if text == "Closed" then Some(Closed)
    else None
  }

  /** Validation of a priority literal: only the three spellings are accepted. */
  function ParsePriority(text: string): (r: Option<Priority>)
    ensures r.Some? ==> PriorityLabel(r.value) == text
    ensures r.None? ==> forall p: Priority :: PriorityLabel(p) != text
  {
    if text == "Low" then Some(Low)
    else if text == "Medium" then Some(Medium)
    else if text == "High" then Some(High)
    else None
  }

  /** Every status survives the trip to its label and back, and no other text is a status. */
  lemma StatusRoundTrip(s: Status, text: string)
    ensures ParseStatus(StatusLabel(s)) == Some(s)
    ensures ParseStatus(text) == Some(s) <==> text == StatusLabel(s)
  {
  }

  /** Every priority survives the trip to its label and back, and no other text is a priority. */
  lemma PriorityRoundTrip(p: Priority, text: string)
    ensures ParsePriority(PriorityLabel(p)) == Some(p)
    ensures ParsePriority(text) == Some(p) <==> text == PriorityLabel(p)
  {
  }

  /**
   * The search test of both pages: the lower-cased query occurs in the
   * lower-cased title or in the lower-cased assignee. A query longer than
   * both never matches; a ticket's own title or assignee, in any case, does.
   */
  predicate MatchesQuery(t: Ticket, query: string): (b: bool)
    ensures b ==> |query| <= |t.title| || |query| <= |t.assignee|
    ensures Lower(query) == Lower(t.title) || Lower(query) == Lower(t.assignee) ==> b
  {
    Contains(Lower(t.title), Lower(query)) || Contains(Lower(t.assignee), Lower(query))
  }

  /** The empty query matches every ticket. */
  lemma EmptyQueryMatches(t: Ticket)
    ensures MatchesQuery(t, "")
  {
    ContainsEmpty(Lower(t.title));
  }

  /** Ids are unique within a list of tickets. */
  predicate UniqueIds(items: seq<Ticket>)
  {
    forall i, j :: 0 <= i < |items| && 0 <= j < |items| && items[i].id == items[j].id ==> i == j
  }
}
