/** The support-ticket table of the admin area. */
module TicketsTable {
  import opened Text
  import opened Lists
  import opened Tables

  datatype Ticket = Ticket(id: string, subject: string, user: string, status: string,
                           priority: string, category: string, created: string, updated: string)

  /** The five tickets the table starts with. */
  function SeedTickets(): (r: seq<Ticket>)
    ensures |r| == 5
  {
    [ Ticket("TKT-1001", "Cannot publish my website", "John Doe", "Open", "High", "Technical",
             "2023-07-10T14:30:00", "2023-07-10T15:45:00"),
      Ticket("TKT-1002", "Billing issue with subscription", "Jane Smith", "In Progress", "Medium", "Billing",
             "2023-07-09T10:15:00", "2023-07-10T09:20:00"),
      Ticket("TKT-1003", "How to add custom domain?", "Robert Johnson", "Closed", "Low", "General",
             "2023-07-08T16:45:00", "2023-07-09T11:30:00"),
      Ticket("TKT-1004", "Feature request: More templates", "Emily Davis", "Open", "Medium", "Feature Request",
             "2023-07-07T13:20:00", "2023-07-07T13:20:00"),
      Ticket("TKT-1005", "Website editor not responding", "Michael Wilson", "In Progress", "High", "Technical",
             "2023-07-06T09:10:00", "2023-07-10T16:30:00") ]
  }

  /** The search term occurs, ignoring case, in the subject, the user or the id. */
  predicate Matches(t: Ticket, term: string)
  {
    ContainsIgnoreCase(t.subject, term) || ContainsIgnoreCase(t.user, term) || ContainsIgnoreCase(t.id, term)
  }

  /** `filteredTickets`: the matching tickets, in their original order. */
  function FilteredTickets(tickets: seq<Ticket>, term: string): (r: seq<Ticket>)
    ensures IsSubseq(r, tickets)
    ensures forall t :: t in r <==> t in tickets && Matches(t, term)
    ensures forall t :: multiset(r)[t] == if Matches(t, term) then multiset(tickets)[t] else 0
  {
    Filter(tickets, t => Matches(t, term))
  }

  /** An empty search keeps every ticket. */
  lemma {:induction false} EmptyTermKeepsAll(tickets: seq<Ticket>)
    ensures FilteredTickets(tickets, "") == tickets
  {
    forall i | 0 <= i < |tickets| ensures Matches(tickets[i], "") {
      ContainsEmpty(tickets[i].subject);
    }
    FilterKeepsAll(tickets, t => Matches(t, ""));
  }

  /** `currentTickets`: the rows on page `page` of the filtered list. */
  function CurrentTickets(tickets: seq<Ticket>, term: string, page: int): (r: seq<Ticket>)
    ensures page >= 1 ==> |r| <= PageSize
    ensures page > TotalPages(|FilteredTickets(tickets, term)|) ==> r == []
  {
    PageRows(FilteredTickets(tickets, term), page)
  }

  /** Every row on screen is a ticket of the list that matches the search. */
  lemma ShownTicketsMatch(tickets: seq<Ticket>, term: string, page: int)
    ensures forall t :: t in CurrentTickets(tickets, term, page) ==> t in tickets && Matches(t, term)
  {
    PageRowsFromList(FilteredTickets(tickets, term), page);
  }

  /** `getStatusColor`. */
  function StatusColor(status: string): (c: Color)
    ensures c == Blue <==> status == "Open"
    ensures c == Yellow <==> status == "In Progress"
    ensures c == Green <==> status == "Closed"
    ensures c == Gray <==> status !in {"Open", "In Progress", "Closed"}
  {
    match status
    case "Open" => Blue
    case "In Progress" => Yellow
    case "Closed" => Green
    case _ => Gray
  }

  /** `getPriorityColor`. */
  function PriorityColor(priority: string): (c: Color)
    ensures c == Red <==> priority == "High"
    ensures c == Yellow <==> priority == "Medium"
    ensures c == Green <==> priority == "Low"
    ensures c == Gray <==> priority !in {"High", "Medium", "Low"}
  {
    match priority
    case "High" => Red
    case "Medium" => Yellow
    case "Low" => Green
    case _ => Gray
  }
}
