/** The payment table of the admin area. */
module PaymentsTable {
  import opened Text
  import opened Lists
  import opened Tables

  /** A payment; the amount is kept in cents, the source's number having two decimals. */
  datatype Payment = Payment(id: string, user: string, amountCents: nat, status: string,
                             plan: string, date: string, payMethod: string)

  /** The five payments the table starts with. */
  function SeedPayments(): (r: seq<Payment>)
    ensures |r| == 5
  {
    [ Payment("INV-1001", "John Doe", 2999, "Paid", "Pro Monthly", "2023-07-10T14:30:00", "Credit Card"),
      Payment("INV-1002", "Jane Smith", 29999, "Paid", "Pro Annual", "2023-07-05T10:15:00", "PayPal"),
      Payment("INV-1003", "Robert Johnson", 2999, "Failed", "Pro Monthly", "2023-07-08T16:45:00", "Credit Card"),
      Payment("INV-1004", "Emily Davis", 999, "Paid", "Basic Monthly", "2023-07-07T13:20:00", "Credit Card"),
      Payment("INV-1005", "Michael Wilson", 9999, "Pending", "Basic Annual", "2023-07-11T09:10:00", "Bank Transfer") ]
  }

  /** The search term occurs, ignoring case, in the user, the id or the plan. */
  predicate Matches(p: Payment, term: string)
  {
    ContainsIgnoreCase(p.user, term) || ContainsIgnoreCase(p.id, term) || ContainsIgnoreCase(p.plan, term)
  }

  /** `filteredPayments`: the matching payments, in their original order. */
  function FilteredPayments(payments: seq<Payment>, term: string): (r: seq<Payment>)
    ensures IsSubseq(r, payments)
    ensures forall p :: p in r <==> p in payments && Matches(p, term)
    ensures forall p :: multiset(r)[p] == if Matches(p, term) then multiset(payments)[p] else 0
  {
    Filter(payments, p => Matches(p, term))
  }

  /** An empty search keeps every payment, because the empty string occurs in every string. */
  lemma {:induction false} EmptyTermKeepsAll(payments: seq<Payment>)
    ensures FilteredPayments(payments, "") == payments
  {
    forall i | 0 <= i < |payments| ensures Matches(payments[i], "") {
      ContainsEmpty(payments[i].user);
    }
    FilterKeepsAll(payments, p => Matches(p, ""));
  }

  /** `currentPayments`: the rows on page `page` of the filtered list. */
  function CurrentPayments(payments: seq<Payment>, term: string, page: int): (r: seq<Payment>)
    ensures page >= 1 ==> |r| <= PageSize
    ensures page > TotalPages(|FilteredPayments(payments, term)|) ==> r == []
  {
    PageRows(FilteredPayments(payments, term), page)
  }

  /** The pager is hidden exactly when at most ten payments match. */
  lemma PagerHiddenForFewRows(payments: seq<Payment>, term: string)
    ensures !PagerShown(|FilteredPayments(payments, term)|) <==> |FilteredPayments(payments, term)| <= PageSize
  {
    PagerShownIff(|FilteredPayments(payments, term)|);
  }

  /** `getStatusColor`. */
  function StatusColor(status: string): (c: Color)
    ensures c == Green <==> status == "Paid"
    ensures c == Yellow <==> status == "Pending"
    ensures c == Red <==> status == "Failed"
    ensures c == Gray <==> status !in {"Paid", "Pending", "Failed"}
  {
    match status
    case "Paid" => Green
    case "Pending" => Yellow
    case "Failed" => Red
    case _ => Gray
  }
}
