/**
 * The provider dashboard's booking requests: a local list of three sample
 * rows whose lower-case status strings the accept and reject buttons
 * overwrite, and the badge lookup with its default.
 */
module ProviderDashboard {
  import opened Badges

  /** One request row; its status is a free string, not the backend enum. */
  datatype RequestRow = RequestRow(id: int, customer: string, service: string, date: string, time: string, status: string)

  /** The list after a click: every row with `id` gets `status`, the rest are kept. */
  function WithStatus(rows: seq<RequestRow>, id: int, status: string): (r: seq<RequestRow>)
    ensures |r| == |rows|
    ensures forall i :: 0 <= i < |rows| && rows[i].id == id ==> r[i] == rows[i].(status := status)
    ensures forall i :: 0 <= i < |rows| && rows[i].id != id ==> r[i] == rows[i]
  {
    if rows == [] then []
    else [if rows[0].id == id then rows[0].(status := status) else rows[0]] + WithStatus(rows[1..], id, status)
  }

  /** A second click on the same row overrides the first: the last write wins. */
  lemma {:induction false} LastStatusWins(rows: seq<RequestRow>, id: int, first: string, second: string)
    ensures WithStatus(WithStatus(rows, id, first), id, second) == WithStatus(rows, id, second)
  {
    if rows != [] {
      LastStatusWins(rows[1..], id, first, second);
    }
  }

  /** An id that is not in the list leaves the list as it was. */
  lemma {:induction false} UnknownIdUnchanged(rows: seq<RequestRow>, id: int, status: string)
    requires forall i :: 0 <= i < |rows| ==> rows[i].id != id
    ensures WithStatus(rows, id, status) == rows
  {
    if rows != [] {
      UnknownIdUnchanged(rows[1..], id, status);
    }
  }

  /** Accept and Reject are rendered only for a row whose status is exactly "pending". */
  predicate ActionsOffered(row: RequestRow) {
    row.status == "pending"
  }

  /** After accepting or rejecting, the addressed rows offer no more actions. */
  lemma DecisionWithdrawsActions(rows: seq<RequestRow>, id: int, status: string, i: int)
    requires status == "accepted" || status == "rejected"
    requires 0 <= i < |rows|
    ensures ActionsOffered(WithStatus(rows, id, status)[i]) <==> rows[i].id != id && ActionsOffered(rows[i])
  {
  }

  /** `variants[status] || "default"`: three known names, everything else the default. */
  function BadgeVariant(status: string): (v: Variant)
    ensures v == Secondary <==> status == "pending"
    ensures v == Destructive <==> status == "rejected"
    ensures v != Outline
    ensures status != "pending" && status != "rejected" ==> v == Default
  {
    if status == "pending" then Secondary
    else if status == "accepted" then Default
    else if status == "rejected" then Destructive
    else Default
  }

  class Dashboard {
    var bookings: seq<RequestRow>

    constructor ()
      ensures |bookings| == 3
      ensures bookings[0] == RequestRow(1, "Alice Brown", "Electrician", "2025-02-01", "10:00 AM", "pending")
      ensures bookings[1] == RequestRow(2, "Bob Davis", "Electrician", "2025-02-03", "2:00 PM", "pending")
      ensures bookings[2] == RequestRow(3, "Carol White", "Electrician", "2025-01-28", "11:00 AM", "accepted")
    {
      bookings := [
        RequestRow(1, "Alice Brown", "Electrician", "2025-02-01", "10:00 AM", "pending"),
        RequestRow(2, "Bob Davis", "Electrician", "2025-02-03", "2:00 PM", "pending"),
        RequestRow(3, "Carol White", "Electrician", "2025-01-28", "11:00 AM", "accepted")
      ];
    }

    method HandleAccept(id: int)
      modifies this`bookings
      ensures bookings == WithStatus(old(bookings), id, "accepted")
    {
      bookings := WithStatus(bookings, id, "accepted");
    }

    method HandleReject(id: int)
      modifies this`bookings
      ensures bookings == WithStatus(old(bookings), id, "rejected")
    {
      bookings := WithStatus(bookings, id, "rejected");
    }
  }
}
