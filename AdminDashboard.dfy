/**
 * The admin dashboard's four counters: list lengths from the admin
 * endpoints, the open-complaint count, and the all-zero fallback when any
 * request or body fails.
 */
module AdminDashboard {
  import opened Wrappers

  datatype Stats = Stats(totalUsers: nat, totalProviders: nat, totalBookings: nat, activeComplaints: nat)

  const ZeroStats := Stats(0, 0, 0, 0)

  /** A complaint counts as active when its status is exactly "OPEN" or "Active". */
  predicate IsActive(complaint: map<string, string>) {
    "status" in complaint && (complaint["status"] == "OPEN" || complaint["status"] == "Active")
  }

  function ActiveComplaints(cs: seq<map<string, string>>): (n: nat)
    ensures n <= |cs|
    ensures n == 0 <==> forall i :: 0 <= i < |cs| ==> !IsActive(cs[i])
    ensures n == |cs| <==> forall i :: 0 <= i < |cs| ==> IsActive(cs[i])
  {
    if cs == [] then 0
    else ActiveComplaints(cs[1..]) + (if IsActive(cs[0]) then 1 else 0)
  }

  /** Counting over a concatenation adds the counts of the parts. */
  lemma {:induction false} ActiveComplaintsAppend(a: seq<map<string, string>>, b: seq<map<string, string>>)
    ensures ActiveComplaints(a + b) == ActiveComplaints(a) + ActiveComplaints(b)
  {
    if a == [] {
      assert a + b == b;
    } else {
      assert (a + b)[1..] == a[1..] + b;
      ActiveComplaintsAppend(a[1..], b);
    }
  }

  /** The four JSON lists the dashboard reads. */
  datatype AdminData = AdminData(
    users: seq<map<string, string>>,
    providers: seq<map<string, string>>,
    bookings: seq<map<string, string>>,
    complaints: seq<map<string, string>>)

  function ComputeStats(d: AdminData): (s: Stats)
    ensures s.totalUsers == |d.users| && s.totalProviders == |d.providers| && s.totalBookings == |d.bookings|
    ensures s.activeComplaints == ActiveComplaints(d.complaints) <= |d.complaints|
  {
    Stats(|d.users|, |d.providers|, |d.bookings|, ActiveComplaints(d.complaints))
  }

  /** The four endpoints `fetchStats` requests, in the order it issues them. */
  const StatsEndpoints: seq<string> :=
    ["/api/admin/users", "/api/admin/providers", "/api/admin/bookings", "/api/admin/complaints"]

  class Dashboard {
    var stats: Stats
    var loading: bool
    /** The paths requested so far, in order. */
    var sent: seq<string>

    constructor ()
      ensures stats == ZeroStats && loading && sent == []
    {
      stats := ZeroStats;
      loading := true;
      sent := [];
    }

    /**
     * `fetchStats`: all four requests are issued together, whatever their
     * outcome; `data` is None when any of them or their bodies failed.
     */
    method FetchStats(data: Option<AdminData>)
      modifies this
      ensures sent == old(sent) + StatsEndpoints
      ensures stats == if data.Some? then ComputeStats(data.value) else ZeroStats
      ensures !loading
    {
      loading := true;
      sent := sent + StatsEndpoints;
      if data.Some? {
        stats := ComputeStats(data.value);
      } else {
        stats := ZeroStats;
      }
      loading := false;
    }
  }
}
