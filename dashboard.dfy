/**
 * The dashboard's figures: member counts, the four percentages with their
 * zero-total guard, and the notifications for the five most recent rows of
 * the fetched `farmers` table.
 */
module Dashboard {
  import opened Wrappers
  import opened JsText

  /** The columns of a `farmers` row that the dashboard reads. */
  datatype FarmerRow = FarmerRow(fullName: string, farmerType: string, status: string, createdAt: string)

  /** `DashboardStats`; the percentages are exact rationals here. */
  datatype Stats = Stats(
    totalRegistered: nat, activeMembers: nat, inactiveMembers: int,
    totalFarmers: nat, totalFisherfolks: nat,
    percentageActive: real, percentageInactive: real,
    percentageFarmers: real, percentageFisherfolks: real)

  datatype NotificationType = Info | Warning | Success

  datatype Notification = Notification(id: nat, message: string, timestamp: string, kind: NotificationType)

  /** The state the page starts in; it is kept when there is no client or the query fails. */
  const InitialStats := Stats(0, 0, 0, 0, 0, 0.0, 0.0, 0.0, 0.0)

  /** `rows.filter(f => f.status === s).length`. */
  function CountStatus(rows: seq<FarmerRow>, s: string): (n: nat)
    ensures n <= |rows|
    ensures n == 0 <==> forall i :: 0 <= i < |rows| ==> rows[i].status != s
    ensures n == |rows| <==> forall i :: 0 <= i < |rows| ==> rows[i].status == s
  {
    if rows == [] then 0
    else (if rows[0].status == s then 1 else 0) + CountStatus(rows[1..], s)
  }

  /** `rows.filter(f => f.farmer_type === t).length`. */
  function CountType(rows: seq<FarmerRow>, t: string): (n: nat)
    ensures n <= |rows|
    ensures n == 0 <==> forall i :: 0 <= i < |rows| ==> rows[i].farmerType != t
    ensures n == |rows| <==> forall i :: 0 <= i < |rows| ==> rows[i].farmerType == t
  {
    if rows == [] then 0
    else (if rows[0].farmerType == t then 1 else 0) + CountType(rows[1..], t)
  }

  /** Counting over two batches is counting each. */
  lemma {:induction false} CountTypeAppend(a: seq<FarmerRow>, b: seq<FarmerRow>, t: string)
    ensures CountType(a + b, t) == CountType(a, t) + CountType(b, t)
  {
    if a == [] {
      assert a + b == b;
    } else {
      assert (a + b)[1..] == a[1..] + b;
      CountTypeAppend(a[1..], b, t);
    }
  }

  /** Two different types never count the same row, so their counts add up to at most the total. */
  lemma {:induction false} DistinctTypesBounded(rows: seq<FarmerRow>, t: string, u: string)
    requires t != u
    ensures CountType(rows, t) + CountType(rows, u) <= |rows|
  {
    if rows != [] {
      DistinctTypesBounded(rows[1..], t, u);
    }
  }

  /** `total > 0 ? (part / total) * 100 : 0`. */
  function Percentage(part: int, total: int): (p: real)
    ensures total <= 0 ==> p == 0.0
    ensures total > 0 && 0 <= part <= total ==> 0.0 <= p <= 100.0
  {
    if total > 0 then (part as real / total as real) * 100.0 else 0.0
  }

  /** The shares of a part and of the rest make up the whole. */
  lemma PercentagesComplement(part: int, total: int)
    requires total > 0
    ensures Percentage(part, total) + Percentage(total - part, total) == 100.0
  {
    var t := total as real;
    assert part as real / t + (total - part) as real / t == t / t;
  }

  /** The object passed to `setStats`. */
  function ComputeStats(rows: seq<FarmerRow>): (st: Stats)
    ensures st.totalRegistered == |rows|
    ensures st.activeMembers == CountStatus(rows, "active")
    ensures st.activeMembers + st.inactiveMembers == st.totalRegistered
    ensures 0 <= st.inactiveMembers <= st.totalRegistered
    ensures st.totalFarmers == CountType(rows, "farmer")
    ensures st.totalFisherfolks == CountType(rows, "fisherfolk")
    ensures st.totalFarmers + st.totalFisherfolks <= st.totalRegistered
    ensures rows == [] ==> st == InitialStats
    ensures rows != [] ==> st.percentageActive + st.percentageInactive == 100.0
  {
    var total := |rows|;
    var active := CountStatus(rows, "active");
    var inactive := total - active;
    var farmers := CountType(rows, "farmer");
    var fisherfolks := CountType(rows, "fisherfolk");
    DistinctTypesBounded(rows, "farmer", "fisherfolk");
    if total > 0 then PercentagesComplement(active, total);
    Stats(total, active, inactive, farmers, fisherfolks,
          Percentage(active, total), Percentage(inactive, total),
          Percentage(farmers, total), Percentage(fisherfolks, total))
    else InitialStats
  }

  /** `New registration: ${full_name} (${farmer_type})`. */
  function NotificationMessage(r: FarmerRow): string {
    "New registration: " + r.fullName + " (" + r.farmerType + ")"
  }

  /**
   * `recent.map((farmer, idx) => ...)` with ids counted from `firstId`;
   * `formatDate` stands for `new Date(s).toLocaleDateString()`.
   */
  function NotificationsFrom(recent: seq<FarmerRow>, firstId: nat, formatDate: string -> string): (ns: seq<Notification>)
    ensures |ns| == |recent|
    ensures forall i :: 0 <= i < |ns| ==>
              ns[i] == Notification(firstId + i, NotificationMessage(recent[i]), formatDate(recent[i].createdAt), Success)
  {
    if recent == [] then []
    else
      [Notification(firstId, NotificationMessage(recent[0]), formatDate(recent[0].createdAt), Success)]
      + NotificationsFrom(recent[1..], firstId + 1, formatDate)
  }

  /** The notifications for the first five rows (all of them when there are fewer), with ids 1, 2, ... */
  function Notifications(rows: seq<FarmerRow>, formatDate: string -> string): (ns: seq<Notification>)
    ensures |ns| == if |rows| < 5 then |rows| else 5
    ensures forall i :: 0 <= i < |ns| ==>
              ns[i].id == i + 1 && ns[i].kind == Success &&
              ns[i].message == NotificationMessage(rows[i]) &&
              ns[i].timestamp == formatDate(rows[i].createdAt)
  {
    NotificationsFrom(Slice(rows, 0, 5), 1, formatDate)
  }

  /** What the query returned: no client at all, an error, or the rows (possibly `null`). */
  datatype FetchOutcome = NoClient | QueryError | Fetched(data: Option<seq<FarmerRow>>)

  datatype PageState = PageState(stats: Stats, notifications: seq<Notification>, loading: bool)

  /** The page once `fetchDashboardData` has finished. */
  function AfterFetch(outcome: FetchOutcome, formatDate: string -> string): (s: PageState)
    ensures !s.loading
    ensures !outcome.Fetched? ==> s.stats == InitialStats && s.notifications == []
    ensures outcome.Fetched? ==> s.stats == ComputeStats(outcome.data.GetOr([]))
    ensures outcome.Fetched? ==> s.notifications == Notifications(outcome.data.GetOr([]), formatDate)
    ensures outcome == Fetched(None) ==> s.stats == InitialStats && s.notifications == []
  {
    match outcome
    case NoClient => PageState(InitialStats, [], false)
    case QueryError => PageState(InitialStats, [], false)
    case Fetched(data) =>
      var rows := data.GetOr([]);
      PageState(ComputeStats(rows), Notifications(rows, formatDate), false)
  }
}
