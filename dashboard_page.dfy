/**
 * The admin dashboard's report list: the status filter, the list it shows,
 * the per-status summary cards and their percentage line.
 */
module DashboardPage {
  import opened Wrappers
  import opened ClientReports
  import Formatters

  const LoadFailedMessage: string := "Falha ao carregar os relatos. Tente novamente."

  /** The list the filter effect shows: every report without an active filter, else those with that status. */
  function Visible(reports: seq<ClientReport>, activeFilter: Option<string>): (shown: seq<ClientReport>)
    ensures activeFilter.None? || activeFilter.value == "" ==> shown == reports
    ensures activeFilter.Some? && activeFilter.value != "" ==>
      forall x :: x in shown <==> x in reports && x.status == activeFilter.value
  {
    if activeFilter.Some? && activeFilter.value != "" then
      var f := activeFilter.value;
      assert forall x :: x in WithStatus(reports, f) <==> x in reports && x.status == f by {
        forall x {
          WithStatusMembers(reports, f, x);
        }
      }
      WithStatus(reports, f)
    else reports
  }

  /** `handleFilterByStatus`: pressing the active status clears the filter, any other sets it. */
  function NextFilter(activeFilter: Option<string>, pressed: string): (next: Option<string>)
    ensures next.None? <==> activeFilter == Some(pressed)
    ensures next.Some? ==> next.value == pressed
  {
    if activeFilter == Some(pressed) then None else Some(pressed)
  }

  /** Pressing the same status twice restores the filter exactly when it was off or already that status. */
  lemma ToggleTwice(activeFilter: Option<string>, pressed: string)
    ensures NextFilter(NextFilter(activeFilter, pressed), pressed) == activeFilter
      <==> activeFilter.None? || activeFilter == Some(pressed)
  {
  }

  /** One summary card; `text` is the source's `label`. */
  datatype SummaryEntry = SummaryEntry(status: string, text: string, count: nat, color: string,
                                       icon: Option<Formatters.StatusIcon>)

  function Entry(reports: seq<ClientReport>, status: string): SummaryEntry {
    var d := Formatters.GetStatusDetails(status);
    SummaryEntry(status, d.text, CountStatus(reports, status), d.color, d.icon)
  }

  /** `statusSummary`: one card per enum value, in declaration order, counting the reports with that status. */
  function StatusSummary(reports: seq<ClientReport>): (summary: seq<SummaryEntry>)
    ensures |summary| == |Statuses|
    ensures forall k | 0 <= k < |Statuses| ::
      && summary[k].status == Statuses[k]
      && summary[k].count == |WithStatus(reports, Statuses[k])|
      && summary[k].text == Formatters.GetStatusDetails(Statuses[k]).text
  {
    [Entry(reports, Pending), Entry(reports, InProgress), Entry(reports, Resolved), Entry(reports, Rejected)]
  }

  function SumCounts(entries: seq<SummaryEntry>): nat {
    if entries == [] then 0 else entries[0].count + SumCounts(entries[1..])
  }

  /** The cards never count more than `totalReports`, and exactly that many when every status is in the enum. */
  lemma SummaryTotals(reports: seq<ClientReport>)
    ensures SumCounts(StatusSummary(reports)) <= |reports|
    ensures (forall k | 0 <= k < |reports| :: reports[k].status in Statuses) ==>
      SumCounts(StatusSummary(reports)) == |reports|
  {
    var s := StatusSummary(reports);
    var s1 := s[1..];
    var s2 := s1[1..];
    var s3 := s2[1..];
    assert s3[1..] == [];
    assert SumCounts(s3) == s3[0].count;
    assert SumCounts(s2) == s2[0].count + SumCounts(s3);
    assert SumCounts(s1) == s1[0].count + SumCounts(s2);
    assert SumCounts(s) == s[0].count + SumCounts(s1);
    CountsPartition(reports);
  }

  /**
   * The percentage line of a card, shown only when there are reports:
   * `Math.round(count / totalReports * 100)`, on the rationals.
   */
  function PercentageLine(count: nat, total: nat): (p: Option<nat>)
    ensures p.Some? <==> total > 0
    ensures p.Some? ==> 2 * (100 * count) - total < 2 * p.value * total <= 2 * (100 * count) + total
    ensures p.Some? && count <= total ==> p.value <= 100
  {
    if total == 0 then None
    else
      var q := (200 * count + total) / (2 * total);
      RoundingBounds(count, total, q);
      Some(q)
  }

  lemma RoundingBounds(count: nat, total: nat, q: nat)
    requires total > 0 && q == (200 * count + total) / (2 * total)
    ensures 2 * (100 * count) - total < 2 * q * total <= 2 * (100 * count) + total
    ensures count <= total ==> q <= 100
  {
    var d := 2 * total;
    var n := 200 * count + total;
    var rem := n % d;
    assert n == q * d + rem && 0 <= rem < d;
    assert q * d == 2 * q * total;
    if count <= total {
      assert n < 101 * d;
      ProductBelow(q, 101, d);
    }
  }

  /** `a * d < b * d` with `d` positive gives `a < b`. */
  lemma ProductBelow(a: int, b: int, d: int)
    requires d > 0 && a * d < b * d
    ensures a < b
  {
  }

  class Dashboard {
    var reports: seq<ClientReport>
    var filteredReports: seq<ClientReport>
    var activeFilter: Option<string>
    var loading: bool
    var error: string

    constructor()
      ensures reports == [] && filteredReports == [] && activeFilter == None && loading && error == ""
    {
      reports := [];
      filteredReports := [];
      activeFilter := None;
      loading := true;
      error := "";
    }

    /** The effect on `[reports, activeFilter]`. */
    method SyncFilter()
      modifies this
      ensures filteredReports == Visible(reports, activeFilter)
      ensures reports == old(reports) && activeFilter == old(activeFilter)
      ensures loading == old(loading) && error == old(error)
    {
      if activeFilter.Some? && activeFilter.value != "" {
        filteredReports := WithStatus(reports, activeFilter.value);
      } else {
        filteredReports := reports;
      }
    }

    /**
     * `loadReports`: a fetched list replaces both the list and the shown
     * list and clears the error; a failure keeps the lists and sets the error.
     */
    method LoadReports(response: Option<seq<ClientReport>>)
      modifies this
      ensures !loading && activeFilter == old(activeFilter)
      ensures response.Some? ==> reports == response.value && filteredReports == response.value && error == ""
      ensures response.None? ==>
        reports == old(reports) && filteredReports == old(filteredReports) && error == LoadFailedMessage
    {
      loading := true;
      match response {
        case Some(data) =>
          reports := data;
          filteredReports := data;
          error := "";
        case None =>
          error := LoadFailedMessage;
      }
      loading := false;
    }

    method HandleFilterByStatus(pressed: string)
      modifies this
      ensures activeFilter == NextFilter(old(activeFilter), pressed)
      ensures reports == old(reports) && filteredReports == old(filteredReports)
      ensures loading == old(loading) && error == old(error)
    {
      if activeFilter == Some(pressed) {
        activeFilter := None;
      } else {
        activeFilter := Some(pressed);
      }
    }

    method ClearFilter()
      modifies this
      ensures activeFilter == None
      ensures reports == old(reports) && filteredReports == old(filteredReports)
      ensures loading == old(loading) && error == old(error)
    {
      activeFilter := None;
    }
  }

  /** The shown list keeps the order of the loaded one: filtering a concatenation filters each part. */
  lemma VisibleKeepsOrder(a: seq<ClientReport>, b: seq<ClientReport>, activeFilter: Option<string>)
    ensures Visible(a + b, activeFilter) == Visible(a, activeFilter) + Visible(b, activeFilter)
  {
    if activeFilter.Some? && activeFilter.value != "" {
      WithStatusAppend(a, b, activeFilter.value);
    }
  }
}
