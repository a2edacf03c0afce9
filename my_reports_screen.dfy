/**
 * The mobile "my reports" screen: the status filter over the user's own
 * reports, the filter buttons it offers, and the icon and colour of each
 * report card.
 */
module MyReportsScreen {
  import opened ClientReports

  /** The filter value that shows every report. */
  const AllFilter: string := "all"

  /** The segmented buttons' values, in order; there is no button for rejected reports. */
  const FilterChoices: seq<string> := [AllFilter, Pending, InProgress, Resolved]

  const FilterLabels: seq<string> := ["Todos", "Pendentes", "Em Andamento", "Resolvidos"]

  /** `filteredReports`: every report under "all", otherwise the reports with the chosen status. */
  function FilteredReports(rs: seq<ClientReport>, statusFilter: string): (r: seq<ClientReport>)
    ensures statusFilter == AllFilter ==> r == rs
    ensures forall x :: x in r <==> x in rs && (statusFilter == AllFilter || x.status == statusFilter)
  {
    if statusFilter == AllFilter then rs
    else
      var kept := WithStatus(rs, statusFilter);
      assert forall x :: x in kept <==> x in rs && x.status == statusFilter by {
        forall x ensures x in kept <==> x in rs && x.status == statusFilter {
          WithStatusMembers(rs, statusFilter, x);
        }
      }
      kept
  }

  /** The filter keeps the list's order: filtering a concatenation filters each part. */
  lemma FilterKeepsOrder(a: seq<ClientReport>, b: seq<ClientReport>, statusFilter: string)
    ensures FilteredReports(a + b, statusFilter) == FilteredReports(a, statusFilter) + FilteredReports(b, statusFilter)
  {
    if statusFilter != AllFilter {
      WithStatusAppend(a, b, statusFilter);
    }
  }

  /** A rejected report is listed under one of the offered buttons only under "all". */
  lemma RejectedOnlyUnderAll(rs: seq<ClientReport>, x: ClientReport, k: nat)
    requires x in rs && x.status == Rejected && k < |FilterChoices|
    ensures x in FilteredReports(rs, FilterChoices[k]) <==> FilterChoices[k] == AllFilter
  {
  }

  /** `getCategoryIcon`: road, tree and shield for the first three categories, alert for anything else. */
  function CategoryIcon(category: string): (icon: string)
    ensures category == Infrastructure ==> icon == "road"
    ensures category == Environment ==> icon == "tree"
    ensures category == Safety ==> icon == "shield"
    ensures category != Infrastructure && category != Environment && category != Safety ==> icon == "alert"
  {
    if category == Infrastructure then "road"
    else if category == Environment then "tree"
    else if category == Safety then "shield"
    else "alert"
  }

  /** `getStatusColor`: theme roles for the first three statuses, orange for rejected, the disabled role otherwise. */
  function StatusColour(status: string): (c: ThemeColour)
    ensures status == Pending ==> c == ThemeError
    ensures status == InProgress ==> c == ThemePrimary
    ensures status == Resolved ==> c == ThemeTertiary
    ensures status == Rejected ==> c == Literal("#FF9500")
    ensures status !in Statuses ==> c == ThemeOnSurfaceDisabled
  {
    if status == Pending then ThemeError
    else if status == InProgress then ThemePrimary
    else if status == Resolved then ThemeTertiary
    else if status == Rejected then Literal("#FF9500")
    else ThemeOnSurfaceDisabled
  }

  /** Every status gets its own colour, and none of them is the colour of an unknown status. */
  lemma StatusColoursDistinct(a: string, b: string)
    requires a in Statuses && a != b
    ensures StatusColour(a) != StatusColour(b)
  {
  }
}
