/**
 * Reports as the CityFix mobile app and admin dashboard receive them from the
 * API.  Status and category arrive as strings, so values outside the enums
 * can reach the clients' translation and colour tables.
 */
module ClientReports {
  import opened Wrappers

  datatype Location = Location(x: int, y: int)

  datatype ClientReport = ClientReport(
    id: string,
    title: string,
    description: string,
    category: string,
    status: string,
    location: Location,
    streetName: Option<string>,
    imageUrl: Option<string>,
    mediaUrls: Option<seq<string>>,
    createdAt: int)

  const Pending: string := "pending"
  const InProgress: string := "in_progress"
  const Resolved: string := "resolved"
  const Rejected: string := "rejected"

  /** The clients' `ReportStatus` enum in declaration order. */
  const Statuses: seq<string> := [Pending, InProgress, Resolved, Rejected]

  const Infrastructure: string := "infrastructure"
  const Environment: string := "environment"
  const Safety: string := "safety"
  const Other: string := "other"

  const Categories: seq<string> := [Infrastructure, Environment, Safety, Other]

  /** A colour as the mobile screens give it: a role of the app's theme or a literal colour code. */
  datatype ThemeColour = ThemeError | ThemePrimary | ThemeTertiary | ThemeOnSurfaceDisabled | Literal(code: string)

  /** `reports.filter(r => r.status === status)`. */
  function WithStatus(rs: seq<ClientReport>, status: string): (r: seq<ClientReport>)
    ensures |r| <= |rs|
    ensures forall k | 0 <= k < |r| :: r[k].status == status
  {
    if rs == [] then []
    else WithStatus(rs[..|rs| - 1], status) + (if rs[|rs| - 1].status == status then [rs[|rs| - 1]] else [])
  }

  /** The filter keeps exactly the reports with that status. */
  lemma {:induction false} WithStatusMembers(rs: seq<ClientReport>, status: string, x: ClientReport)
    ensures x in WithStatus(rs, status) <==> x in rs && x.status == status
  {
    if rs != [] {
      WithStatusMembers(rs[..|rs| - 1], status, x);
      assert rs == rs[..|rs| - 1] + [rs[|rs| - 1]];
    }
  }

  /** The filter keeps the order: filtering a concatenation filters each part. */
  lemma {:induction false} WithStatusAppend(a: seq<ClientReport>, b: seq<ClientReport>, status: string)
    ensures WithStatus(a + b, status) == WithStatus(a, status) + WithStatus(b, status)
    decreases |b|
  {
    if b == [] {
      assert a + b == a;
    } else {
      var init := b[..|b| - 1];
      assert (a + b)[..|a + b| - 1] == a + init;
      WithStatusAppend(a, init, status);
    }
  }

  /** A list in which every report has the status is its own filter. */
  lemma {:induction false} WithStatusAll(rs: seq<ClientReport>, status: string)
    requires forall k | 0 <= k < |rs| :: rs[k].status == status
    ensures WithStatus(rs, status) == rs
  {
    if rs != [] {
      WithStatusAll(rs[..|rs| - 1], status);
    }
  }

  /** `reports.filter(r => r.status === status).length`. */
  function CountStatus(rs: seq<ClientReport>, status: string): nat {
    |WithStatus(rs, status)|
  }

  /** The count is the number of positions holding a report with that status. */
  lemma {:induction false} CountStatusIndices(rs: seq<ClientReport>, status: string)
    ensures CountStatus(rs, status) == |set k | 0 <= k < |rs| && rs[k].status == status|
  {
    if rs != [] {
      var init := rs[..|rs| - 1];
      CountStatusIndices(init, status);
      var before := set k | 0 <= k < |init| && init[k].status == status;
      var after := set k | 0 <= k < |rs| && rs[k].status == status;
      var extra := if rs[|rs| - 1].status == status then {|rs| - 1} else {};
      forall k: int ensures k in after <==> k in before + extra {
        if 0 <= k < |init| {
          assert init[k] == rs[k];
        }
      }
      assert after == before + extra;
      assert |before + extra| == |before| + |extra| by {
        assert before !! extra;
      }
      assert CountStatus(rs, status) == CountStatus(init, status) + |extra| by {
        assert WithStatus(rs, status) == WithStatus(init, status)
          + (if rs[|rs| - 1].status == status then [rs[|rs| - 1]] else []);
      }
    }
  }

  /**
   * No report is counted by two of the four statuses: together they count
   * at most every report, and exactly every report when each status is in
   * the enum.
   */
  lemma {:induction false} CountsPartition(rs: seq<ClientReport>)
    ensures CountStatus(rs, Pending) + CountStatus(rs, InProgress) + CountStatus(rs, Resolved) + CountStatus(rs, Rejected) <= |rs|
    ensures (forall k | 0 <= k < |rs| :: rs[k].status in Statuses) ==>
      CountStatus(rs, Pending) + CountStatus(rs, InProgress) + CountStatus(rs, Resolved) + CountStatus(rs, Rejected) == |rs|
  {
    if rs != [] {
      CountsPartition(rs[..|rs| - 1]);
    }
  }
}
