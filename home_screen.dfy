/**
 * The mobile home screen: the counts of pending, in-progress and resolved
 * reports, the three most recent reports, and the colour of each recent
 * report's status badge.
 */
module HomeScreen {
  import opened ClientReports

  datatype StatusCounts = StatusCounts(pending: nat, inProgress: nat, resolved: nat)

  /** `pendingReports`, `inProgressReports`, `resolvedReports`. */
  function Counts(rs: seq<ClientReport>): (c: StatusCounts)
    ensures c.pending == |set k | 0 <= k < |rs| && rs[k].status == Pending|
    ensures c.inProgress == |set k | 0 <= k < |rs| && rs[k].status == InProgress|
    ensures c.resolved == |set k | 0 <= k < |rs| && rs[k].status == Resolved|
    ensures c.pending + c.inProgress + c.resolved + CountStatus(rs, Rejected) <= |rs|
    ensures (forall k | 0 <= k < |rs| :: rs[k].status in Statuses) ==>
      c.pending + c.inProgress + c.resolved + CountStatus(rs, Rejected) == |rs|
  {
    CountsPartition(rs);
    CountStatusIndices(rs, Pending);
    CountStatusIndices(rs, InProgress);
    CountStatusIndices(rs, Resolved);
    StatusCounts(CountStatus(rs, Pending), CountStatus(rs, InProgress), CountStatus(rs, Resolved))
  }

  /** Newest first: every report is at least as recent as every later one. */
  ghost predicate NewestFirst(s: seq<ClientReport>) {
    forall i, j | 0 <= i < j < |s| :: s[i].createdAt >= s[j].createdAt
  }

  /** Put `x` after every report at least as recent as it (the comparator's ties keep their order). */
  function Insert(x: ClientReport, s: seq<ClientReport>): seq<ClientReport> {
    if s == [] then [x]
    else if s[0].createdAt < x.createdAt then [x] + s
    else [s[0]] + Insert(x, s[1..])
  }

  /**
   * `[...reports].sort((a, b) => b.createdAt - a.createdAt)`: a copy sorted
   * newest first.  The sort is stable, so it is modelled as an insertion of
   * each report, in list order, after the reports already placed that are
   * at least as recent.
   */
  function SortByDateDesc(rs: seq<ClientReport>): seq<ClientReport> {
    if rs == [] then []
    else Insert(rs[|rs| - 1], SortByDateDesc(rs[..|rs| - 1]))
  }

  lemma {:induction false} InsertPermutes(x: ClientReport, s: seq<ClientReport>)
    ensures multiset(Insert(x, s)) == multiset(s) + multiset{x}
  {
    if s != [] && s[0].createdAt >= x.createdAt {
      var t := Insert(x, s[1..]);
      InsertPermutes(x, s[1..]);
      assert multiset([s[0]] + t) == multiset{s[0]} + multiset(t);
      assert s == [s[0]] + s[1..];
      assert multiset(s) == multiset{s[0]} + multiset(s[1..]);
    }
  }

  lemma {:induction false} InsertKeepsOrder(x: ClientReport, s: seq<ClientReport>)
    requires NewestFirst(s)
    ensures NewestFirst(Insert(x, s))
  {
    if s != [] && s[0].createdAt >= x.createdAt {
      InsertKeepsOrder(x, s[1..]);
      InsertPermutes(x, s[1..]);
      var t := Insert(x, s[1..]);
      forall j | 0 <= j < |t|
        ensures s[0].createdAt >= t[j].createdAt
      {
        assert t[j] in multiset(t);
        if t[j] != x {
          assert t[j] in multiset(s[1..]);
        }
      }
    }
  }

  /** The sorted copy holds the same reports, newest first. */
  lemma {:induction false} SortByDateDescCorrect(rs: seq<ClientReport>)
    ensures multiset(SortByDateDesc(rs)) == multiset(rs)
    ensures NewestFirst(SortByDateDesc(rs))
  {
    if rs != [] {
      var init := rs[..|rs| - 1];
      SortByDateDescCorrect(init);
      InsertPermutes(rs[|rs| - 1], SortByDateDesc(init));
      InsertKeepsOrder(rs[|rs| - 1], SortByDateDesc(init));
      assert rs == init + [rs[|rs| - 1]];
    }
  }

  /** `recentReports`: the first three of the sorted copy. */
  function RecentReports(rs: seq<ClientReport>): seq<ClientReport> {
    var sorted := SortByDateDesc(rs);
    sorted[..if |sorted| < 3 then |sorted| else 3]
  }

  /** In a list sorted newest first, nothing after the first `n` is more recent than any of them. */
  lemma PrefixIsNewest(s: seq<ClientReport>, n: nat)
    requires NewestFirst(s) && n <= |s|
    ensures NewestFirst(s[..n])
    ensures multiset(s) == multiset(s[..n]) + multiset(s[n..])
    ensures forall y, x | y in s[..n] && x in multiset(s) - multiset(s[..n]) :: x.createdAt <= y.createdAt
  {
    var shown, rest := s[..n], s[n..];
    assert s == shown + rest;
    forall y, x | y in shown && x in multiset(s) - multiset(shown)
      ensures x.createdAt <= y.createdAt
    {
      assert x in rest;
      var i :| 0 <= i < |shown| && shown[i] == y;
      var j :| 0 <= j < |rest| && rest[j] == x;
      assert s[i] == y && s[n + j] == x;
    }
  }

  /**
   * The recent reports are min(3, n) of the reports, newest first, and
   * no report left out is more recent than one shown.
   */
  lemma RecentReportsCorrect(rs: seq<ClientReport>)
    ensures |RecentReports(rs)| == if |rs| < 3 then |rs| else 3
    ensures NewestFirst(RecentReports(rs))
    ensures multiset(RecentReports(rs)) <= multiset(rs)
    ensures |rs| <= 3 ==> multiset(RecentReports(rs)) == multiset(rs)
    ensures forall y, x | y in RecentReports(rs) && x in multiset(rs) - multiset(RecentReports(rs)) ::
      x.createdAt <= y.createdAt
  {
    var sorted := SortByDateDesc(rs);
    SortByDateDescCorrect(rs);
    assert |sorted| == |rs| by { assert |multiset(sorted)| == |multiset(rs)|; }
    var n := if |sorted| < 3 then |sorted| else 3;
    PrefixIsNewest(sorted, n);
    if |rs| <= 3 {
      assert sorted[..n] == sorted;
    }
  }

  /** The background of a recent report's status badge. */
  function BadgeColour(status: string): (c: ThemeColour)
    ensures c == ThemeError <==> status == Pending
    ensures c == ThemePrimary <==> status == InProgress
    ensures c.Literal? <==> status != Pending && status != InProgress
  {
    if status == Pending then ThemeError
    else if status == InProgress then ThemePrimary
    else Literal("#2E7D32")
  }

  /** Rejected and unknown statuses share the resolved badge's green. */
  lemma RejectedBadgeIsGreen(status: string)
    requires status != Pending && status != InProgress
    ensures BadgeColour(status) == BadgeColour(Resolved) == Literal("#2E7D32")
  {
  }
}
