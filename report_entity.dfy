/**
 * The persisted shapes of the CityFix backend: the report, its status log and
 * the user, with the enums, the column defaults, the `(x,y)` text transformer
 * of the `point` column and TypeORM's `simple-array` column encoding.
 */
module ReportEntity {
  import opened Wrappers
  import Js

  datatype ReportStatus = Pending | InProgress | Resolved | Rejected

  datatype ReportCategory = Infrastructure | Environment | Safety | Other

  datatype UserRole = Citizen | Admin

  /** The string each status enum member stands for. */
  function StatusValue(s: ReportStatus): string {
    match s
    case Pending => "pending"
    case InProgress => "in_progress"
    case Resolved => "resolved"
    case Rejected => "rejected"
  }

  function CategoryValue(c: ReportCategory): string {
    match c
    case Infrastructure => "infrastructure"
    case Environment => "environment"
    case Safety => "safety"
    case Other => "other"
  }

  function RoleValue(r: UserRole): string {
    match r
    case Citizen => "citizen"
    case Admin => "admin"
  }

  /** The enum members in declaration order, as `Object.values` lists them. */
  const AllStatuses: seq<ReportStatus> := [Pending, InProgress, Resolved, Rejected]

  const AllCategories: seq<ReportCategory> := [Infrastructure, Environment, Safety, Other]

  /** Column defaults. */
  const DefaultStatus: ReportStatus := Pending

  const DefaultCategory: ReportCategory := Other

  const DefaultRole: UserRole := Citizen

  /** Reading an enum column or a validated enum field back from its string. */
  function ParseStatus(v: string): (r: Option<ReportStatus>)
    ensures r.Some? ==> StatusValue(r.value) == v
    ensures r.None? ==> forall s: ReportStatus :: StatusValue(s) != v
  {
    if v == "pending" then Some(Pending)
    else if v == "in_progress" then Some(InProgress)
    else if v == "resolved" then Some(Resolved)
    else if v == "rejected" then Some(Rejected)
    else None
  }

  function ParseCategory(v: string): (r: Option<ReportCategory>)
    ensures r.Some? ==> CategoryValue(r.value) == v
    ensures r.None? ==> forall c: ReportCategory :: CategoryValue(c) != v
  {
    if v == "infrastructure" then Some(Infrastructure)
    else if v == "environment" then Some(Environment)
    else if v == "safety" then Some(Safety)
    else if v == "other" then Some(Other)
    else None
  }

  function ParseRole(v: string): (r: Option<UserRole>)
    ensures r.Some? ==> RoleValue(r.value) == v
    ensures r.None? ==> forall x: UserRole :: RoleValue(x) != v
  {
    if v == "citizen" then Some(Citizen)
    else if v == "admin" then Some(Admin)
    else None
  }

  /** Status takes exactly four values, listed once each, with distinct strings. */
  lemma StatusEnumeration()
    ensures |AllStatuses| == 4
    ensures forall s: ReportStatus :: s in AllStatuses
    ensures forall i, j | 0 <= i < j < |AllStatuses| :: StatusValue(AllStatuses[i]) != StatusValue(AllStatuses[j])
    ensures forall s: ReportStatus :: ParseStatus(StatusValue(s)) == Some(s)
  {
    forall s: ReportStatus ensures s in AllStatuses {
      var i := match s case Pending => 0 case InProgress => 1 case Resolved => 2 case Rejected => 3;
      assert AllStatuses[i] == s;
    }
  }

  lemma CategoryEnumeration()
    ensures |AllCategories| == 4
    ensures forall c: ReportCategory :: c in AllCategories
    ensures forall i, j | 0 <= i < j < |AllCategories| :: CategoryValue(AllCategories[i]) != CategoryValue(AllCategories[j])
    ensures forall c: ReportCategory :: ParseCategory(CategoryValue(c)) == Some(c)
  {
    forall c: ReportCategory ensures c in AllCategories {
      var i := match c case Infrastructure => 0 case Environment => 1 case Safety => 2 case Other => 3;
      assert AllCategories[i] == c;
    }
  }

  lemma Defaults()
    ensures StatusValue(DefaultStatus) == "pending"
    ensures CategoryValue(DefaultCategory) == "other"
    ensures RoleValue(DefaultRole) == "citizen"
  {
  }

  // ---------------------------------------------------------------------------
  // Records

  /** A location; coordinates are modelled as integers. */
  datatype Point = Point(x: int, y: int)

  datatype User = User(id: string, name: string, email: string, password: string, role: UserRole)

  /** A report row; `createdBy` is the loaded relation and may be absent, the nullable columns are options. */
  datatype Report = Report(
    id: string,
    title: string,
    description: string,
    category: ReportCategory,
    imageUrl: Option<string>,
    location: Point,
    streetName: Option<string>,
    status: ReportStatus,
    createdBy: Option<User>,
    createdAt: int,
    updatedAt: int,
    mediaUrls: Option<seq<string>>)

  /** A status-log row: the report it belongs to and the user who made the change, by id. */
  datatype StatusLog = StatusLog(
    id: string,
    reportId: string,
    status: ReportStatus,
    comment: Option<string>,
    changedById: string,
    createdAt: int)

  // ---------------------------------------------------------------------------
  // The `point` column transformer

  /** `to`: the text written to the database for a location. */
  function PointToColumn(p: Point): string {
    "(" + (Js.IntToString(p.x) + ("," + (Js.IntToString(p.y) + ")")))
  }

  /** What the database hands to `from`: text, or an already-structured point. */
  datatype ColumnValue = Text(text: string) | Structured(point: Point)

  /** A coordinate after `from`: a JavaScript number, or `undefined` when the text had no such part. */
  datatype Coordinate = Number(n: Js.Numeric) | Undefined

  datatype LoadedPoint = LoadedPoint(x: Coordinate, y: Coordinate)

  /**
   * `from`: a string loses every '(' and ')', is split on ',', each part goes
   * through `Number`, and the first two parts are the coordinates; any other
   * value is returned as it is.
   */
  function PointFromColumn(v: ColumnValue): LoadedPoint {
    match v
    case Structured(p) => LoadedPoint(Number(Js.Finite(p.x)), Number(Js.Finite(p.y)))
    case Text(s) =>
      var parts := Js.Split(Js.RemoveChars(s, {'(', ')'}), ',');
      LoadedPoint(
        Number(Js.Number(parts[0])),
        if |parts| >= 2 then Number(Js.Number(parts[1])) else Undefined)
  }

  /** The loaded value a point stands for. */
  function Loaded(p: Point): LoadedPoint {
    LoadedPoint(Number(Js.Finite(p.x)), Number(Js.Finite(p.y)))
  }

  /** Neither parentheses nor commas occur in the text of an integer. */
  lemma IntTextPlain(i: int)
    ensures forall k | 0 <= k < |Js.IntToString(i)| :: Js.IntToString(i)[k] !in {'(', ')', ','}
  {
    var s := Js.IntToString(i);
    forall k | 0 <= k < |s| ensures s[k] !in {'(', ')', ','} {
      if i < 0 && k > 0 {
        assert s[k] == s[1..][k - 1];
      }
    }
  }

  /** Dropping the closing parenthesis from ",b)" leaves ",b" when `b` holds no dropped character. */
  lemma WithoutClosing(b: string, drop: set<char>)
    requires forall k | 0 <= k < |b| :: b[k] !in drop
    requires ')' in drop && ',' !in drop
    ensures Js.RemoveChars("," + (b + ")"), drop) == "," + b
  {
    Js.RemoveCharsAppend(b, ")", drop);
    Js.RemoveCharsKeeps(b, drop);
    Js.RemoveCharsFirst(')', [], drop);
    Js.RemoveCharsFirst(',', b + ")", drop);
  }

  /** Dropping the parentheses from "(a,b)" leaves "a,b" when neither part holds one. */
  lemma WithoutParentheses(a: string, b: string, drop: set<char>)
    requires forall k | 0 <= k < |a| :: a[k] !in drop
    requires forall k | 0 <= k < |b| :: b[k] !in drop
    requires '(' in drop && ')' in drop && ',' !in drop
    ensures Js.RemoveChars("(" + (a + ("," + (b + ")"))), drop) == a + ("," + b)
  {
    var mid := "," + (b + ")");
    WithoutClosing(b, drop);
    Js.RemoveCharsAppend(a, mid, drop);
    Js.RemoveCharsKeeps(a, drop);
    Js.RemoveCharsFirst('(', a + mid, drop);
  }

  /** Dropping the parentheses from a written location leaves the two numbers and the comma. */
  lemma ColumnWithoutParentheses(p: Point)
    ensures Js.RemoveChars(PointToColumn(p), {'(', ')'}) == Js.IntToString(p.x) + ("," + Js.IntToString(p.y))
  {
    IntTextPlain(p.x);
    IntTextPlain(p.y);
    WithoutParentheses(Js.IntToString(p.x), Js.IntToString(p.y), {'(', ')'});
  }

  /** Writing a location and reading the text back gives the same coordinates. */
  lemma PointRoundTrip(p: Point)
    ensures PointFromColumn(Text(PointToColumn(p))) == Loaded(p)
  {
    var a, b := Js.IntToString(p.x), Js.IntToString(p.y);
    IntTextPlain(p.x);
    IntTextPlain(p.y);
    ColumnWithoutParentheses(p);
    assert Js.Join([a, b], [',']) == a + ("," + b);
    Js.SplitJoin([a, b], ',');
    Js.NumberOfIntToString(p.x);
    Js.NumberOfIntToString(p.y);
  }

  /** A value that is not text passes through `from` unchanged. */
  lemma PointPassThrough(p: Point)
    ensures PointFromColumn(Structured(p)) == Loaded(p)
  {
  }

  // ---------------------------------------------------------------------------
  // TypeORM `simple-array` column (used by `mediaUrls`)

  function SimpleArrayToColumn(xs: seq<string>): string {
    Js.Join(xs, ",")
  }

  /** Reading the column: the empty text is the empty array, anything else is split on ','. */
  function SimpleArrayFromColumn(s: string): seq<string> {
    if s == "" then [] else Js.Split(s, ',')
  }

  /** Arrays of comma-free strings, except the array holding only "", survive the column. */
  lemma SimpleArrayRoundTrip(xs: seq<string>)
    requires forall k | 0 <= k < |xs| :: ',' !in xs[k]
    requires xs != [""]
    ensures SimpleArrayFromColumn(SimpleArrayToColumn(xs)) == xs
  {
    if |xs| >= 1 {
      Js.SplitJoin(xs, ',');
      if |xs| >= 2 {
        JoinLonger(xs);
      }
    }
  }

  lemma JoinLonger(xs: seq<string>)
    requires |xs| >= 2
    ensures Js.Join(xs, ",") != ""
  {
    assert |Js.Join(xs, ",")| >= 1;
  }

  /** The simple-array encoding loses information: [""] reads back as [] and a comma splits an element. */
  lemma SimpleArrayLossy()
    ensures SimpleArrayFromColumn(SimpleArrayToColumn([""])) == []
    ensures SimpleArrayFromColumn(SimpleArrayToColumn(["a,b"])) == ["a", "b"]
  {
    assert SimpleArrayToColumn(["a,b"]) == "a,b";
    assert Js.Split("b", ',') == ["b"];
    assert Js.IndexOf("a,b", ',') == 1;
    assert "a,b"[2..] == "b";
    assert "a,b"[..1] == "a";
  }

  /** A non-empty column never reads back as `[""]`. */
  lemma SplitNotBlank(s: string)
    requires s != ""
    ensures SimpleArrayFromColumn(s) != [""]
  {
    if ',' in s {
      var i := Js.IndexOf(s, ',');
      assert |Js.Split(s, ',')| == 1 + |Js.Split(s[i + 1..], ',')|;
    }
  }

  /**
   * A report row as a query loads it: `mediaUrls` comes back through the
   * simple-array column (null stays null); the location goes through the
   * point transformer, which gives integer coordinates back unchanged
   * (PointRoundTrip), and every other column is read as written.
   */
  function ReloadRow(r: Report): (l: Report)
    ensures l.(mediaUrls := r.mediaUrls) == r
    ensures l.mediaUrls.Some? <==> r.mediaUrls.Some?
  {
    r.(mediaUrls := if r.mediaUrls.Some? then Some(SimpleArrayFromColumn(SimpleArrayToColumn(r.mediaUrls.value))) else None)
  }

  /** Media lists without commas and other than `[""]` come back as they were saved. */
  lemma ReloadKeepsPlainMedia(r: Report)
    requires r.mediaUrls.Some? ==> (forall k | 0 <= k < |r.mediaUrls.value| :: ',' !in r.mediaUrls.value[k])
    requires r.mediaUrls != Some([""])
    ensures ReloadRow(r) == r
  {
    if r.mediaUrls.Some? {
      SimpleArrayRoundTrip(r.mediaUrls.value);
    }
  }

  /** Loading a loaded row again changes nothing: what one read loses is lost once. */
  lemma {:induction false} ReloadIdempotent(r: Report)
    ensures ReloadRow(ReloadRow(r)) == ReloadRow(r)
  {
    if r.mediaUrls.Some? {
      var s := SimpleArrayToColumn(r.mediaUrls.value);
      if s != "" {
        SplitNotBlank(s);
        SimpleArrayRoundTrip(Js.Split(s, ','));
      }
    }
  }

  /** A stored media URL holding a comma is read back as two entries, and `[""]` as none. */
  lemma ReloadSplitsCommaUrl(r: Report, a: string, b: string)
    requires r.mediaUrls == Some([a + "," + b]) && ',' !in a && ',' !in b
    ensures ReloadRow(r).mediaUrls == Some([a, b])
    ensures ReloadRow(r.(mediaUrls := Some([""]))).mediaUrls == Some([])
  {
    assert SimpleArrayToColumn([a + "," + b]) == Js.Join([a, b], ",");
    Js.SplitJoin([a, b], ',');
    JoinLonger([a, b]);
  }
}
