/**
 * The report lifecycle service of the CityFix backend: a keyed table of
 * reports and an append-only table of status logs, the checks on who may
 * change a report, and the projection of stored reports to responses in
 * which stored media references become URLs.
 *
 * The report and log repositories are the fields of `ReportsService`; the
 * caller's identity, the generated ids and the clock are parameters.
 */
module ReportsService {
  import opened Wrappers
  import opened ReportEntity
  import opened ReportDto
  import Js

  /** `API_URL` and `STORAGE_TYPE`, read once by the constructor. */
  datatype MediaConfig = MediaConfig(apiUrl: string, storageType: string)

  const DefaultApiUrl: string := "http://localhost:3000"
  const DefaultStorageType: string := "local"

  /** `configService.get(key, default)`: the setting when present, else the default. */
  function Setting(value: Option<string>, default: string): (r: string)
    ensures value.Some? ==> r == value.value
    ensures value.None? ==> r == default
  {
    if value.Some? then value.value else default
  }

  // ---------------------------------------------------------------------------
  // Responses

  /** `formatMediaUrl`: stored media references become URLs the clients can load. */
  function FormatMediaUrl(config: MediaConfig, url: string): (r: string)
    ensures Js.StartsWith(url, "http") ==> r == url
    ensures config.storageType == "s3" ==> r == url
    ensures !Js.StartsWith(url, "http") && config.storageType != "s3" ==>
      r == config.apiUrl + "/uploads/" + Js.LastSegment(url)
  {
    if Js.StartsWith(url, "http") then url
    else if config.storageType == "s3" then url
    else
      var parts := Js.Split(url, '/');
      Js.LastSegmentIsLastPart(url);
      config.apiUrl + "/uploads/" + parts[|parts| - 1]
  }

  /** The literal prefix "http" is all that is tested: any text starting with it is kept. */
  lemma FormatKeepsHttpPrefixed(config: MediaConfig, rest: string)
    ensures FormatMediaUrl(config, "http" + rest) == "http" + rest
  {
    assert ("http" + rest)[..4] == "http";
  }

  /** A local reference keeps only its last segment: "a/b/c.jpg" becomes `{apiUrl}/uploads/c.jpg`. */
  lemma FormatDropsDirectories(config: MediaConfig, dir: string, name: string)
    requires config.storageType != "s3" && '/' !in name
    requires !Js.StartsWith(dir + "/" + name, "http")
    ensures FormatMediaUrl(config, dir + "/" + name) == config.apiUrl + "/uploads/" + name
  {
    Js.LastSegmentAfterSlashFree(dir, name);
  }

  /** With an `http…` API URL, formatting an already formatted URL changes nothing. */
  lemma FormatIdempotent(config: MediaConfig, url: string)
    requires Js.StartsWith(config.apiUrl, "http")
    ensures FormatMediaUrl(config, FormatMediaUrl(config, url)) == FormatMediaUrl(config, url)
  {
    var r := FormatMediaUrl(config, url);
    if !Js.StartsWith(url, "http") && config.storageType != "s3" {
      assert r[..4] == config.apiUrl[..4];
    }
  }

  /** Formatting a local reference keeps the file name: the last segment survives. */
  lemma FormatKeepsFileName(config: MediaConfig, url: string)
    requires !Js.StartsWith(url, "http") && config.storageType != "s3"
    ensures Js.LastSegment(FormatMediaUrl(config, url)) == Js.LastSegment(url)
  {
    var seg := Js.LastSegment(url);
    assert FormatMediaUrl(config, url) == (config.apiUrl + "/uploads") + "/" + seg;
    Js.LastSegmentAfterSlashFree(config.apiUrl + "/uploads", seg);
  }

  /** `UserInfoDto`: the creator without password or timestamps. */
  datatype UserInfo = UserInfo(id: string, name: string, email: string, role: UserRole)

  /** `ReportResponseDto`; `statusLogs` is present only when the relation was loaded. */
  datatype ReportResponse = ReportResponse(
    id: string,
    title: string,
    description: string,
    category: ReportCategory,
    imageUrl: Option<string>,
    location: Point,
    streetName: Option<string>,
    status: ReportStatus,
    createdBy: Option<UserInfo>,
    createdAt: int,
    updatedAt: int,
    mediaUrls: seq<string>,
    statusLogs: Option<seq<StatusLog>>)

  function FormatAll(config: MediaConfig, urls: seq<string>): (r: seq<string>)
    ensures |r| == |urls|
    ensures forall k | 0 <= k < |urls| :: r[k] == FormatMediaUrl(config, urls[k])
  {
    if urls == [] then [] else [FormatMediaUrl(config, urls[0])] + FormatAll(config, urls[1..])
  }

  function Info(u: User): UserInfo {
    UserInfo(u.id, u.name, u.email, u.role)
  }

  /** `mapToResponseDto` of a report and, when loaded, its status logs. */
  function MapToResponseDto(config: MediaConfig, r: Report, logs: Option<seq<StatusLog>>): (d: ReportResponse)
    ensures d.imageUrl.None? <==> r.imageUrl.None? || r.imageUrl.value == ""
    ensures d.imageUrl.Some? ==> d.imageUrl.value == FormatMediaUrl(config, r.imageUrl.value)
    ensures r.mediaUrls.None? ==> d.mediaUrls == []
    ensures r.mediaUrls.Some? ==> (|d.mediaUrls| == |r.mediaUrls.value|
      && forall k | 0 <= k < |d.mediaUrls| :: d.mediaUrls[k] == FormatMediaUrl(config, r.mediaUrls.value[k]))
    ensures d.createdBy.None? <==> r.createdBy.None?
    ensures r.createdBy.Some? ==> d.createdBy == Some(UserInfo(r.createdBy.value.id, r.createdBy.value.name,
                                                                r.createdBy.value.email, r.createdBy.value.role))
    ensures (d.id, d.title, d.description, d.category, d.location, d.streetName, d.status, d.createdAt, d.updatedAt)
         == (r.id, r.title, r.description, r.category, r.location, r.streetName, r.status, r.createdAt, r.updatedAt)
    ensures d.statusLogs == logs
  {
    ReportResponse(
      r.id, r.title, r.description, r.category,
      if r.imageUrl.Some? && Js.Truthy(r.imageUrl.value) then Some(FormatMediaUrl(config, r.imageUrl.value)) else None,
      r.location, r.streetName, r.status,
      if r.createdBy.Some? then Some(Info(r.createdBy.value)) else None,
      r.createdAt, r.updatedAt,
      if r.mediaUrls.Some? then FormatAll(config, r.mediaUrls.value) else [],
      logs)
  }

  // ---------------------------------------------------------------------------
  // Errors and authorization

  datatype ServiceError =
    | NotFound(message: string)
    | Forbidden(message: string)
    /** `report.createdBy.id` on a report whose creator is null: a TypeError, answered with 500. */
    | CreatorMissing
    /** The database refused the write: deleting a report that status logs still reference. */
    | StoreRejected

  function NotFoundMessage(id: string): string {
    "Report with ID " + id + " not found"
  }

  const UpdateForbidden: string := "You can only update your own reports"
  const DeleteForbidden: string := "You can only delete your own reports"
  const MissingUser: string := "User information is missing"
  const AdminOnly: string := "Only administrators can update report status"

  /** The owner-or-admin test of `update` and `remove`, with the error each failure raises. */
  function CheckOwnerOrAdmin(r: Report, user: User, message: string): (e: Option<ServiceError>)
    ensures e.None? <==> r.createdBy.Some? && (r.createdBy.value.id == user.id || user.role == Admin)
    ensures e == Some(CreatorMissing) <==> r.createdBy.None?
    ensures e.Some? && r.createdBy.Some? ==> e.value == Forbidden(message)
  {
    if r.createdBy.None? then Some(CreatorMissing)
    else if r.createdBy.value.id != user.id && RoleValue(user.role) != "admin" then Some(Forbidden(message))
    else None
  }

  /** The caller of `updateStatus` as the JWT guard hands it over. */
  datatype StatusCaller = StatusCaller(userId: string, email: string, role: string)

  function CheckAdmin(caller: Option<StatusCaller>): (e: Option<ServiceError>)
    ensures e.None? <==> caller.Some? && caller.value.role == "admin"
    ensures caller.None? ==> e == Some(Forbidden(MissingUser))
    ensures caller.Some? && caller.value.role != "admin" ==> e == Some(Forbidden(AdminOnly))
  {
    if caller.None? then Some(Forbidden(MissingUser))
    else if caller.value.role != "admin" then Some(Forbidden(AdminOnly))
    else None
  }

  // ---------------------------------------------------------------------------
  // New and updated rows

  /**
   * The row `create` saves, as written: the body is spread into the entity,
   * so an undeclared `status` in the body is stored.
   */
  function NewReportAsWritten(dto: CreateReportDto, user: User, id: string, now: int): (r: Report)
    ensures dto.status.Some? ==> r.status == dto.status.value
    ensures dto.status.None? ==> r.status == Pending
    ensures r.createdBy == Some(user)
    ensures r.id == id && r.createdAt == now && r.updatedAt == now
    ensures (r.title, r.description, r.category, r.location, r.streetName, r.mediaUrls, r.imageUrl)
         == (dto.title, dto.description, dto.category, dto.location, dto.streetName, dto.mediaUrls, dto.imageUrl)
  {
    Report(id, dto.title, dto.description, dto.category, dto.imageUrl, dto.location, dto.streetName,
           if dto.status.Some? then dto.status.value else DefaultStatus,
           Some(user), now, now, dto.mediaUrls)
  }

  /** A citizen creating a report can set it to resolved straight away. */
  lemma CreateSetsStatusAsWritten(dto: CreateReportDto, user: User, id: string, now: int)
    requires dto.status == Some(Resolved) && user.role == Citizen
    ensures NewReportAsWritten(dto, user, id, now).status == Resolved
  {
  }

  /**
   * The row `create` saves: the declared fields of the body, the caller as
   * creator and the column default for the status.
   */
  function NewReport(dto: CreateReportDto, user: User, id: string, now: int): (r: Report)
    ensures r.status == Pending
    ensures r.createdBy == Some(user)
    ensures r.id == id && r.createdAt == now && r.updatedAt == now
    ensures (r.title, r.description, r.category, r.location, r.streetName, r.mediaUrls, r.imageUrl)
         == (dto.title, dto.description, dto.category, dto.location, dto.streetName, dto.mediaUrls, dto.imageUrl)
  {
    NewReportAsWritten(dto.(status := None), user, id, now)
  }

  function Patched<T>(old_: Option<T>, p: Patch<T>): Option<T> {
    match p
    case Keep => old_
    case SetNull => None
    case SetTo(v) => Some(v)
  }

  function Overwritten<T>(old_: T, p: Option<T>): T {
    if p.Some? then p.value else old_
  }

  /** `Object.assign(report, dto)` as written: an undeclared `status` in the body is copied too. */
  function ApplyUpdateAsWritten(r: Report, dto: UpdateReportDto, now: int): (u: Report)
    ensures dto.status.Some? ==> u.status == dto.status.value
    ensures dto.status.None? ==> u.status == r.status
    ensures (u.id, u.createdBy, u.createdAt) == (r.id, r.createdBy, r.createdAt)
    ensures u.updatedAt == now
  {
    r.(title := Overwritten(r.title, dto.title),
       description := Overwritten(r.description, dto.description),
       category := Overwritten(r.category, dto.category),
       location := Overwritten(r.location, dto.location),
       mediaUrls := Patched(r.mediaUrls, dto.mediaUrls),
       streetName := Patched(r.streetName, dto.streetName),
       imageUrl := Patched(r.imageUrl, dto.imageUrl),
       status := Overwritten(r.status, dto.status),
       updatedAt := now)
  }

  /** The owner of a pending report can mark it resolved through `update`, without the admin check. */
  lemma UpdateSetsStatusAsWritten(r: Report, dto: UpdateReportDto, now: int)
    requires r.status == Pending && dto.status == Some(Resolved)
    ensures ApplyUpdateAsWritten(r, dto, now).status == Resolved
  {
  }

  /**
   * `Object.assign(report, dto)` followed by `save`: every property present in
   * the body overwrites its column, every other column keeps its value, the
   * status is left to `updateStatus` and `updatedAt` moves to the save time.
   */
  function ApplyUpdate(r: Report, dto: UpdateReportDto, now: int): (u: Report)
    ensures u.title == (if dto.title.Some? then dto.title.value else r.title)
    ensures u.description == (if dto.description.Some? then dto.description.value else r.description)
    ensures u.category == (if dto.category.Some? then dto.category.value else r.category)
    ensures u.location == (if dto.location.Some? then dto.location.value else r.location)
    ensures dto.mediaUrls.Keep? ==> u.mediaUrls == r.mediaUrls
    ensures dto.mediaUrls.SetNull? ==> u.mediaUrls.None?
    ensures dto.mediaUrls.SetTo? ==> u.mediaUrls == Some(dto.mediaUrls.value)
    ensures dto.streetName.Keep? ==> u.streetName == r.streetName
    ensures dto.streetName.SetNull? ==> u.streetName.None?
    ensures dto.streetName.SetTo? ==> u.streetName == Some(dto.streetName.value)
    ensures dto.imageUrl.Keep? ==> u.imageUrl == r.imageUrl
    ensures dto.imageUrl.SetNull? ==> u.imageUrl.None?
    ensures dto.imageUrl.SetTo? ==> u.imageUrl == Some(dto.imageUrl.value)
    ensures (u.id, u.status, u.createdBy, u.createdAt) == (r.id, r.status, r.createdBy, r.createdAt)
    ensures u.updatedAt == now
  {
    ApplyUpdateAsWritten(r, dto.(status := None), now)
  }

  /** The as-written create and update differ from the intended ones in the status alone. */
  lemma AsWrittenDiffersOnlyInStatus(dto: CreateReportDto, user: User, id: string, now: int,
                                     r: Report, patch: UpdateReportDto)
    ensures NewReportAsWritten(dto, user, id, now).(status := Pending) == NewReport(dto, user, id, now)
    ensures ApplyUpdateAsWritten(r, patch, now).(status := r.status) == ApplyUpdate(r, patch, now)
  {
  }

  /** An update whose body names no property changes nothing but the save time. */
  lemma EmptyUpdateKeepsReport(r: Report, now: int)
    ensures ApplyUpdate(r, UpdateReportDto(None, None, None, None, Keep, Keep, Keep, None), now)
         == r.(updatedAt := now)
  {
  }

  // ---------------------------------------------------------------------------
  // Table queries

  /** The position of the row with this id. */
  function Locate(rows: seq<Report>, id: string): (r: Option<nat>)
    ensures r.Some? ==> r.value < |rows| && rows[r.value].id == id
    ensures r.None? ==> forall k | 0 <= k < |rows| :: rows[k].id != id
  {
    if rows == [] then None
    else if rows[|rows| - 1].id == id then Some(|rows| - 1)
    else Locate(rows[..|rows| - 1], id)
  }

  predicate DistinctIds(rows: seq<Report>) {
    forall i, j | 0 <= i < j < |rows| :: rows[i].id != rows[j].id
  }

  lemma LocateUnique(rows: seq<Report>, id: string, k: nat)
    requires DistinctIds(rows) && k < |rows| && rows[k].id == id
    ensures Locate(rows, id) == Some(k)
  {
  }

  /** The logs of one report, oldest first. */
  function LogsOf(logs: seq<StatusLog>, id: string): (r: seq<StatusLog>)
    ensures forall k | 0 <= k < |r| :: r[k].reportId == id && r[k] in logs
    ensures |r| <= |logs|
  {
    if logs == [] then []
    else LogsOf(logs[..|logs| - 1], id) + (if logs[|logs| - 1].reportId == id then [logs[|logs| - 1]] else [])
  }

  lemma LogsOfEmpty(logs: seq<StatusLog>, id: string)
    ensures LogsOf(logs, id) == [] <==> forall k | 0 <= k < |logs| :: logs[k].reportId != id
  {
    if logs != [] {
      LogsOfEmpty(logs[..|logs| - 1], id);
      var init := logs[..|logs| - 1];
      assert forall k | 0 <= k < |init| :: init[k] == logs[k];
    }
  }

  /** Appending a log adds it to the end of its own report's history and to no other. */
  lemma LogsOfAppend(logs: seq<StatusLog>, entry: StatusLog, id: string)
    ensures LogsOf(logs + [entry], id) == LogsOf(logs, id) + (if entry.reportId == id then [entry] else [])
  {
    assert (logs + [entry])[..|logs|] == logs;
  }

  predicate CreatedBy(r: Report, userId: string) {
    r.createdBy.Some? && r.createdBy.value.id == userId
  }

  /** The rows whose creator has this id, in table order. */
  function RowsOf(rows: seq<Report>, userId: string): (r: seq<Report>)
    ensures forall k | 0 <= k < |r| :: CreatedBy(r[k], userId) && r[k] in rows
  {
    if rows == [] then []
    else RowsOf(rows[..|rows| - 1], userId) + (if CreatedBy(rows[|rows| - 1], userId) then [rows[|rows| - 1]] else [])
  }

  /** `findByUser` selects exactly the reports of that creator. */
  lemma {:induction false} RowsOfExact(rows: seq<Report>, userId: string, x: Report)
    ensures x in RowsOf(rows, userId) <==> x in rows && CreatedBy(x, userId)
  {
    if rows != [] {
      var init := rows[..|rows| - 1];
      RowsOfExact(init, userId, x);
      assert rows == init + [rows[|rows| - 1]];
    }
  }

  /** A created row belongs to its creator's list, after that creator's earlier rows. */
  lemma RowsOfAfterCreate(rows: seq<Report>, dto: CreateReportDto, user: User, id: string, now: int)
    ensures RowsOf(rows + [NewReport(dto, user, id, now)], user.id) == RowsOf(rows, user.id) + [NewReport(dto, user, id, now)]
  {
    assert (rows + [NewReport(dto, user, id, now)])[..|rows|] == rows;
  }

  /** `find()` then `map(mapToResponseDto)`: each row as the query loads it, projected, in order. */
  function MapAll(config: MediaConfig, rows: seq<Report>): (r: seq<ReportResponse>)
    ensures |r| == |rows|
    ensures forall k | 0 <= k < |rows| :: r[k] == MapToResponseDto(config, ReloadRow(rows[k]), None)
  {
    if rows == [] then [] else [MapToResponseDto(config, ReloadRow(rows[0]), None)] + MapAll(config, rows[1..])
  }

  function RemoveAt(rows: seq<Report>, k: nat): (r: seq<Report>)
    requires k < |rows|
    ensures |r| == |rows| - 1
    ensures forall j | 0 <= j < k :: r[j] == rows[j]
    ensures forall j | k <= j < |r| :: r[j] == rows[j + 1]
  {
    rows[..k] + rows[k + 1..]
  }

  // ---------------------------------------------------------------------------
  // The service

  class ReportsService {
    const config: MediaConfig
    /** The report table, in insertion order. */
    var reports: seq<Report>
    /** The status-log table, append-only. */
    var logs: seq<StatusLog>

    ghost predicate Valid()
      reads this
    {
      DistinctIds(reports)
    }

    constructor (apiUrl: Option<string>, storageType: Option<string>, rows: seq<Report>, logRows: seq<StatusLog>)
      requires DistinctIds(rows)
      ensures Valid()
      ensures config == MediaConfig(Setting(apiUrl, DefaultApiUrl), Setting(storageType, DefaultStorageType))
      ensures reports == rows && logs == logRows
    {
      config := MediaConfig(Setting(apiUrl, DefaultApiUrl), Setting(storageType, DefaultStorageType));
      reports := rows;
      logs := logRows;
    }

    /**
     * `findOneEntity`: the report with its creator and its status logs, or
     * NotFound; the row is loaded, so its `mediaUrls` went through the column.
     */
    function FindOneEntity(id: string): (r: Result<(Report, seq<StatusLog>), ServiceError>)
      reads this
      ensures r.Failure? <==> forall k | 0 <= k < |reports| :: reports[k].id != id
      ensures r.Failure? ==> r.error == NotFound(NotFoundMessage(id))
      ensures r.Success? ==>
        && r.value.0.id == id && r.value.1 == LogsOf(logs, id)
        && exists k | 0 <= k < |reports| :: reports[k].id == id && r.value.0 == ReloadRow(reports[k])
    {
      match Locate(reports, id)
      case None => Failure(NotFound(NotFoundMessage(id)))
      case Some(k) => Success((ReloadRow(reports[k]), LogsOf(logs, id)))
    }

    function FindOne(id: string): (r: Result<ReportResponse, ServiceError>)
      reads this
      ensures r.Failure? <==> forall k | 0 <= k < |reports| :: reports[k].id != id
      ensures r.Failure? ==> r.error == NotFound(NotFoundMessage(id))
      ensures r.Success? ==> r.value.id == id && r.value.statusLogs == Some(LogsOf(logs, id))
      ensures r.Success? ==> r.value == MapToResponseDto(config, FindOneEntity(id).value.0, Some(LogsOf(logs, id)))
    {
      match FindOneEntity(id)
      case Failure(e) => Failure(e)
      case Success((row, history)) => Success(MapToResponseDto(config, row, Some(history)))
    }

    function FindAll(): (r: seq<ReportResponse>)
      reads this
      ensures |r| == |reports|
      ensures forall k | 0 <= k < |r| :: r[k] == MapToResponseDto(config, ReloadRow(reports[k]), None)
    {
      MapAll(config, reports)
    }

    function FindByUser(userId: string): (r: seq<ReportResponse>)
      reads this
      ensures |r| == |RowsOf(reports, userId)|
      ensures forall k | 0 <= k < |r| :: r[k].createdBy.Some? && r[k].createdBy.value.id == userId
      ensures forall k | 0 <= k < |r| :: r[k] == MapToResponseDto(config, ReloadRow(RowsOf(reports, userId)[k]), None)
    {
      MapAll(config, RowsOf(reports, userId))
    }

    /** `create`: saves the new row and answers with it; `id` is the generated uuid and `now` the insert time. */
    method Create(dto: CreateReportDto, user: User, id: string, now: int) returns (r: Result<ReportResponse, ServiceError>)
      requires Valid()
      requires forall k | 0 <= k < |reports| :: reports[k].id != id
      modifies this
      ensures Valid()
      ensures reports == old(reports) + [NewReport(dto, user, id, now)]
      ensures logs == old(logs)
      ensures r == Success(MapToResponseDto(config, NewReport(dto, user, id, now), None))
    {
      var row := NewReport(dto, user, id, now);
      reports := reports + [row];
      r := Success(MapToResponseDto(config, row, None));
    }

    /**
     * `update`: NotFound for an unknown id, before any authorization; then the
     * owner-or-admin test; then the body is applied to the loaded row, which
     * is saved and answered as `save` returns it.
     */
    method Update(id: string, dto: UpdateReportDto, user: User, now: int) returns (r: Result<ReportResponse, ServiceError>)
      requires Valid()
      modifies this
      ensures Valid()
      ensures logs == old(logs)
      ensures Locate(old(reports), id).None? ==> r == Failure(NotFound(NotFoundMessage(id))) && reports == old(reports)
      ensures Locate(old(reports), id).Some? ==>
        var k := Locate(old(reports), id).value;
        var check := CheckOwnerOrAdmin(old(reports)[k], user, UpdateForbidden);
        if check.Some? then r == Failure(check.value) && reports == old(reports)
        else
          && reports == old(reports)[k := ApplyUpdate(ReloadRow(old(reports)[k]), dto, now)]
          && r == Success(MapToResponseDto(config, ApplyUpdate(ReloadRow(old(reports)[k]), dto, now), Some(LogsOf(logs, id))))
    {
      var found := Locate(reports, id);
      if found.None? {
        return Failure(NotFound(NotFoundMessage(id)));
      }
      var k := found.value;
      var loaded := ReloadRow(reports[k]);
      var check := CheckOwnerOrAdmin(loaded, user, UpdateForbidden);
      if check.Some? {
        return Failure(check.value);
      }
      var saved := ApplyUpdate(loaded, dto, now);
      reports := reports[k := saved];
      r := Success(MapToResponseDto(config, saved, Some(LogsOf(logs, id))));
    }

    /**
     * `updateStatus`: NotFound first, then the caller must be present and an
     * admin; then one log row is appended and, as a second write, the
     * report's status column is overwritten.  Any status may follow any other.
     * The answer is the row loaded again after both writes.
     */
    method UpdateStatus(id: string, dto: UpdateReportStatusDto, caller: Option<StatusCaller>, logId: string, now: int)
      returns (r: Result<ReportResponse, ServiceError>)
      requires Valid()
      modifies this
      ensures Valid()
      ensures Locate(old(reports), id).None? ==>
        r == Failure(NotFound(NotFoundMessage(id))) && reports == old(reports) && logs == old(logs)
      ensures Locate(old(reports), id).Some? && CheckAdmin(caller).Some? ==>
        r == Failure(CheckAdmin(caller).value) && reports == old(reports) && logs == old(logs)
      ensures Locate(old(reports), id).Some? && CheckAdmin(caller).None? ==>
        var k := Locate(old(reports), id).value;
        && logs == old(logs) + [StatusLog(logId, id, dto.status, dto.comment, caller.value.userId, now)]
        && reports == old(reports)[k := old(reports)[k].(status := dto.status, updatedAt := now)]
        && r == Success(MapToResponseDto(config, ReloadRow(reports[k]), Some(LogsOf(logs, id))))
    {
      var found := Locate(reports, id);
      if found.None? {
        return Failure(NotFound(NotFoundMessage(id)));
      }
      var check := CheckAdmin(caller);
      if check.Some? {
        return Failure(check.value);
      }
      var k := found.value;
      logs := logs + [StatusLog(logId, id, dto.status, dto.comment, caller.value.userId, now)];
      reports := reports[k := reports[k].(status := dto.status, updatedAt := now)];
      r := Success(MapToResponseDto(config, ReloadRow(reports[k]), Some(LogsOf(logs, id))));
    }

    /**
     * `remove`: NotFound, then owner-or-admin; the status-log foreign key
     * declares no cascade, so the database refuses to delete a report that
     * still has logs.
     */
    method Remove(id: string, user: User) returns (r: Result<(), ServiceError>)
      requires Valid()
      modifies this
      ensures Valid()
      ensures logs == old(logs)
      ensures Locate(old(reports), id).None? ==> r == Failure(NotFound(NotFoundMessage(id))) && reports == old(reports)
      ensures Locate(old(reports), id).Some? ==>
        var k := Locate(old(reports), id).value;
        var check := CheckOwnerOrAdmin(old(reports)[k], user, DeleteForbidden);
        if check.Some? then r == Failure(check.value) && reports == old(reports)
        else if LogsOf(logs, id) != [] then r == Failure(StoreRejected) && reports == old(reports)
        else r == Success(()) && reports == RemoveAt(old(reports), k)
    {
      var found := Locate(reports, id);
      if found.None? {
        return Failure(NotFound(NotFoundMessage(id)));
      }
      var k := found.value;
      var check := CheckOwnerOrAdmin(reports[k], user, DeleteForbidden);
      if check.Some? {
        return Failure(check.value);
      }
      if LogsOf(logs, id) != [] {
        return Failure(StoreRejected);
      }
      reports := RemoveAt(reports, k);
      r := Success(());
    }
  }

  // ---------------------------------------------------------------------------
  // Properties across operations

  /** After `create`, the new report is found by its id and listed for its creator. */
  lemma CreateThenFind(s: ReportsService, dto: CreateReportDto, user: User, id: string, now: int)
    requires s.Valid()
    requires s.reports != [] && s.reports[|s.reports| - 1] == NewReport(dto, user, id, now)
    ensures s.FindOne(id).Success? && s.FindOne(id).value.status == Pending
    ensures NewReport(dto, user, id, now) in RowsOf(s.reports, user.id)
  {
    LocateUnique(s.reports, id, |s.reports| - 1);
    RowsOfExact(s.reports, user.id, NewReport(dto, user, id, now));
  }

  /**
   * The media of a created report are read back in order, each resolved to its
   * URL, provided no URL holds a comma and the list is not `[""]`.
   */
  lemma CreatedMediaFound(s: ReportsService, dto: CreateReportDto, user: User, id: string, now: int)
    requires s.Valid()
    requires s.reports != [] && s.reports[|s.reports| - 1] == NewReport(dto, user, id, now)
    requires dto.mediaUrls.Some? && dto.mediaUrls.value != [""]
    requires forall k | 0 <= k < |dto.mediaUrls.value| :: ',' !in dto.mediaUrls.value[k]
    ensures s.FindOne(id).Success?
    ensures s.FindOne(id).value.mediaUrls == FormatAll(s.config, dto.mediaUrls.value)
  {
    LocateUnique(s.reports, id, |s.reports| - 1);
    ReloadKeepsPlainMedia(NewReport(dto, user, id, now));
  }

  /** A removed report is no longer found. */
  lemma RemovedNotFound(rows: seq<Report>, k: nat)
    requires DistinctIds(rows) && k < |rows|
    ensures Locate(RemoveAt(rows, k), rows[k].id).None?
    ensures DistinctIds(RemoveAt(rows, k))
  {
    var r := RemoveAt(rows, k);
    forall j | 0 <= j < |r| ensures r[j].id != rows[k].id {
      if j >= k {
        assert r[j] == rows[j + 1];
      }
    }
  }

  /** A status change is visible to the next read, together with its log entry at the end of the history. */
  lemma StatusChangeVisible(rows: seq<Report>, logs: seq<StatusLog>, k: nat, entry: StatusLog, t: ReportStatus, now: int)
    requires DistinctIds(rows) && k < |rows| && entry.reportId == rows[k].id
    ensures var rows' := rows[k := rows[k].(status := t, updatedAt := now)];
      && Locate(rows', rows[k].id) == Some(k)
      && rows'[k].status == t
      && LogsOf(logs + [entry], rows[k].id) == LogsOf(logs, rows[k].id) + [entry]
  {
    var rows' := rows[k := rows[k].(status := t, updatedAt := now)];
    assert DistinctIds(rows');
    LocateUnique(rows', rows[k].id, k);
    LogsOfAppend(logs, entry, rows[k].id);
  }
}
