/**
 * The request bodies of the report endpoints and the class-validator
 * constraints declared on them, as validity predicates over JSON bodies,
 * together with the typed values the service receives once a body passes.
 *
 * The global `ValidationPipe` is built without `whitelist` and without
 * `transform`, so a body that passes reaches the service as sent, with every
 * undeclared property still on it.  Two undeclared properties matter to the
 * service: `imageUrl` and `status`, which the spread in `create` and the
 * `Object.assign` in `update` copy onto the report.
 */
module ReportDto {
  import opened Wrappers
  import opened ReportEntity

  /** A parsed JSON value; numbers are modelled on the integers. */
  datatype Json =
    | JNull
    | JBool(b: bool)
    | JNumber(n: int)
    | JString(s: string)
    | JArray(items: seq<Json>)
    | JObject(fields: map<string, Json>)

  /** A request body: a JSON object; a missing key is `undefined`. */
  type Body = map<string, Json>

  // ---------------------------------------------------------------------------
  // class-validator decorators

  /** `@IsOptional()`: the property is `null` or `undefined`, so the other checks are skipped. */
  predicate Absent(b: Body, key: string) {
    key !in b || b[key].JNull?
  }

  /** `@IsString()`. */
  predicate IsString(v: Json) {
    v.JString?
  }

  /** `@IsString({ each: true })`: every element of an array is a string; a non-array must be one itself. */
  predicate IsStringEach(v: Json) {
    if v.JArray? then forall k | 0 <= k < |v.items| :: v.items[k].JString? else v.JString?
  }

  /** `@IsEnum(ReportCategory)`: one of the enum's string values. */
  predicate IsCategory(v: Json) {
    v.JString? && ParseCategory(v.s).Some?
  }

  /** `@IsEnum(ReportStatus)`. */
  predicate IsStatus(v: Json) {
    v.JString? && ParseStatus(v.s).Some?
  }

  /** `@IsObject()`: a non-null object that is not an array. */
  predicate IsObject(v: Json) {
    v.JObject?
  }

  /** A declared property that is required: present and passing `check`. */
  predicate Required(b: Body, key: string, check: Json -> bool) {
    key in b && check(b[key])
  }

  /** A declared property marked `@IsOptional()`: absent, null, or passing `check`. */
  predicate Optional(b: Body, key: string, check: Json -> bool) {
    Absent(b, key) || check(b[key])
  }

  /** `CreateReportDto`. */
  predicate ValidCreate(b: Body) {
    && Required(b, "title", IsString)
    && Required(b, "description", IsString)
    && Required(b, "category", IsCategory)
    && Required(b, "location", IsObject)
    && Optional(b, "mediaUrls", IsStringEach)
    && Optional(b, "streetName", IsString)
  }

  /** `UpdateReportDto`: every declared property is optional. */
  predicate ValidUpdate(b: Body) {
    && Optional(b, "title", IsString)
    && Optional(b, "description", IsString)
    && Optional(b, "category", IsCategory)
    && Optional(b, "mediaUrls", IsStringEach)
    && Optional(b, "location", IsObject)
    && Optional(b, "streetName", IsString)
  }

  /** `UpdateReportStatusDto`. */
  predicate ValidStatusUpdate(b: Body) {
    && Required(b, "status", IsStatus)
    && Optional(b, "comment", IsString)
  }

  // ---------------------------------------------------------------------------
  // Typed request values

  /** A nullable column written by `Object.assign`: left alone, set to null, or set to a value. */
  datatype Patch<T> = Keep | SetNull | SetTo(value: T)

  datatype CreateReportDto = CreateReportDto(
    title: string,
    description: string,
    category: ReportCategory,
    location: Point,
    mediaUrls: Option<seq<string>>,
    streetName: Option<string>,
    // undeclared, copied by the spread
    imageUrl: Option<string>,
    status: Option<ReportStatus>)

  datatype UpdateReportDto = UpdateReportDto(
    title: Option<string>,
    description: Option<string>,
    category: Option<ReportCategory>,
    location: Option<Point>,
    mediaUrls: Patch<seq<string>>,
    streetName: Patch<string>,
    // undeclared, copied by `Object.assign`
    imageUrl: Patch<string>,
    status: Option<ReportStatus>)

  datatype UpdateReportStatusDto = UpdateReportStatusDto(status: ReportStatus, comment: Option<string>)

  /**
   * The outcome of validating a body: rejected with 400 Bad Request, accepted
   * as a typed value, or accepted but carrying values this model does not
   * follow further (a location without integer `x` and `y`, a bare string for
   * `mediaUrls`, null in a non-nullable column, an undeclared `status` outside
   * the enum, or undeclared `id`, `createdBy`, `statusLogs`, `createdAt`,
   * `updatedAt`).
   */
  datatype Decoded<T> = Accepted(dto: T) | Invalid | OutsideModel

  function PointOf(v: Json): Option<Point> {
    if v.JObject? && "x" in v.fields && v.fields["x"].JNumber? && "y" in v.fields && v.fields["y"].JNumber?
    then Some(Point(v.fields["x"].n, v.fields["y"].n))
    else None
  }

  function Strings(items: seq<Json>): (r: seq<string>)
    requires forall k | 0 <= k < |items| :: items[k].JString?
    ensures |r| == |items|
    ensures forall k | 0 <= k < |items| :: r[k] == items[k].s
  {
    if items == [] then [] else [items[0].s] + Strings(items[1..])
  }

  predicate NoUnmodelledKeys(b: Body) {
    "id" !in b && "createdBy" !in b && "statusLogs" !in b && "createdAt" !in b && "updatedAt" !in b
  }

  /** An array of strings, or absent/null. */
  predicate ModelledArray(b: Body, key: string) {
    Absent(b, key) || (b[key].JArray? && forall k | 0 <= k < |b[key].items| :: b[key].items[k].JString?)
  }

  function ArrayField(b: Body, key: string): Option<seq<string>>
    requires ModelledArray(b, key)
  {
    if Absent(b, key) then None else Some(Strings(b[key].items))
  }

  function ArrayPatch(b: Body, key: string): Patch<seq<string>>
    requires ModelledArray(b, key)
  {
    if key !in b then Keep else if b[key].JNull? then SetNull else SetTo(Strings(b[key].items))
  }

  predicate ModelledText(b: Body, key: string) {
    Absent(b, key) || b[key].JString?
  }

  function TextField(b: Body, key: string): Option<string>
    requires ModelledText(b, key)
  {
    if Absent(b, key) then None else Some(b[key].s)
  }

  function TextPatch(b: Body, key: string): Patch<string>
    requires ModelledText(b, key)
  {
    if key !in b then Keep else if b[key].JNull? then SetNull else SetTo(b[key].s)
  }

  /** An undeclared `status`: absent, or one of the enum's strings. */
  predicate ModelledStatus(b: Body) {
    "status" !in b || IsStatus(b["status"])
  }

  function StatusField(b: Body): Option<ReportStatus>
    requires ModelledStatus(b)
  {
    if "status" !in b then None else ParseStatus(b["status"].s)
  }

  predicate ModelledCreate(b: Body)
    requires ValidCreate(b)
  {
    && PointOf(b["location"]).Some?
    && ModelledArray(b, "mediaUrls")
    && ModelledText(b, "imageUrl")
    && ModelledStatus(b)
    && NoUnmodelledKeys(b)
  }

  function DecodeCreate(b: Body): (r: Decoded<CreateReportDto>)
    ensures r.Invalid? <==> !ValidCreate(b)
    ensures r.Accepted? ==>
      && b["title"] == JString(r.dto.title)
      && b["description"] == JString(r.dto.description)
      && b["category"] == JString(CategoryValue(r.dto.category))
      && (r.dto.status.Some? <==> "status" in b)
      && (r.dto.status.Some? ==> b["status"] == JString(StatusValue(r.dto.status.value)))
      && PointOf(b["location"]) == Some(r.dto.location)
      && (r.dto.streetName.Some? <==> !Absent(b, "streetName"))
      && (r.dto.streetName.Some? ==> b["streetName"] == JString(r.dto.streetName.value))
      && (r.dto.imageUrl.Some? <==> !Absent(b, "imageUrl"))
      && (r.dto.imageUrl.Some? ==> b["imageUrl"] == JString(r.dto.imageUrl.value))
      && (r.dto.mediaUrls.Some? <==> !Absent(b, "mediaUrls"))
      && (r.dto.mediaUrls.Some? ==>
            b["mediaUrls"].JArray? && |b["mediaUrls"].items| == |r.dto.mediaUrls.value|
            && forall k | 0 <= k < |r.dto.mediaUrls.value| :: b["mediaUrls"].items[k] == JString(r.dto.mediaUrls.value[k]))
  {
    if !ValidCreate(b) then Invalid
    else if !ModelledCreate(b) then OutsideModel
    else Accepted(CreateReportDto(
      b["title"].s,
      b["description"].s,
      ParseCategory(b["category"].s).value,
      PointOf(b["location"]).value,
      ArrayField(b, "mediaUrls"),
      TextField(b, "streetName"),
      TextField(b, "imageUrl"),
      StatusField(b)))
  }

  predicate ModelledUpdate(b: Body)
    requires ValidUpdate(b)
  {
    && ("title" !in b || b["title"].JString?)
    && ("description" !in b || b["description"].JString?)
    && ("category" !in b || b["category"].JString?)
    && ("location" !in b || PointOf(b["location"]).Some?)
    && ModelledArray(b, "mediaUrls")
    && ModelledText(b, "imageUrl")
    && ModelledStatus(b)
    && NoUnmodelledKeys(b)
  }

  function DecodeUpdate(b: Body): (r: Decoded<UpdateReportDto>)
    ensures r.Invalid? <==> !ValidUpdate(b)
    ensures r.Accepted? ==>
      && (r.dto.title.Some? <==> "title" in b)
      && (r.dto.title.Some? ==> b["title"] == JString(r.dto.title.value))
      && (r.dto.description.Some? <==> "description" in b)
      && (r.dto.description.Some? ==> b["description"] == JString(r.dto.description.value))
      && (r.dto.category.Some? <==> "category" in b)
      && (r.dto.category.Some? ==> b["category"] == JString(CategoryValue(r.dto.category.value)))
      && (r.dto.location.Some? <==> "location" in b)
      && (r.dto.location.Some? ==> PointOf(b["location"]) == r.dto.location)
      && (r.dto.status.Some? <==> "status" in b)
      && (r.dto.status.Some? ==> b["status"] == JString(StatusValue(r.dto.status.value)))
      && (r.dto.streetName.Keep? <==> "streetName" !in b)
      && (r.dto.streetName.SetNull? <==> "streetName" in b && b["streetName"].JNull?)
      && (r.dto.streetName.SetTo? ==> b["streetName"] == JString(r.dto.streetName.value))
      && (r.dto.imageUrl.Keep? <==> "imageUrl" !in b)
      && (r.dto.imageUrl.SetNull? <==> "imageUrl" in b && b["imageUrl"].JNull?)
      && (r.dto.imageUrl.SetTo? ==> b["imageUrl"] == JString(r.dto.imageUrl.value))
      && (r.dto.mediaUrls.Keep? <==> "mediaUrls" !in b)
      && (r.dto.mediaUrls.SetNull? <==> "mediaUrls" in b && b["mediaUrls"].JNull?)
      && (r.dto.mediaUrls.SetTo? ==>
            b["mediaUrls"].JArray? && |b["mediaUrls"].items| == |r.dto.mediaUrls.value|
            && forall k | 0 <= k < |r.dto.mediaUrls.value| :: b["mediaUrls"].items[k] == JString(r.dto.mediaUrls.value[k]))
  {
    if !ValidUpdate(b) then Invalid
    else if !ModelledUpdate(b) then OutsideModel
    else Accepted(UpdateReportDto(
      TextField(b, "title"),
      TextField(b, "description"),
      if "category" in b then ParseCategory(b["category"].s) else None,
      if "location" in b then PointOf(b["location"]) else None,
      ArrayPatch(b, "mediaUrls"),
      TextPatch(b, "streetName"),
      TextPatch(b, "imageUrl"),
      StatusField(b)))
  }

  function DecodeStatusUpdate(b: Body): (r: Decoded<UpdateReportStatusDto>)
    ensures r.Invalid? <==> !ValidStatusUpdate(b)
    ensures r.OutsideModel? == false
    ensures r.Accepted? ==>
      && b["status"] == JString(StatusValue(r.dto.status))
      && (r.dto.comment.Some? <==> !Absent(b, "comment"))
      && (r.dto.comment.Some? ==> b["comment"] == JString(r.dto.comment.value))
  {
    if !ValidStatusUpdate(b) then Invalid
    else Accepted(UpdateReportStatusDto(ParseStatus(b["status"].s).value, TextField(b, "comment")))
  }

  // ---------------------------------------------------------------------------
  // Properties of the declared constraints

  /** Only `IsString` guards title and description: the empty string passes. */
  lemma EmptyTitleAccepted(b: Body)
    requires ValidCreate(b)
    ensures ValidCreate(b["title" := JString("")]["description" := JString("")])
  {
  }

  /** Every property of the update body is optional: the empty body passes. */
  lemma EmptyUpdateAccepted()
    ensures ValidUpdate(map[])
    ensures DecodeUpdate(map[]) == Accepted(UpdateReportDto(None, None, None, None, Keep, Keep, Keep, None))
  {
  }

  /** Neither create nor update declares `status`, so its value never affects validation. */
  lemma StatusUndeclared(b: Body, v: Json)
    ensures ValidCreate(b) <==> ValidCreate(b["status" := v])
    ensures ValidUpdate(b) <==> ValidUpdate(b["status" := v])
  {
    var c := b["status" := v];
    assert forall key | key != "status" :: (key in b <==> key in c) && (key in b ==> b[key] == c[key]);
  }

  /** The keys the decoders read: the declared ones, `imageUrl`, `status` and the five entity columns. */
  predicate ReadKey(key: string) {
    key in {"title", "description", "category", "location", "mediaUrls", "streetName", "imageUrl", "status",
            "id", "createdBy", "statusLogs", "createdAt", "updatedAt"}
  }

  /**
   * Without `whitelist`, any other key is neither refused nor decoded: adding
   * it to a body changes no verdict and no decoded value.
   */
  lemma OtherKeysIgnored(b: Body, key: string, v: Json)
    requires !ReadKey(key)
    ensures DecodeCreate(b[key := v]) == DecodeCreate(b)
    ensures DecodeUpdate(b[key := v]) == DecodeUpdate(b)
  {
    var c := b[key := v];
    assert forall k | ReadKey(k) :: (k in b <==> k in c) && (k in b ==> b[k] == c[k]);
  }

  /** A missing or non-enum status in a status update is rejected. */
  lemma StatusRequired(b: Body)
    requires "status" !in b || !b["status"].JString? || ParseStatus(b["status"].s).None?
    ensures DecodeStatusUpdate(b) == Invalid
  {
  }

  /** A string `mediaUrls` passes `IsString({ each: true })` although the property is declared as an array. */
  lemma BareStringMediaPasses(b: Body, s: string)
    requires ValidUpdate(b)
    ensures ValidUpdate(b["mediaUrls" := JString(s)])
  {
  }
}
