/**
 * The mobile app's new-report screen: the media list, the address text, the
 * upload descriptor of each file and the report payload `handleSubmit`
 * sends.  Coordinates are integers in units of 10^-5 degrees.  The upload
 * and create calls are parameters.
 */
module NewReportScreen {
  import opened Wrappers
  import Js
  import opened ClientReports
  import StorageService

  datatype MediaKind = Image | Video

  /** A picked or captured file. */
  datatype MediaFile = MediaFile(uri: string, kind: MediaKind, filename: Option<string>)

  /** What the image picker and the camera return for one asset. */
  datatype Asset = Asset(uri: string, assetType: string)

  /** The Manduri fallback, -23.00056 and -49.32639 degrees. */
  const ManduriLatitude: int := -2300056
  const ManduriLongitude: int := -4932639
  const ManduriStreetName: string := "Manduri, São Paulo"

  const DefaultCategory: string := Other

  const FillTitleAlert: string := "Por favor, preencha os campos de título e descrição!"
  const SuccessAlert: string := "Denúncia enviada com sucesso!"
  const SubmitErrorPrefix: string := "Erro ao enviar denúncia: "

  // ---------------------------------------------------------------------------
  // Media list

  /** The media file of an asset; the filename is the last '/' segment of its URI. */
  function PickedFile(a: Asset): (f: MediaFile)
    ensures f.uri == a.uri && (f.kind == Video <==> a.assetType == "video")
    ensures f.filename.Some? && '/' !in f.filename.value && Js.EndsWith(a.uri, f.filename.value)
  {
    MediaFile(a.uri, if a.assetType == "video" then Video else Image, Some(Js.LastSegment(a.uri)))
  }

  function PickedFiles(assets: seq<Asset>): (fs: seq<MediaFile>)
    ensures |fs| == |assets|
    ensures forall k | 0 <= k < |assets| :: fs[k] == PickedFile(assets[k])
  {
    seq(|assets|, k requires 0 <= k < |assets| => PickedFile(assets[k]))
  }

  /** `files.filter((_, i) => i !== index)`, scanning from position `start`. */
  function WithoutIndexFrom(files: seq<MediaFile>, index: int, start: int): seq<MediaFile>
    decreases |files|
  {
    if files == [] then []
    else (if start == index then [] else [files[0]]) + WithoutIndexFrom(files[1..], index, start + 1)
  }

  function WithoutIndex(files: seq<MediaFile>, index: int): seq<MediaFile> {
    WithoutIndexFrom(files, index, 0)
  }

  /** An index before `start` or past the end removes nothing. */
  lemma {:induction false} WithoutIndexFromOutside(files: seq<MediaFile>, index: int, start: int)
    requires !(start <= index < start + |files|)
    ensures WithoutIndexFrom(files, index, start) == files
    decreases |files|
  {
    if files != [] {
      WithoutIndexFromOutside(files[1..], index, start + 1);
      assert files == [files[0]] + files[1..];
    }
  }

  lemma {:induction false} WithoutIndexFromSlices(files: seq<MediaFile>, index: int, start: int)
    requires start <= index < start + |files|
    ensures WithoutIndexFrom(files, index, start) == files[..index - start] + files[index - start + 1..]
    decreases |files|
  {
    var tail := files[1..];
    if start == index {
      WithoutIndexFromOutside(tail, index, start + 1);
      assert WithoutIndexFrom(files, index, start) == tail;
    } else {
      WithoutIndexFromSlices(tail, index, start + 1);
      var i := index - start;
      assert WithoutIndexFrom(files, index, start) == [files[0]] + (tail[..i - 1] + tail[i..]);
      assert tail[..i - 1] == files[1..i];
      assert tail[i..] == files[i + 1..];
      assert [files[0]] + files[1..i] == files[..i];
    }
  }

  /** Removing position `i` deletes exactly that element and keeps the others in order; any other index changes nothing. */
  lemma WithoutIndexSlices(files: seq<MediaFile>, i: int)
    ensures 0 <= i < |files| ==> WithoutIndex(files, i) == files[..i] + files[i + 1..]
    ensures !(0 <= i < |files|) ==> WithoutIndex(files, i) == files
  {
    if 0 <= i < |files| {
      WithoutIndexFromSlices(files, i, 0);
    } else {
      WithoutIndexFromOutside(files, i, 0);
    }
  }

  // ---------------------------------------------------------------------------
  // Address text

  /** One line of a reverse-geocoded address: a string, or null/undefined. */
  datatype Address = Address(street: Option<string>, district: Option<string>, city: Option<string>, region: Option<string>)

  /** `.filter(Boolean)`: the present, non-empty parts, in order. */
  function PresentParts(parts: seq<Option<string>>): (r: seq<string>)
    ensures |r| <= |parts|
    ensures forall k | 0 <= k < |r| :: r[k] != ""
  {
    if parts == [] then []
    else (if parts[0].Some? && parts[0].value != "" then [parts[0].value] else []) + PresentParts(parts[1..])
  }

  /** A part is kept exactly when it is present and not empty. */
  lemma {:induction false} PresentPartsMembers(parts: seq<Option<string>>, s: string)
    ensures s in PresentParts(parts) <==> s != "" && Some(s) in parts
  {
    if parts != [] {
      PresentPartsMembers(parts[1..], s);
      assert parts == [parts[0]] + parts[1..];
    }
  }

  /** `[street, district, city, region].filter(Boolean).join(', ')`. */
  function AddressText(a: Address): string {
    Js.Join(PresentParts([a.street, a.district, a.city, a.region]), ", ")
  }

  /** A complete address reads "street, district, city, region". */
  lemma AddressTextComplete(a: Address)
    requires a.street.Some? && a.district.Some? && a.city.Some? && a.region.Some?
    requires a.street.value != "" && a.district.value != "" && a.city.value != "" && a.region.value != ""
    ensures AddressText(a)
         == a.street.value + ", " + (a.district.value + ", " + (a.city.value + ", " + a.region.value))
  {
    var parts := [a.street, a.district, a.city, a.region];
    var v := [a.street.value, a.district.value, a.city.value, a.region.value];
    assert PresentParts(parts) == v by {
      var p1 := parts[1..];
      var p2 := p1[1..];
      var p3 := p2[1..];
      assert p3[1..] == [];
      assert PresentParts(p3) == [a.region.value];
      assert PresentParts(p2) == [a.city.value] + PresentParts(p3);
      assert PresentParts(p1) == [a.district.value] + PresentParts(p2);
    }
    assert v[1..][1..][1..] == [a.region.value];
    assert Js.Join(v[1..][1..], ", ") == a.city.value + ", " + a.region.value;
    assert Js.Join(v[1..], ", ") == a.district.value + ", " + (a.city.value + ", " + a.region.value);
  }

  /** Missing parts leave no empty piece or stray comma: a city alone is just the city. */
  lemma AddressTextCityOnly(a: Address)
    requires a.street.None? && a.district.None? && a.region.None? && a.city.Some?
    ensures AddressText(a) == a.city.value
  {
    var parts := [a.street, a.district, a.city, a.region];
    var p2 := parts[1..][1..];
    assert p2[1..][1..] == [];
    assert PresentParts(parts) == PresentParts(p2);
  }

  /** The location `getLocation` stores: the address text when geocoding found one, else none. */
  function DeviceAddress(found: Option<Address>): (r: Option<string>)
    ensures r.Some? <==> found.Some?
    ensures found.Some? ==> r == Some(AddressText(found.value))
  {
    if found.Some? then Some(AddressText(found.value)) else None
  }

  const MapFallbackAddress: string := "Localização selecionada no mapa"

  /** The address `handleMapPress` settles on: the address text, or the map fallback when none was found or geocoding failed. */
  function MapPressAddress(found: Result<Option<Address>, string>): (r: string)
    ensures found.Success? && found.value.Some? ==> r == AddressText(found.value.value)
    ensures !(found.Success? && found.value.Some?) ==> r == MapFallbackAddress
  {
    if found.Success? && found.value.Some? then AddressText(found.value.value) else MapFallbackAddress
  }

  // ---------------------------------------------------------------------------
  // Upload descriptors

  /** The object appended to the form data under the field name "file". */
  datatype FileObject = FileObject(uri: string, name: string, mimeType: string)

  function DefaultExtension(kind: MediaKind): string {
    if kind == Video then ".mp4" else ".jpg"
  }

  /**
   * The descriptor of one media file.  `now` and `suffix` stand for
   * `Date.now()` and the base-36 random text; they name a file only when it
   * has no filename.
   */
  function Descriptor(file: MediaFile, os: string, now: nat, suffix: string): (d: FileObject)
    ensures d.mimeType == (if file.kind == Video then "video/mp4" else "image/jpeg")
    ensures file.filename.Some? && file.filename.value != "" ==> d.name == file.filename.value
    ensures !(file.filename.Some? && file.filename.value != "") ==>
      d.name == Js.NatToString(now) + "-" + suffix + DefaultExtension(file.kind)
    ensures d.uri == (if os == "ios" then Js.ReplaceFirst(file.uri, "file://", "") else file.uri)
  {
    var name := if file.filename.Some? && file.filename.value != "" then file.filename.value
                else Js.NatToString(now) + "-" + suffix + DefaultExtension(file.kind);
    FileObject(if os == "ios" then Js.ReplaceFirst(file.uri, "file://", "") else file.uri,
               name, if file.kind == Video then "video/mp4" else "image/jpeg")
  }

  /** Every descriptor's type passes the backend's allow-list. */
  lemma DescriptorTypeAllowed(file: MediaFile, os: string, now: nat, suffix: string)
    ensures StorageService.IsFileTypeAllowed(Descriptor(file, os, now, suffix).mimeType)
  {
  }

  /** The descriptors of all files; `now(k)` and `suffix(k)` are the clock and random text read for the k-th file. */
  function Descriptors(files: seq<MediaFile>, os: string, now: nat -> nat, suffix: nat -> string): (ds: seq<FileObject>)
    ensures |ds| == |files|
    ensures forall k | 0 <= k < |files| :: ds[k] == Descriptor(files[k], os, now(k), suffix(k))
  {
    seq(|files|, k requires 0 <= k < |files| => Descriptor(files[k], os, now(k), suffix(k)))
  }

  /**
   * `Promise.all` over the uploads: the URLs in file order, or the message
   * of the first failure.
   */
  function UploadAll(ds: seq<FileObject>, upload: FileObject -> Result<string, string>): (r: Result<seq<string>, string>)
    ensures r.Success? <==> forall k | 0 <= k < |ds| :: upload(ds[k]).Success?
    ensures r.Success? ==> |r.value| == |ds| && forall k | 0 <= k < |ds| :: r.value[k] == upload(ds[k]).value
  {
    if ds == [] then Success([])
    else match upload(ds[0])
      case Failure(m) => Failure(m)
      case Success(url) =>
        match UploadAll(ds[1..], upload)
        case Failure(m) => Failure(m)
        case Success(urls) =>
          assert forall k | 0 <= k < |ds| :: upload(ds[k]).Success? by {
            forall k | 0 <= k < |ds| ensures upload(ds[k]).Success? {
              if k > 0 { assert ds[k] == ds[1..][k - 1]; }
            }
          }
          Success([url] + urls)
  }

  // ---------------------------------------------------------------------------
  // Payload

  /** A location chosen on the device or the map. */
  datatype SelectedLocation = SelectedLocation(latitude: int, longitude: int, address: Option<string>)

  /** The body sent to `POST /reports`. */
  datatype ReportPayload = ReportPayload(title: string, description: string, category: string, imageUrl: string,
                                         mediaUrls: seq<string>, location: Location, streetName: Option<string>)

  /**
   * `reportData`: the uploaded URLs in order, the first as `imageUrl` when
   * the first file is an image, and the chosen location with x the
   * longitude and y the latitude, or Manduri.
   */
  function Payload(title: string, description: string, category: string, files: seq<MediaFile>,
                   uploaded: seq<string>, location: Option<SelectedLocation>): ReportPayload
    requires |uploaded| == |files|
  {
    var imageUrl := if |files| > 0 && files[0].kind == Image then uploaded[0] else "";
    var mediaUrls := if |files| > 0 then uploaded else [];
    if location.Some? then
      ReportPayload(title, description, category, imageUrl, mediaUrls,
                    Location(location.value.longitude, location.value.latitude), location.value.address)
    else
      ReportPayload(title, description, category, imageUrl, mediaUrls,
                    Location(ManduriLongitude, ManduriLatitude), Some(ManduriStreetName))
  }

  /** The payload carries every uploaded URL, and the first one as `imageUrl` exactly when the first file is an image. */
  lemma PayloadMedia(title: string, description: string, category: string, files: seq<MediaFile>,
                     uploaded: seq<string>, location: Option<SelectedLocation>)
    requires |uploaded| == |files|
    ensures Payload(title, description, category, files, uploaded, location).mediaUrls == uploaded
    ensures var p := Payload(title, description, category, files, uploaded, location);
      |files| > 0 && files[0].kind == Image ==> p.imageUrl == uploaded[0]
    ensures var p := Payload(title, description, category, files, uploaded, location);
      !(|files| > 0 && files[0].kind == Image) ==> p.imageUrl == ""
  {
  }

  /** A chosen location is sent as x = longitude, y = latitude with its address; none sends Manduri. */
  lemma PayloadLocation(title: string, description: string, category: string, files: seq<MediaFile>,
                        uploaded: seq<string>, location: Option<SelectedLocation>)
    requires |uploaded| == |files|
    ensures var p := Payload(title, description, category, files, uploaded, location);
      location.Some? ==>
        p.location.x == location.value.longitude && p.location.y == location.value.latitude
        && p.streetName == location.value.address
    ensures var p := Payload(title, description, category, files, uploaded, location);
      location.None? ==> p.location == Location(ManduriLongitude, ManduriLatitude) && p.streetName == Some(ManduriStreetName)
  {
  }

  /**
   * A location taken from the device and then submitted: the report's
   * street name is the geocoded address text, or null when geocoding found
   * nothing, and never the Manduri default.
   */
  lemma DeviceLocationStreetName(title: string, description: string, category: string, files: seq<MediaFile>,
                                 uploaded: seq<string>, latitude: int, longitude: int, found: Option<Address>)
    requires |uploaded| == |files|
    ensures var p := Payload(title, description, category, files, uploaded,
                             Some(SelectedLocation(latitude, longitude, DeviceAddress(found))));
      p.streetName.Some? <==> found.Some?
    ensures var p := Payload(title, description, category, files, uploaded,
                             Some(SelectedLocation(latitude, longitude, DeviceAddress(found))));
      found.Some? ==> p.streetName == Some(AddressText(found.value))
  {
    PayloadLocation(title, description, category, files, uploaded,
                    Some(SelectedLocation(latitude, longitude, DeviceAddress(found))));
  }

  // ---------------------------------------------------------------------------
  // Submission

  /** What a submission shows and sends, and whether it clears the form. */
  datatype Outcome = Outcome(alert: string, sent: Option<ReportPayload>, cleared: bool)

  /** The files' upload: nothing to do without files, else every descriptor through `upload`. */
  function Uploads(files: seq<MediaFile>, os: string, now: nat -> nat, suffix: nat -> string,
                   upload: FileObject -> Result<string, string>): (r: Result<seq<string>, string>)
    ensures r.Success? ==> |r.value| == |files|
  {
    if |files| > 0 then UploadAll(Descriptors(files, os, now, suffix), upload) else Success([])
  }

  /** The outcome of `handleSubmit` for the form's contents and the answers of the two API calls. */
  function SubmitOutcome(title: string, description: string, category: string, files: seq<MediaFile>,
                         location: Option<SelectedLocation>, os: string, now: nat -> nat, suffix: nat -> string,
                         upload: FileObject -> Result<string, string>, create: ReportPayload -> Option<string>): Outcome
  {
    if title == "" || description == "" then Outcome(FillTitleAlert, None, false)
    else
      var up := Uploads(files, os, now, suffix, upload);
      if up.Failure? then Outcome(SubmitErrorPrefix + up.error, None, false)
      else
        var p := Payload(title, description, category, files, up.value, location);
        match create(p)
        case None => Outcome(SuccessAlert, Some(p), true)
        case Some(m) => Outcome(SubmitErrorPrefix + m, Some(p), false)
  }

  /** An empty title or description alerts, sends nothing and keeps the form. */
  lemma SubmitNeedsText(title: string, description: string, category: string, files: seq<MediaFile>,
                           location: Option<SelectedLocation>, os: string, now: nat -> nat, suffix: nat -> string,
                           upload: FileObject -> Result<string, string>, create: ReportPayload -> Option<string>)
    requires title == "" || description == ""
    ensures SubmitOutcome(title, description, category, files, location, os, now, suffix, upload, create)
         == Outcome(FillTitleAlert, None, false)
  {
  }

  /** A failed upload alerts with its message, sends nothing and keeps the form. */
  lemma SubmitUploadFails(title: string, description: string, category: string, files: seq<MediaFile>,
                           location: Option<SelectedLocation>, os: string, now: nat -> nat, suffix: nat -> string,
                           upload: FileObject -> Result<string, string>, create: ReportPayload -> Option<string>)
    requires title != "" && description != ""
    requires exists k | 0 <= k < |files| :: upload(Descriptor(files[k], os, now(k), suffix(k))).Failure?
    ensures var o := SubmitOutcome(title, description, category, files, location, os, now, suffix, upload, create);
      o.sent == None && !o.cleared
      && o.alert == SubmitErrorPrefix + UploadAll(Descriptors(files, os, now, suffix), upload).error
  {
    var ds := Descriptors(files, os, now, suffix);
    var k :| 0 <= k < |files| && upload(Descriptor(files[k], os, now(k), suffix(k))).Failure?;
    assert upload(ds[k]).Failure?;
    assert Uploads(files, os, now, suffix, upload) == UploadAll(ds, upload);
    assert UploadAll(ds, upload).Failure?;
  }

  /**
   * When every upload succeeds, the payload carries the uploaded URLs in
   * file order, and the form is cleared exactly when the report is created,
   * the server's message being shown when it is not.
   */
  lemma SubmitUploadsSucceed(title: string, description: string, category: string, files: seq<MediaFile>,
                           location: Option<SelectedLocation>, os: string, now: nat -> nat, suffix: nat -> string,
                           upload: FileObject -> Result<string, string>, create: ReportPayload -> Option<string>)
    requires title != "" && description != ""
    requires forall k | 0 <= k < |files| :: upload(Descriptor(files[k], os, now(k), suffix(k))).Success?
    ensures var o := SubmitOutcome(title, description, category, files, location, os, now, suffix, upload, create);
      && o.sent.Some?
      && |o.sent.value.mediaUrls| == |files|
      && (forall k | 0 <= k < |files| :: o.sent.value.mediaUrls[k] == upload(Descriptor(files[k], os, now(k), suffix(k))).value)
      && (o.cleared <==> create(o.sent.value).None?)
      && (o.cleared ==> o.alert == SuccessAlert)
      && (!o.cleared ==> o.alert == SubmitErrorPrefix + create(o.sent.value).value)
  {
    var ds := Descriptors(files, os, now, suffix);
    assert forall k | 0 <= k < |ds| :: upload(ds[k]).Success?;
    var up := Uploads(files, os, now, suffix, upload);
    PayloadMedia(title, description, category, files, up.value, location);
  }

  class NewReportForm {
    var title: string
    var description: string
    var category: string
    var mediaFiles: seq<MediaFile>
    var location: Option<SelectedLocation>
    var loading: bool

    constructor()
      ensures title == "" && description == "" && category == DefaultCategory
      ensures mediaFiles == [] && location == None && !loading
    {
      title := "";
      description := "";
      category := DefaultCategory;
      mediaFiles := [];
      location := None;
      loading := false;
    }

    /** `pickImage` and `takePhoto`: the new files go after the existing ones. */
    method AddMedia(assets: seq<Asset>)
      modifies this
      ensures mediaFiles == old(mediaFiles) + PickedFiles(assets)
      ensures title == old(title) && description == old(description) && category == old(category)
      ensures location == old(location) && loading == old(loading)
    {
      mediaFiles := mediaFiles + PickedFiles(assets);
    }

    /** The close button of the item at `index`. */
    method RemoveMedia(index: int)
      modifies this
      ensures mediaFiles == WithoutIndex(old(mediaFiles), index)
      ensures title == old(title) && description == old(description) && category == old(category)
      ensures location == old(location) && loading == old(loading)
    {
      mediaFiles := WithoutIndex(mediaFiles, index);
    }

    /** `clearForm`. */
    method ClearForm()
      modifies this
      ensures title == "" && description == "" && category == DefaultCategory
      ensures mediaFiles == [] && location == None && loading == old(loading)
    {
      title := "";
      description := "";
      category := DefaultCategory;
      mediaFiles := [];
      location := None;
    }

    /**
     * `handleSubmit`: an empty title or description alerts before anything
     * is uploaded or created; otherwise the files are uploaded (all of them
     * or none counts), the payload is sent, and a created report clears the
     * form.  `upload` and `create` stand for the two API calls; a failure
     * carries its message.
     */
    method HandleSubmit(os: string, now: nat -> nat, suffix: nat -> string,
                        upload: FileObject -> Result<string, string>, create: ReportPayload -> Option<string>)
      returns (alert: string, sent: Option<ReportPayload>)
      modifies this
      ensures var o := SubmitOutcome(old(title), old(description), old(category), old(mediaFiles), old(location),
                                     os, now, suffix, upload, create);
        && alert == o.alert && sent == o.sent
        && (o.cleared ==>
              title == "" && description == "" && category == DefaultCategory && mediaFiles == [] && location == None)
        && (!o.cleared ==>
              title == old(title) && description == old(description) && category == old(category)
              && mediaFiles == old(mediaFiles) && location == old(location))
      ensures loading == (if old(title) == "" || old(description) == "" then old(loading) else false)
    {
      if title == "" || description == "" {
        return FillTitleAlert, None;
      }
      loading := true;
      var up: Result<seq<string>, string> := Success([]);
      if |mediaFiles| > 0 {
        up := UploadAll(Descriptors(mediaFiles, os, now, suffix), upload);
        if up.Failure? {
          loading := false;
          return SubmitErrorPrefix + up.error, None;
        }
      }
      var p := Payload(title, description, category, mediaFiles, up.value, location);
      sent := Some(p);
      var failure := create(p);
      if failure.None? {
        ClearForm();
        alert := SuccessAlert;
      } else {
        alert := SubmitErrorPrefix + failure.value;
      }
      loading := false;
    }
  }
}
