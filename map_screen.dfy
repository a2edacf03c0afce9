/**
 * The mobile map screen: one marker per report, placed at the report's
 * location, described by its category and status labels and street name,
 * and coloured by status.
 */
module MapScreen {
  import opened Wrappers
  import opened ClientReports
  import Js
  import StatusTranslations
  import CategoryTranslations
  import NewReportScreen

  /** A marker: its key, coordinate, title, description and pin colour. */
  datatype MapMarker = MapMarker(key: string, latitude: int, longitude: int, title: string,
                                 description: string, pinColor: string)

  /** `getMarkerColor`. */
  function MarkerColour(status: string): (c: string)
    ensures status == Pending ==> c == "red"
    ensures status == InProgress ==> c == "blue"
    ensures status == Resolved ==> c == "green"
    ensures status == Rejected ==> c == "orange"
    ensures status !in Statuses ==> c == "gray"
  {
    if status == Pending then "red"
    else if status == InProgress then "blue"
    else if status == Resolved then "green"
    else if status == Rejected then "orange"
    else "gray"
  }

  /** Each status gets its own pin colour, and none of them is the grey of an unknown status. */
  lemma MarkerColoursDistinct(a: string, b: string)
    requires a in Statuses && a != b
    ensures MarkerColour(a) != MarkerColour(b)
  {
  }

  /** A street name the template shows: present and not empty. */
  predicate StreetShown(streetName: Option<string>) {
    streetName.Some? && Js.Truthy(streetName.value)
  }

  /** The marker's description: category label, " - ", status label, then " - " and the street when there is one. */
  function MarkerDescription(r: ClientReport): (d: string)
    ensures var head := CategoryTranslations.CategoryTranslation(r.category) + " - "
                        + StatusTranslations.StatusTranslation(r.status);
      && |head| <= |d| && d[..|head|] == head
      && (StreetShown(r.streetName) <==> |d| > |head|)
      && (StreetShown(r.streetName) ==> d[|head|..] == " - " + r.streetName.value)
  {
    var head := CategoryTranslations.CategoryTranslation(r.category) + " - "
                + StatusTranslations.StatusTranslation(r.status);
    head + if StreetShown(r.streetName) then " - " + r.streetName.value else ""
  }

  /** Reports of different known categories get different descriptions. */
  lemma DescriptionTellsCategory(a: ClientReport, b: ClientReport)
    requires a.category in Categories && b.category in Categories && a.category != b.category
    ensures MarkerDescription(a) != MarkerDescription(b)
  {
    assert MarkerDescription(a)[0] == CategoryTranslations.CategoryTranslation(a.category)[0];
    assert MarkerDescription(b)[0] == CategoryTranslations.CategoryTranslation(b.category)[0];
  }

  /** A character of the status label sits at its place in the description. */
  lemma DescriptionChar(r: ClientReport, n: nat)
    requires var prefix := CategoryTranslations.CategoryTranslation(r.category) + " - ";
      |prefix| <= n < |prefix| + |StatusTranslations.StatusTranslation(r.status)|
    ensures var prefix := CategoryTranslations.CategoryTranslation(r.category) + " - ";
      MarkerDescription(r)[n] == StatusTranslations.StatusTranslation(r.status)[n - |prefix|]
  {
  }

  /** Reports of one category but different known statuses get different descriptions. */
  lemma DescriptionTellsStatus(a: ClientReport, b: ClientReport)
    requires a.category == b.category
    requires a.status in Statuses && b.status in Statuses && a.status != b.status
    ensures MarkerDescription(a) != MarkerDescription(b)
  {
    var prefix := CategoryTranslations.CategoryTranslation(a.category) + " - ";
    var sa, sb := StatusTranslations.StatusTranslation(a.status), StatusTranslations.StatusTranslation(b.status);
    var i := if (a.status == Resolved && b.status == Rejected) || (a.status == Rejected && b.status == Resolved) then 2 else 0;
    assert i < |sa| && i < |sb| && sa[i] != sb[i];
    DescriptionChar(a, |prefix| + i);
    DescriptionChar(b, |prefix| + i);
  }

  /** The marker of one report: latitude from `location.y`, longitude from `location.x`. */
  function MarkerOf(r: ClientReport): (m: MapMarker)
    ensures m.key == r.id && m.title == r.title
    ensures m.latitude == r.location.y && m.longitude == r.location.x
    ensures m.pinColor == MarkerColour(r.status)
  {
    MapMarker(r.id, r.location.y, r.location.x, r.title, MarkerDescription(r), MarkerColour(r.status))
  }

  /** `reports.map(report => <Marker …/>)`: one marker per report, in order, keyed by its id. */
  function Markers(rs: seq<ClientReport>): (ms: seq<MapMarker>)
    ensures |ms| == |rs|
    ensures forall k | 0 <= k < |rs| :: ms[k] == MarkerOf(rs[k])
  {
    seq(|rs|, k requires 0 <= k < |rs| => MarkerOf(rs[k]))
  }

  /**
   * A report carrying the location a new report was submitted with is
   * pinned where the user chose, or at Manduri when nothing was chosen;
   * the marker mapping undoes the (longitude, latitude) order of the payload.
   */
  lemma MarkerAtSubmittedLocation(r: ClientReport, title: string, description: string, category: string,
                                  files: seq<NewReportScreen.MediaFile>, uploaded: seq<string>,
                                  location: Option<NewReportScreen.SelectedLocation>)
    requires |uploaded| == |files|
    requires r.location == NewReportScreen.Payload(title, description, category, files, uploaded, location).location
    ensures location.Some? ==>
      MarkerOf(r).latitude == location.value.latitude && MarkerOf(r).longitude == location.value.longitude
    ensures location.None? ==>
      MarkerOf(r).latitude == NewReportScreen.ManduriLatitude && MarkerOf(r).longitude == NewReportScreen.ManduriLongitude
  {
    NewReportScreen.PayloadLocation(title, description, category, files, uploaded, location);
  }
}
