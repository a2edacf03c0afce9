/**
 * The mobile app's report-details screen: how each media URL is rendered,
 * the status badge colour, the status controls and the update sequence that
 * goes through the `useReports` hook.
 */
module ReportDetailsScreen {
  import opened Wrappers
  import Js
  import opened ClientReports
  import opened UseReports

  /** `isVideo`: the URL ends in ".mp4", ".mov" or ".avi", matched case-sensitively. */
  predicate IsVideo(url: string) {
    Js.EndsWith(url, ".mp4") || Js.EndsWith(url, ".mov") || Js.EndsWith(url, ".avi")
  }

  /** How `renderMediaItem` shows one media URL. */
  datatype MediaView = VideoPlayer(uri: string) | ImageView(uri: string)

  /** `mediaUrls.map(renderMediaItem)`. */
  function RenderMedia(urls: seq<string>): (views: seq<MediaView>)
    ensures |views| == |urls|
    ensures forall k | 0 <= k < |urls| :: views[k].uri == urls[k] && (views[k].VideoPlayer? <==> IsVideo(urls[k]))
  {
    if urls == [] then []
    else [if IsVideo(urls[0]) then VideoPlayer(urls[0]) else ImageView(urls[0])] + RenderMedia(urls[1..])
  }

  /** An upper-case extension is not recognised, so such a video is shown as an image. */
  lemma UpperCaseVideoShownAsImage(stem: string)
    ensures !IsVideo(stem + ".MP4")
  {
    var u := stem + ".MP4";
    assert u[|u| - 4..] == ".MP4";
  }

  const StatusColorTable: seq<string> := ["#FF3B30", "#007AFF", "#34C759", "#FF9500"]
  const UnknownStatusColor: string := "#8E8E93"

  /** `getStatusColor`: one colour per enum value, grey for anything else. */
  function GetStatusColor(status: string): (c: string)
    ensures forall k | 0 <= k < |Statuses| :: status == Statuses[k] ==> c == StatusColorTable[k]
    ensures status !in Statuses ==> c == UnknownStatusColor
  {
    if status == Pending then "#FF3B30"
    else if status == InProgress then "#007AFF"
    else if status == Resolved then "#34C759"
    else if status == Rejected then "#FF9500"
    else UnknownStatusColor
  }

  /** Every status of the enum has its own colour, and none is the fallback grey. */
  lemma StatusColorsDistinct(a: string, b: string)
    requires a in Statuses && b in Statuses
    ensures GetStatusColor(a) != UnknownStatusColor
    ensures a != b ==> GetStatusColor(a) != GetStatusColor(b)
  {
  }

  /** `Platform.OS === 'ios' || Platform.OS === 'android'`. */
  predicate IsMobile(os: string) {
    os == "ios" || os == "android"
  }

  /** The statuses offered as buttons: every enum value, in order, when the options are open off iOS and Android. */
  function StatusOptions(os: string, showStatusOptions: bool): (options: seq<string>)
    ensures options != [] <==> !IsMobile(os) && showStatusOptions
    ensures options != [] ==> options == Statuses
  {
    if !IsMobile(os) && showStatusOptions then Statuses else []
  }

  const UpdateFailedAlert: string := "Falha ao atualizar status do relato"

  class DetailsScreen {
    const reportId: string
    const hook: ReportsHook
    var report: Option<ClientReport>
    var showStatusOptions: bool

    constructor(reportId: string, hook: ReportsHook)
      ensures this.reportId == reportId && this.hook == hook
      ensures report == None && !showStatusOptions
    {
      this.reportId := reportId;
      this.hook := hook;
      report := None;
      showStatusOptions := false;
    }

    /** The "Atualizar Status" / "Cancelar" button. */
    method ToggleStatusOptions()
      modifies this
      ensures showStatusOptions == !old(showStatusOptions) && report == old(report)
    {
      showStatusOptions := !showStatusOptions;
    }

    /**
     * `handleStatusUpdate`: update through the hook, then fetch the report
     * again and show it, then close the options.  A failure of either call
     * alerts and leaves the shown report and the options as they were.
     */
    method HandleStatusUpdate(update: Call<ClientReport>, refetch: Call<ClientReport>) returns (alert: Option<string>)
      modifies this, hook
      ensures update.Threw? ==>
        alert == Some(UpdateFailedAlert) && report == old(report) && showStatusOptions == old(showStatusOptions)
        && hook.reports == old(hook.reports)
      ensures update.Returned? ==> hook.reports == Replaced(old(hook.reports), reportId, update.value)
      ensures update.Returned? && refetch.Threw? ==>
        alert == Some(UpdateFailedAlert) && report == old(report) && showStatusOptions == old(showStatusOptions)
      ensures update.Returned? && refetch.Returned? ==>
        alert == None && report == Some(refetch.value) && !showStatusOptions
      ensures update.Threw? ==> hook.error == Some(ErrorMessage(update.thrown))
      ensures update.Returned? && refetch.Threw? ==> hook.error == Some(ErrorMessage(refetch.thrown))
      ensures update.Returned? && refetch.Returned? ==> hook.error == None
      ensures !hook.loading
    {
      var thrown := hook.Update(reportId, update);
      if thrown.Some? {
        return Some(UpdateFailedAlert);
      }
      var fetched := hook.GetReport(refetch);
      match fetched {
        case Threw(_) =>
          alert := Some(UpdateFailedAlert);
        case Returned(r) =>
          report := Some(r);
          showStatusOptions := false;
          alert := None;
      }
    }
  }
}
