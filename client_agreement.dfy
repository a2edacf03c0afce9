/**
 * Agreement between the mobile app and the admin dashboard: both apps show
 * the same Portuguese labels for statuses and categories, while their video
 * detection differs.
 */
module ClientAgreement {
  import Js
  import opened ClientReports
  import StatusTranslations
  import CategoryTranslations
  import Formatters
  import ReportDetailsPage
  import ReportDetailsScreen

  /** The three status tables give the same label for every value, inside the enum or not. */
  lemma StatusLabelsAgree(status: string)
    ensures StatusTranslations.StatusTranslation(status) == Formatters.GetStatusDetails(status).text
    ensures StatusTranslations.StatusTranslation(status) == ReportDetailsPage.StatusTranslation(status)
  {
  }

  /** The three category tables give the same label for every value, inside the enum or not. */
  lemma CategoryLabelsAgree(category: string)
    ensures CategoryTranslations.CategoryTranslation(category) == Formatters.GetCategoryLabel(category)
    ensures CategoryTranslations.CategoryTranslation(category) == ReportDetailsPage.CategoryTranslation(category)
  {
  }

  /** Lower-casing keeps a suffix that is already lower case. */
  lemma LowerKeepsSuffix(url: string, suffix: string)
    requires Js.EndsWith(url, suffix)
    requires Js.ToLowerAscii(suffix) == suffix
    ensures Js.EndsWith(Js.ToLowerAscii(url), suffix)
  {
    var l := Js.ToLowerAscii(url);
    var d := |url| - |suffix|;
    forall k | 0 <= k < |suffix|
      ensures l[d + k] == suffix[k]
    {
      assert url[d + k] == suffix[k];
      assert Js.ToLowerAscii(suffix)[k] == Js.LowerAscii(suffix[k]);
    }
    assert l[d..] == suffix;
  }

  /** A URL ending in a lower-case video extension of the dashboard's list is a video there. */
  lemma LowerSuffixIsAdminVideo(url: string, k: nat)
    requires k < |ReportDetailsPage.VideoExtensions|
    requires Js.EndsWith(url, "." + ReportDetailsPage.VideoExtensions[k])
    requires Js.ToLowerAscii("." + ReportDetailsPage.VideoExtensions[k]) == "." + ReportDetailsPage.VideoExtensions[k]
    ensures ReportDetailsPage.IsVideo(url)
  {
    LowerKeepsSuffix(url, "." + ReportDetailsPage.VideoExtensions[k]);
  }

  /** Every URL the mobile app plays as a video is also a video on the dashboard. */
  lemma MobileVideoIsAdminVideo(url: string)
    requires ReportDetailsScreen.IsVideo(url)
    ensures ReportDetailsPage.IsVideo(url)
  {
    var exts := ReportDetailsPage.VideoExtensions;
    if Js.EndsWith(url, ".mp4") {
      assert "." + exts[0] == ".mp4";
      assert Js.ToLowerAscii(".mp4") == ".mp4";
      LowerSuffixIsAdminVideo(url, 0);
    } else if Js.EndsWith(url, ".mov") {
      assert "." + exts[1] == ".mov";
      assert Js.ToLowerAscii(".mov") == ".mov";
      LowerSuffixIsAdminVideo(url, 1);
    } else {
      assert "." + exts[2] == ".avi";
      assert Js.ToLowerAscii(".avi") == ".avi";
      LowerSuffixIsAdminVideo(url, 2);
    }
  }

  /** The converse fails: the dashboard plays "… .MP4" as a video where the mobile app shows an image. */
  lemma UpperCaseExtensionDiffers(stem: string)
    ensures ReportDetailsPage.IsVideo(stem + ".MP4")
    ensures !ReportDetailsScreen.IsVideo(stem + ".MP4")
  {
    var u := stem + ".MP4";
    var l := Js.ToLowerAscii(u);
    var n := |u|;
    assert u[n - 4] == '.' && u[n - 3] == 'M' && u[n - 2] == 'P' && u[n - 1] == '4';
    assert l[n - 4..] == ".mp4" by {
      assert l[n - 4] == '.' && l[n - 3] == 'm' && l[n - 2] == 'p' && l[n - 1] == '4';
    }
    assert "." + ReportDetailsPage.VideoExtensions[0] == ".mp4";
    ReportDetailsScreen.UpperCaseVideoShownAsImage(stem);
  }
}
