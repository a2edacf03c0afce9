/**
 * How the URLs the storage service hands out fare when the report service
 * formats stored media references for a response.
 */
module UploadConsistency {
  import Js
  import opened StorageService
  import opened ReportsService

  lemma HttpPrefixTransfers(prefix: string, rest: string)
    requires Js.StartsWith(prefix, "http")
    ensures Js.StartsWith(prefix + rest, "http")
  {
    assert (prefix + rest)[..4] == prefix[..4];
  }

  /** A local upload URL begins with the API URL; when that begins with "http", formatting returns it byte for byte. */
  lemma LocalUrlSurvivesFormat(sc: StorageConfig, mc: MediaConfig, filename: string)
    requires Js.StartsWith(sc.apiUrl, "http")
    ensures FormatMediaUrl(mc, LocalUrl(sc, filename)) == LocalUrl(sc, filename)
  {
    HttpPrefixTransfers(sc.apiUrl, "/" + sc.uploadDir + "/" + filename);
    assert LocalUrl(sc, filename) == sc.apiUrl + ("/" + sc.uploadDir + "/" + filename);
  }

  /** An S3 URL begins with "https://" and is never rewritten. */
  lemma S3UrlSurvivesFormat(sc: StorageConfig, mc: MediaConfig, key: string)
    ensures FormatMediaUrl(mc, S3Url(sc, key)) == S3Url(sc, key)
  {
    S3UrlShape(sc, key);
    assert S3Url(sc, key)[..4] == "http";
  }

  /** Whatever `saveFile` answers is kept as it is by `formatMediaUrl`, given an `http…` API URL for local storage. */
  lemma SavedUrlSurvivesFormat(sc: StorageConfig, mc: MediaConfig, originalname: string, now: nat, random: nat)
    requires sc.storageType == "s3" || Js.StartsWith(sc.apiUrl, "http")
    ensures FormatMediaUrl(mc, SavedUrl(sc, originalname, now, random)) == SavedUrl(sc, originalname, now, random)
  {
    if sc.storageType == "s3" {
      S3UrlSurvivesFormat(sc, mc, S3Key(now, originalname));
    } else {
      LocalUrlSurvivesFormat(sc, mc, GenerateFilename(originalname, now, random));
    }
  }

  /** A relative reference `uploads/<name>` resolves to the URL the local back-end gives that file. */
  lemma RelativeReferenceResolves(sc: StorageConfig, mc: MediaConfig, filename: string)
    requires mc.apiUrl == sc.apiUrl && sc.uploadDir == "uploads" && mc.storageType != "s3"
    requires '/' !in filename
    ensures FormatMediaUrl(mc, "uploads/" + filename) == LocalUrl(sc, filename)
  {
    var ref := "uploads/" + filename;
    assert ref == "uploads" + "/" + filename;
    assert !Js.StartsWith(ref, "http") by { assert ref[0] == 'u'; }
    FormatDropsDirectories(mc, "uploads", filename);
  }
}
