/**
 * The upload endpoint of the CityFix backend: the size ceiling, the mime
 * allow-list, the repair of a missing `originalname`, and the hand-over to
 * the storage service, in that order.
 */
module ReportsController {
  import opened Wrappers
  import Js
  import opened StorageService

  /** The setting `MAX_FILE_SIZE` falls back to this text. */
  const DefaultMaxFileSize: string := "5242880"

  const UnsupportedMessage: string := "Only image and video files are allowed!"

  datatype FileUrl = FileUrl(fileUrl: string)

  /** `limits.fileSize` of the file interceptor: 100 MiB, enforced while the body is read. */
  const InterceptorLimit: nat := 100 * 1024 * 1024

  datatype UploadError =
    | InterceptorTooLarge
    | MissingFile
    | PayloadTooLarge(maxFileSize: Js.Numeric)
    | UnsupportedMediaType(message: string)
    | SaveFailed(cause: StorageError)

  /** The ceiling as written: `parseInt(setting, 100)`; 100 is not a radix, so the result is NaN. */
  function MaxFileSizeAsWritten(setting: Option<string>): Js.Numeric {
    Js.ParseInt(Setting(setting, DefaultMaxFileSize), 100)
  }

  /** As written, the size check never fires: no file, however large, is refused for its size. */
  lemma OversizeAcceptedAsWritten(setting: Option<string>, size: nat)
    ensures MaxFileSizeAsWritten(setting) == Js.NaN
    ensures !Js.GreaterThan(size, MaxFileSizeAsWritten(setting))
  {
  }

  /** The intended ceiling: the setting read as a decimal integer. */
  function MaxFileSize(setting: Option<string>): Js.Numeric {
    Js.ParseInt(Setting(setting, DefaultMaxFileSize), 10)
  }

  /** With the default setting, a file over 5242880 bytes is too large and one at most that size is not. */
  lemma DefaultCeiling(size: nat)
    ensures MaxFileSize(None) == Js.Finite(5242880)
    ensures Js.GreaterThan(size, MaxFileSize(None)) <==> size > 5242880
  {
    assert Js.NatToString(5242880) == DefaultMaxFileSize by {
      var d := Js.DigitChar;
      assert Js.NatToString(5) == [d(5)];
      Js.NatToStringStep(5, 2);
      Js.NatToStringStep(52, 4);
      Js.NatToStringStep(524, 2);
      Js.NatToStringStep(5242, 8);
      Js.NatToStringStep(52428, 8);
      Js.NatToStringStep(524288, 0);
      assert [d(5), d(2), d(4), d(2), d(8), d(8), d(0)] == DefaultMaxFileSize;
    }
    Js.ParseIntOfNatToString(5242880);
  }

  /** A setting holding the decimal text of `n` makes `n` the ceiling. */
  lemma ConfiguredCeiling(n: nat, size: nat)
    ensures MaxFileSize(Some(Js.NatToString(n))) == Js.Finite(n)
    ensures Js.GreaterThan(size, MaxFileSize(Some(Js.NatToString(n)))) <==> size > n
  {
    Js.ParseIntOfNatToString(n);
  }

  /** `file.fieldname || 'file'`: the stem a repaired name starts with. */
  function NameBase(fieldname: string): string {
    if Js.Truthy(fieldname) then fieldname else "file"
  }

  /**
   * The name a file is saved under: a present `originalname` is kept; a
   * missing one becomes `fieldname || 'file'`, plus ".jpg" for an image type,
   * ".mp4" for a video type and nothing for any other type.
   */
  function RepairedName(originalname: string, fieldname: string, mimetype: string): (r: string)
    ensures Js.Truthy(originalname) ==> r == originalname
    ensures !Js.Truthy(originalname) ==> Js.StartsWith(r, NameBase(fieldname))
    ensures !Js.Truthy(originalname) && Js.StartsWith(mimetype, "image/") ==>
      Js.EndsWith(r, ".jpg") && |r| == |NameBase(fieldname)| + 4
    ensures !Js.Truthy(originalname) && Js.StartsWith(mimetype, "video/") ==>
      Js.EndsWith(r, ".mp4") && |r| == |NameBase(fieldname)| + 4
    ensures !Js.Truthy(originalname) && !Js.StartsWith(mimetype, "image/") && !Js.StartsWith(mimetype, "video/") ==>
      r == NameBase(fieldname)
  {
    var base := NameBase(fieldname);
    assert (base + ".jpg")[..|base|] == base && (base + ".jpg")[|base|..] == ".jpg";
    assert (base + ".mp4")[..|base|] == base && (base + ".mp4")[|base|..] == ".mp4";
    if Js.Truthy(originalname) then originalname
    else if Js.StartsWith(mimetype, "image/") then
      assert !Js.StartsWith(mimetype, "video/") by { assert mimetype[0] == 'i'; }
      base + ".jpg"
    else if Js.StartsWith(mimetype, "video/") then base + ".mp4"
    else base
  }

  /** After the allow-list check, a repaired name always ends in ".jpg" or ".mp4". */
  lemma RepairedNameHasMediaExtension(fieldname: string, mimetype: string)
    requires IsFileTypeAllowed(mimetype)
    ensures var r := RepairedName("", fieldname, mimetype);
      (Js.EndsWith(r, ".jpg") && Js.StartsWith(mimetype, "image/"))
      || (Js.EndsWith(r, ".mp4") && Js.StartsWith(mimetype, "video/"))
  {
    AllowedAreMedia(mimetype);
  }

  /**
   * The upload endpoint: the interceptor refuses a file over 100 MiB before
   * the handler runs, and a request without a file part makes `file.size`
   * throw.  Then `uploadFile`, with the base-10 ceiling of `MaxFileSize`:
   * refuse a file over the ceiling, then one of a type outside the
   * allow-list, both before anything is stored or changed; otherwise repair
   * the name in place and answer with exactly the URL `saveFile` returns.
   * `now`, `random` and `ok` stand for the clock, the random suffix and the
   * outcome of the disk write or S3 upload.
   */
  method UploadFile(storage: StorageService, file: MulterFile?, setting: Option<string>, now: nat, random: nat, ok: bool)
    returns (r: Result<FileUrl, UploadError>)
    modifies storage, file
    ensures file == null ==> r == Failure(MissingFile) && unchanged(storage)
    ensures file != null && file.size > InterceptorLimit ==>
      r == Failure(InterceptorTooLarge) && unchanged(storage) && unchanged(file)
    ensures file != null && file.size <= InterceptorLimit && Js.GreaterThan(file.size, MaxFileSize(setting)) ==>
      r == Failure(PayloadTooLarge(MaxFileSize(setting))) && unchanged(storage) && unchanged(file)
    ensures file != null && file.size <= InterceptorLimit && !Js.GreaterThan(file.size, MaxFileSize(setting))
            && !IsFileTypeAllowed(file.mimetype) ==>
      r == Failure(UnsupportedMediaType(UnsupportedMessage)) && unchanged(storage) && unchanged(file)
    ensures file != null && file.size <= InterceptorLimit && !Js.GreaterThan(file.size, MaxFileSize(setting))
            && IsFileTypeAllowed(file.mimetype) ==>
      && file.originalname == RepairedName(old(file.originalname), file.fieldname, file.mimetype)
      && (ok ==> r == Success(FileUrl(SavedUrl(storage.config, file.originalname, now, random))))
      && (!ok ==> r.Failure? && r.error.SaveFailed?)
      && (!ok ==> storage.files == old(storage.files) && storage.objects == old(storage.objects))
      && (storage.config.storageType == "s3" ==> storage.directories == old(storage.directories))
      && (storage.config.storageType != "s3" ==> storage.directories == old(storage.directories) + {storage.config.uploadDir})
      && (ok && storage.config.storageType == "s3" ==>
            storage.objects == old(storage.objects)[S3Key(now, file.originalname) := S3Object(file.buffer, file.mimetype)]
            && storage.files == old(storage.files))
      && (ok && storage.config.storageType != "s3" ==>
            storage.files == old(storage.files)[FilePath(storage.config.uploadDir,
                                                         GenerateFilename(file.originalname, now, random)) := file.buffer]
            && storage.objects == old(storage.objects))
  {
    if file == null {
      return Failure(MissingFile);
    }
    if file.size > InterceptorLimit {
      return Failure(InterceptorTooLarge);
    }
    var maxFileSize := MaxFileSize(setting);
    if Js.GreaterThan(file.size, maxFileSize) {
      return Failure(PayloadTooLarge(maxFileSize));
    }
    if !IsFileTypeAllowed(file.mimetype) {
      return Failure(UnsupportedMediaType(UnsupportedMessage));
    }
    if !Js.Truthy(file.originalname) {
      file.originalname := if Js.Truthy(file.fieldname) then file.fieldname else "file";
      if Js.StartsWith(file.mimetype, "image/") {
        file.originalname := file.originalname + ".jpg";
      } else if Js.StartsWith(file.mimetype, "video/") {
        file.originalname := file.originalname + ".mp4";
      }
    }
    var saved := storage.SaveFile(file, now, random, ok);
    match saved
    case Success(url) => r := Success(FileUrl(url));
    case Failure(e) => r := Failure(SaveFailed(e));
  }
}
