/**
 * Media storage of the CityFix backend: the mime-type allow-list, the
 * generated file names, the URLs of the local and S3 back-ends, and the two
 * save paths.  The file system and the S3 bucket are fields of
 * `StorageService`; the clock, the random suffix and whether the disk write or
 * the S3 upload succeeds are parameters.
 */
module StorageService {
  import opened Wrappers
  import Js

  type Bytes = seq<bv8>

  /** The part of a multer upload that the storage and the controller read; `originalname` is reassigned by the controller. */
  class MulterFile {
    const fieldname: string
    var originalname: string
    const mimetype: string
    const size: nat
    const buffer: Bytes

    constructor (fieldname: string, originalname: string, mimetype: string, size: nat, buffer: Bytes)
      ensures this.fieldname == fieldname && this.originalname == originalname
      ensures this.mimetype == mimetype && this.size == size && this.buffer == buffer
    {
      this.fieldname := fieldname;
      this.originalname := originalname;
      this.mimetype := mimetype;
      this.size := size;
      this.buffer := buffer;
    }
  }

  datatype StorageConfig = StorageConfig(storageType: string, uploadDir: string, s3Bucket: Option<string>, apiUrl: string)

  const DefaultStorageType: string := "local"
  const DefaultUploadDir: string := "uploads"
  const DefaultApiUrl: string := "http://localhost:3000"

  function Setting(value: Option<string>, default: string): string {
    if value.Some? then value.value else default
  }

  // ---------------------------------------------------------------------------
  // Pure parts

  const AllowedMimeTypes: seq<string> :=
    ["image/jpeg", "image/png", "image/jpg", "video/mp4", "video/quicktime", "video/x-msvideo"]

  /** `isFileTypeAllowed`: exact membership in the allow-list. */
  function IsFileTypeAllowed(mimetype: string): (r: bool)
    ensures r <==> mimetype in AllowedMimeTypes
  {
    mimetype in AllowedMimeTypes
  }

  /** The allow-list holds exactly six strings, `image/jpg` among them, and nothing else is allowed. */
  lemma AllowedExactly(m: string)
    ensures IsFileTypeAllowed(m) <==>
      m == "image/jpeg" || m == "image/png" || m == "image/jpg"
      || m == "video/mp4" || m == "video/quicktime" || m == "video/x-msvideo"
  {
  }

  /** Every allowed mime type is an image or a video type. */
  lemma AllowedAreMedia(m: string)
    requires IsFileTypeAllowed(m)
    ensures Js.StartsWith(m, "image/") || Js.StartsWith(m, "video/")
  {
    if m == "image/jpeg" { assert m[..6] == "image/"; }
    else if m == "image/png" { assert m[..6] == "image/"; }
    else if m == "image/jpg" { assert m[..6] == "image/"; }
    else if m == "video/mp4" { assert m[..6] == "video/"; }
    else if m == "video/quicktime" { assert m[..6] == "video/"; }
    else { assert m[..6] == "video/"; }
  }

  /** `generateFilename`: the time, a dash, the random number and the original's extension. */
  function GenerateFilename(originalname: string, now: nat, random: nat): string {
    Stem(now, random) + Js.Extname(originalname)
  }

  lemma DigitsPlain(s: string)
    requires Js.AllDigits(s)
    ensures '/' !in s && '.' !in s
  {
  }

  /** The time-and-random part of a generated name. */
  function Stem(now: nat, random: nat): string {
    Js.NatToString(now) + "-" + Js.NatToString(random)
  }

  lemma StemPlain(now: nat, random: nat)
    ensures '/' !in Stem(now, random) && '.' !in Stem(now, random)
    ensures Stem(now, random) != "" && Stem(now, random) != "."
  {
    var a, b := Js.NatToString(now), Js.NatToString(random);
    var stem := Stem(now, random);
    DigitsPlain(a);
    DigitsPlain(b);
    forall k | 0 <= k < |stem| ensures stem[k] != '/' && stem[k] != '.' {
      if k < |a| { assert stem[k] == a[k]; }
      else if k > |a| { assert stem[k] == b[k - |a| - 1]; }
    }
    assert stem[|a|] == '-';
  }

  lemma SlashFreeConcat(a: string, b: string)
    requires '/' !in a && '/' !in b
    ensures '/' !in a + b
  {
    forall k | 0 <= k < |a + b| ensures (a + b)[k] != '/' {
      if k >= |a| { assert (a + b)[k] == b[k - |a|]; }
    }
  }

  /** A name made of a plain stem and an extension has that extension. */
  lemma ExtnameOfStem(stem: string, ext: string)
    requires '/' !in stem && '.' !in stem && stem != "" && stem != "."
    requires ext == "" || (ext[0] == '.' && '/' !in ext && '.' !in ext[1..])
    ensures Js.Extname(stem + ext) == ext
  {
    if ext == "" {
      assert stem + ext == stem;
      Js.ExtnameWithoutDot(stem);
    } else {
      var e := ext[1..];
      assert stem + ext == stem + "." + e;
      Js.ExtnameOfFileName(stem, e);
    }
  }

  /**
   * Only the extension of the original name survives: the generated name
   * has no '/', has the original's extension as its own, and two originals
   * with the same extension give the same name.
   */
  lemma GeneratedKeepsOnlyExtension(o1: string, o2: string, now: nat, random: nat)
    requires Js.Extname(o1) == Js.Extname(o2)
    ensures GenerateFilename(o1, now, random) == GenerateFilename(o2, now, random)
    ensures '/' !in GenerateFilename(o1, now, random)
    ensures Js.Extname(GenerateFilename(o1, now, random)) == Js.Extname(o1)
    ensures Js.EndsWith(GenerateFilename(o1, now, random), Js.Extname(o1))
  {
    var stem := Stem(now, random);
    var ext := Js.Extname(o1);
    var name := stem + ext;
    StemPlain(now, random);
    SlashFreeConcat(stem, ext);
    ExtnameOfStem(stem, ext);
    assert name[|name| - |ext|..] == ext;
  }

  /** `saveToLocal`'s URL: `{apiUrl}/{uploadDir}/{filename}`. */
  function LocalUrl(config: StorageConfig, filename: string): string {
    config.apiUrl + "/" + config.uploadDir + "/" + filename
  }

  /** `path.join(uploadDir, filename)`, without Node's normalisation of the segments. */
  function FilePath(dir: string, filename: string): string {
    dir + "/" + filename
  }

  /** `saveToS3`'s object key: `{Date.now()}-{originalname}`. */
  function S3Key(now: nat, originalname: string): string {
    Js.NatToString(now) + "-" + originalname
  }

  /** The bucket name as the template string renders it; an unset bucket prints as "undefined". */
  function BucketText(config: StorageConfig): string {
    if config.s3Bucket.Some? then config.s3Bucket.value else "undefined"
  }

  function S3Url(config: StorageConfig, key: string): string {
    "https://" + BucketText(config) + ".s3.amazonaws.com/" + key
  }

  /** The URL `saveFile` answers with: S3 iff the storage type is exactly "s3", the local disk for any other value. */
  function SavedUrl(config: StorageConfig, originalname: string, now: nat, random: nat): (url: string)
    ensures config.storageType == "s3" ==> url == S3Url(config, S3Key(now, originalname))
    ensures config.storageType != "s3" ==> url == LocalUrl(config, GenerateFilename(originalname, now, random))
  {
    if config.storageType == "s3" then S3Url(config, S3Key(now, originalname))
    else LocalUrl(config, GenerateFilename(originalname, now, random))
  }

  lemma LocalUrlShape(config: StorageConfig, filename: string)
    ensures Js.StartsWith(LocalUrl(config, filename), config.apiUrl)
    ensures Js.EndsWith(LocalUrl(config, filename), "/" + filename)
  {
    var u := LocalUrl(config, filename);
    assert u[..|config.apiUrl|] == config.apiUrl;
    assert u[|u| - |"/" + filename|..] == "/" + filename;
  }

  lemma S3UrlShape(config: StorageConfig, key: string)
    ensures Js.StartsWith(S3Url(config, key), "https://")
    ensures Js.EndsWith(S3Url(config, key), "/" + key)
  {
    var u := S3Url(config, key);
    assert u[..8] == "https://";
    assert u[|u| - |"/" + key|..] == "/" + key;
  }

  datatype StorageError = WriteFailed | UploadFailed

  /** What `PutObjectCommand` stores under a key: the body and its content type. */
  datatype S3Object = S3Object(body: Bytes, contentType: string)

  // ---------------------------------------------------------------------------
  // The service

  class StorageService {
    const config: StorageConfig
    /** Directories that exist on the local disk. */
    var directories: set<string>
    /** Files on the local disk, by path. */
    var files: map<string, Bytes>
    /** Objects in the S3 bucket, by key. */
    var objects: map<string, S3Object>

    /** The constructor creates the upload directory when the storage type is exactly "local". */
    constructor (storageType: Option<string>, uploadDir: Option<string>, apiUrl: Option<string>, s3Bucket: Option<string>,
                 existingDirectories: set<string>, existingFiles: map<string, Bytes>, existingObjects: map<string, S3Object>)
      ensures config == StorageConfig(Setting(storageType, DefaultStorageType), Setting(uploadDir, DefaultUploadDir),
                                      if Setting(storageType, DefaultStorageType) == "s3" then s3Bucket else None,
                                      Setting(apiUrl, DefaultApiUrl))
      ensures directories == if config.storageType == "local" then existingDirectories + {config.uploadDir} else existingDirectories
      ensures files == existingFiles && objects == existingObjects
    {
      var kind := Setting(storageType, DefaultStorageType);
      var dir := Setting(uploadDir, DefaultUploadDir);
      config := StorageConfig(kind, dir, if kind == "s3" then s3Bucket else None, Setting(apiUrl, DefaultApiUrl));
      directories := if kind == "local" then existingDirectories + {dir} else existingDirectories;
      files := existingFiles;
      objects := existingObjects;
    }

    /** `fs.mkdirSync(dir, { recursive: true })` when the directory is missing. */
    method EnsureDirectory(dir: string)
      modifies this
      ensures directories == old(directories) + {dir}
      ensures files == old(files) && objects == old(objects)
    {
      directories := directories + {dir};
    }

    /** `fs.writeFileSync`: only into an existing directory; `ok` says whether the disk accepted the write. */
    method WriteFile(dir: string, filename: string, data: Bytes, ok: bool) returns (written: bool)
      requires dir in directories
      modifies this
      ensures written == ok
      ensures ok ==> files == old(files)[FilePath(dir, filename) := data]
      ensures !ok ==> files == old(files)
      ensures directories == old(directories) && objects == old(objects)
    {
      if ok {
        files := files[FilePath(dir, filename) := data];
      }
      written := ok;
    }

    /** `saveToLocal`: make sure the upload directory exists, write the file, answer with its URL. */
    method SaveToLocal(file: MulterFile, now: nat, random: nat, ok: bool) returns (r: Result<string, StorageError>)
      modifies this
      ensures directories == old(directories) + {config.uploadDir}
      ensures objects == old(objects)
      ensures ok ==> files == old(files)[FilePath(config.uploadDir, GenerateFilename(file.originalname, now, random)) := file.buffer]
      ensures ok ==> r == Success(LocalUrl(config, GenerateFilename(file.originalname, now, random)))
      ensures !ok ==> files == old(files) && r == Failure(WriteFailed)
    {
      var filename := GenerateFilename(file.originalname, now, random);
      EnsureDirectory(config.uploadDir);
      var written := WriteFile(config.uploadDir, filename, file.buffer, ok);
      if !written {
        return Failure(WriteFailed);
      }
      r := Success(LocalUrl(config, filename));
    }

    /** `saveToS3`: put the buffer, typed with the upload's MIME type, under `{now}-{originalname}` and answer with the object's URL. */
    method SaveToS3(file: MulterFile, now: nat, ok: bool) returns (r: Result<string, StorageError>)
      modifies this
      ensures directories == old(directories) && files == old(files)
      ensures ok ==> objects == old(objects)[S3Key(now, file.originalname) := S3Object(file.buffer, file.mimetype)]
      ensures ok ==> r == Success(S3Url(config, S3Key(now, file.originalname)))
      ensures !ok ==> objects == old(objects) && r == Failure(UploadFailed)
    {
      var key := S3Key(now, file.originalname);
      if !ok {
        return Failure(UploadFailed);
      }
      objects := objects[key := S3Object(file.buffer, file.mimetype)];
      r := Success(S3Url(config, key));
    }

    /** `saveFile`: the S3 path iff the storage type is exactly "s3". */
    method SaveFile(file: MulterFile, now: nat, random: nat, ok: bool) returns (r: Result<string, StorageError>)
      modifies this
      ensures ok ==> r == Success(SavedUrl(config, file.originalname, now, random))
      ensures !ok ==> r.Failure?
      ensures config.storageType == "s3" ==> directories == old(directories) && files == old(files)
      ensures config.storageType == "s3" && ok ==> objects == old(objects)[S3Key(now, file.originalname) := S3Object(file.buffer, file.mimetype)]
      ensures config.storageType != "s3" ==> objects == old(objects) && directories == old(directories) + {config.uploadDir}
      ensures config.storageType != "s3" && ok ==>
        files == old(files)[FilePath(config.uploadDir, GenerateFilename(file.originalname, now, random)) := file.buffer]
      ensures !ok ==> files == old(files) && objects == old(objects)
    {
      if config.storageType == "s3" {
        r := SaveToS3(file, now, ok);
      } else {
        r := SaveToLocal(file, now, random, ok);
      }
    }
  }
}
