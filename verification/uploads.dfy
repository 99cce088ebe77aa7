/**
 * The upload rules of the product routes: the mimetype check that decides
 * whether an uploaded file is stored at all, the name under which it is
 * stored, and the number of files the single-image and gallery routes take.
 * The clock reading the stored name embeds is part of the incoming file.
 */
module Uploads {
  import opened Models
  import Strings

  /** The accepted mimetypes and the extension each is stored under. */
  const FILE_TYPE_MAP: map<string, string> := map["image/png" := "png", "image/jpeg" := "jpeg", "image/jpg" := "jpg"]

  /** The directory uploads are stored in. */
  const UPLOAD_DIR := "uploads"

  /** The most files the gallery route takes in one request. */
  const MAX_GALLERY_FILES: nat := 8

  /** Why an upload is refused: a mimetype outside the map ('Invalid image type!'), or one file too many. */
  datatype UploadError = InvalidImageType | UnexpectedFile

  /** A file as the upload arrives: its client-side name, its mimetype, and the clock reading (ms) when it is named. */
  datatype Incoming = Incoming(originalname: string, mimetype: string, uploadedAt: nat)

  /** A stored upload: its directory and its generated name. */
  datatype StoredFile = StoredFile(destination: string, filename: string)

  predicate IsImageType(mimetype: string)
  {
    mimetype == "image/png" || mimetype == "image/jpeg" || mimetype == "image/jpg"
  }

  /**
   * `destination`: the file goes to the upload directory when its mimetype is
   * one of the map's own keys, and is refused otherwise.
   */
  function Destination(mimetype: string): (r: Result<string, UploadError>)
    ensures r.Success? <==> IsImageType(mimetype)
    ensures r.Success? ==> r.value == UPLOAD_DIR
    ensures r.Failure? ==> r.error == InvalidImageType
  {
    if mimetype in FILE_TYPE_MAP then Success(UPLOAD_DIR) else Failure(InvalidImageType)
  }

  /** The names every plain object inherits from `Object.prototype`. */
  const OBJECT_PROTOTYPE_MEMBERS: set<string> := {
    "constructor", "__proto__", "hasOwnProperty", "isPrototypeOf", "propertyIsEnumerable",
    "toLocaleString", "toString", "valueOf",
    "__defineGetter__", "__defineSetter__", "__lookupGetter__", "__lookupSetter__"}

  /**
   * `FILE_TYPE_MAP[key]` tested for truthiness, as the object literal behaves:
   * an own key gives its extension, an inherited member gives a function or
   * an object, both truthy; any other key gives `undefined`.
   */
  predicate LookupIsTruthy(key: string)
  {
    key in FILE_TYPE_MAP || key in OBJECT_PROTOTYPE_MEMBERS
  }

  /** `destination` as written: it accepts whatever the property lookup finds truthy. */
  function DestinationAsWritten(mimetype: string): (r: Result<string, UploadError>)
    ensures r.Success? <==> IsImageType(mimetype) || mimetype in OBJECT_PROTOTYPE_MEMBERS
  {
    if LookupIsTruthy(mimetype) then Success(UPLOAD_DIR) else Failure(InvalidImageType)
  }

  /**
   * The lookup as written accepts the mimetype "constructor" (and "__proto__"),
   * which is no image type; the own-key check refuses it. On every other
   * mimetype the two agree.
   */
  lemma InheritedNameAccepted()
    ensures DestinationAsWritten("constructor").Success?
    ensures DestinationAsWritten("__proto__").Success?
    ensures Destination("constructor") == Failure(InvalidImageType)
    ensures forall m :: m !in OBJECT_PROTOTYPE_MEMBERS ==> DestinationAsWritten(m) == Destination(m)
  {
    assert "constructor" in OBJECT_PROTOTYPE_MEMBERS && "__proto__" in OBJECT_PROTOTYPE_MEMBERS;
  }

  /**
   * The text `${FILE_TYPE_MAP[mimetype]}` gives under the own-key lookup: the
   * extension of an image type, and "undefined" for a mimetype that is
   * neither a key of the map nor an inherited name.
   */
  function ExtensionText(mimetype: string): (e: string)
    ensures e != "undefined" <==> IsImageType(mimetype)
    ensures IsImageType(mimetype) ==> e in {"png", "jpeg", "jpg"}
    ensures '.' !in e && ' ' !in e
  {
    if mimetype in FILE_TYPE_MAP then FILE_TYPE_MAP[mimetype] else "undefined"
  }

  /**
   * The stem of a stored name, `originalname.split(' ').join('-').split('.')[0]`:
   * the client-side name with every space turned into '-', cut before its
   * first '.'. It has neither spaces nor dots.
   */
  function BaseName(originalname: string): (b: string)
    ensures ' ' !in b && '.' !in b
    ensures |b| <= |originalname|
    ensures forall i :: 0 <= i < |b| ==> b[i] == (if originalname[i] == ' ' then '-' else originalname[i])
    ensures |b| < |originalname| ==> originalname[|b|] == '.'
  {
    var dashed := Strings.ReplaceAll(originalname, ' ', '-');
    Strings.Split(dashed, '.')[0]
  }

  /** Sanitising an already sanitised stem leaves it as it is. */
  lemma BaseNameIdempotent(originalname: string)
    ensures BaseName(BaseName(originalname)) == BaseName(originalname)
  {
    var b := BaseName(originalname);
    Strings.ReplaceAllAbsent(b, ' ', '-');
    Strings.SplitAbsent(b, '.');
  }

  /**
   * `filename`: `${stem}-${Date.now()}.${extension}`, the clock reading taken
   * from the file. The name has no spaces, and its only '.' is the one just
   * before the extension.
   */
  function Filename(file: Incoming): (name: string)
    ensures ' ' !in name
    ensures var ext := ExtensionText(file.mimetype);
      && |name| > |ext|
      && name[|name| - |ext| - 1..] == "." + ext
      && forall i :: 0 <= i < |name| && name[i] == '.' ==> i == |name| - |ext| - 1
  {
    var stem := BaseName(file.originalname) + "-" + Strings.DecimalString(file.uploadedAt);
    var ext := ExtensionText(file.mimetype);
    assert '.' !in stem && ' ' !in stem;
    var name := stem + "." + ext;
    assert forall i :: 0 <= i < |stem| ==> name[i] == stem[i];
    assert forall i :: |stem| < i < |name| ==> name[i] == ext[i - |stem| - 1];
    name
  }

  /**
   * For an accepted mimetype the stored name has exactly one '.': before it
   * the stem, '-' and the digits of the clock reading; after it the
   * mimetype's extension, one of png, jpeg and jpg. It has no spaces.
   */
  lemma FilenameShape(file: Incoming)
    requires Destination(file.mimetype).Success?
    ensures Strings.Split(Filename(file), '.')
         == [BaseName(file.originalname) + "-" + Strings.DecimalString(file.uploadedAt), FILE_TYPE_MAP[file.mimetype]]
    ensures FILE_TYPE_MAP[file.mimetype] in {"png", "jpeg", "jpg"}
    ensures ' ' !in Filename(file)
  {
    var stem := BaseName(file.originalname) + "-" + Strings.DecimalString(file.uploadedAt);
    var ext := FILE_TYPE_MAP[file.mimetype];
    assert '.' !in ext && ' ' !in ext;
    assert '.' !in Strings.DecimalString(file.uploadedAt) && ' ' !in Strings.DecimalString(file.uploadedAt);
    assert '.' !in stem;
    assert Strings.Join([stem, ext], '.') == Filename(file);
    Strings.SplitJoin([stem, ext], '.');
  }

  /** One file through `destination` then `filename`; a refused file is never named. */
  function StoreUpload(file: Incoming): (r: Result<StoredFile, UploadError>)
    ensures r.Success? <==> IsImageType(file.mimetype)
    ensures r.Success? ==> r.value == StoredFile(UPLOAD_DIR, Filename(file))
    ensures r.Failure? ==> r.error == InvalidImageType
  {
    match Destination(file.mimetype)
    case Failure(e) => Failure(e)
    case Success(dir) => Success(StoredFile(dir, Filename(file)))
  }

  /**
   * A field that takes at most `limit` files, fed `files` in arrival order:
   * the first file past the limit, or the first with a refused mimetype,
   * fails the whole upload; otherwise every file is stored, in order.
   */
  function AcceptFiles(files: seq<Incoming>, limit: nat): (r: Result<seq<StoredFile>, UploadError>)
    ensures r.Success? <==> |files| <= limit && forall i :: 0 <= i < |files| ==> IsImageType(files[i].mimetype)
    ensures r.Success? ==> |r.value| == |files|
    ensures r.Success? ==> forall i :: 0 <= i < |files| ==> r.value[i] == StoredFile(UPLOAD_DIR, Filename(files[i]))
  {
    if |files| == 0 then Success([])
    else if limit == 0 then Failure(UnexpectedFile)
    else
      match StoreUpload(files[0])
      case Failure(e) => Failure(e)
      case Success(f) =>
        match AcceptFiles(files[1..], limit - 1)
        case Failure(e) => Failure(e)
        case Success(rest) =>
          assert forall i :: 0 < i < |files| ==> files[i] == files[1..][i - 1];
          Success([f] + rest)
  }

  /** The error of a refused upload is that of the first file to fail, past the limit or refused by type. */
  lemma {:induction false} AcceptFilesFirstError(files: seq<Incoming>, limit: nat, j: nat)
    requires j < |files|
    requires forall i :: 0 <= i < j ==> IsImageType(files[i].mimetype)
    requires j >= limit || !IsImageType(files[j].mimetype)
    ensures AcceptFiles(files, limit) == Failure(if j >= limit then UnexpectedFile else InvalidImageType)
  {
    if limit == 0 {
      assert AcceptFiles(files, limit) == Failure(UnexpectedFile);
    } else if j == 0 {
      assert StoreUpload(files[0]) == Failure(InvalidImageType);
    } else {
      var rest := files[1..];
      assert forall i :: 0 <= i < j - 1 ==> rest[i] == files[i + 1];
      assert rest[j - 1] == files[j];
      AcceptFilesFirstError(rest, limit - 1, j - 1);
      var first := StoreUpload(files[0]);
      assert first.Success? by {
        assert IsImageType(files[0].mimetype);
      }
      assert AcceptFiles(files, limit) == AcceptFiles(rest, limit - 1);
    }
  }

  /** The single-image route: at most one file. */
  function SingleUpload(files: seq<Incoming>): (r: Result<Option<StoredFile>, UploadError>)
    ensures r.Success? <==> |files| <= 1 && forall i :: 0 <= i < |files| ==> IsImageType(files[i].mimetype)
    ensures r == Success(None) <==> files == []
  {
    match AcceptFiles(files, 1)
    case Failure(e) => Failure(e)
    case Success(stored) => if |stored| == 0 then Success(None) else Success(Some(stored[0]))
  }

  /** The gallery route: at most eight files, each an image, stored in arrival order. */
  function GalleryUpload(files: seq<Incoming>): (r: Result<seq<StoredFile>, UploadError>)
    ensures r.Success? ==> |r.value| == |files| <= MAX_GALLERY_FILES
    ensures |files| > MAX_GALLERY_FILES ==> r.Failure?
  {
    AcceptFiles(files, MAX_GALLERY_FILES)
  }
}
