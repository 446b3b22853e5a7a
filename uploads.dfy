/**
 * The upload pipeline of the server: where multer stores a file, what it names
 * it, which MIME types it lets through, and the resource-upload handler's guard
 * against a repeated upload within five seconds.
 */
module Uploads {
  import opened Values
  import opened Strings

  /** What multer knows about an incoming file part. */
  datatype FilePart = FilePart(fieldname: string, mimetype: string, originalname: string)

  const UploadRoot: string := "backend/uploads/"

  /** multer's `limits.fileSize`: 100 MiB. */
  const MaxFileSize: nat := 104857600

  /** The folders multer writes into. */
  const Destinations: set<string> := {
    "backend/uploads/profiles/", "backend/uploads/doctor-proofs/", "backend/uploads/audio/",
    "backend/uploads/video/", "backend/uploads/pdfarticle/"
  }

  /**
   * multer's `destination`: decided by the field name first; only the resource
   * field `file` looks at the MIME type.
   */
  function Destination(f: FilePart): (r: string)
    ensures r in Destinations && StartsWith(r, UploadRoot)
    // only the `file` field depends on the MIME type
    ensures f.fieldname != "file" ==> r == (if f.fieldname == "proof" then "backend/uploads/doctor-proofs/" else "backend/uploads/profiles/")
    ensures r == "backend/uploads/doctor-proofs/" <==> f.fieldname == "proof"
    ensures r in {"backend/uploads/audio/", "backend/uploads/video/", "backend/uploads/pdfarticle/"} ==> f.fieldname == "file"
  {
    var r :=
      if f.fieldname == "profilePhoto" then "backend/uploads/profiles/"
      else if f.fieldname == "proof" then "backend/uploads/doctor-proofs/"
      else if f.fieldname == "file" then
        if StartsWith(f.mimetype, "audio/") then "backend/uploads/audio/"
        else if StartsWith(f.mimetype, "video/") then "backend/uploads/video/"
        else if f.mimetype == "application/pdf" then "backend/uploads/pdfarticle/"
        else "backend/uploads/profiles/"
      else "backend/uploads/profiles/";
    assert r[..|UploadRoot|] == UploadRoot;
    r
  }

  /** The field name alone decides the folder of profile photos and proofs, whatever the MIME type claims. */
  lemma DestinationIgnoresMimeOutsideFile(f: FilePart, mime: string)
    requires f.fieldname != "file"
    ensures Destination(f.(mimetype := mime)) == Destination(f)
  {
  }

  predicate SafeChar(c: char)
  {
    ('a' <= c <= 'z') || ('A' <= c <= 'Z') || ('0' <= c <= '9') || c == '.'
  }

  /** What a stored file name may be made of: `[a-zA-Z0-9.-]`. */
  predicate SafeName(s: string)
  {
    forall i :: 0 <= i < |s| ==> SafeChar(s[i]) || s[i] == '-'
  }

  /** `originalname.replace(/[^a-zA-Z0-9.]/g, '-')`. */
  function Sanitize(name: string): (r: string)
    ensures |r| == |name|
    ensures SafeName(r)
    ensures forall i :: 0 <= i < |name| ==> (SafeChar(name[i]) ==> r[i] == name[i]) && (!SafeChar(name[i]) ==> r[i] == '-')
  {
    if name == [] then [] else [if SafeChar(name[0]) then name[0] else '-'] + Sanitize(name[1..])
  }

  /** Sanitising twice is sanitising once. */
  lemma SanitizeIdempotent(name: string)
    ensures Sanitize(Sanitize(name)) == Sanitize(name)
  {
    var s := Sanitize(name);
    assert forall i :: 0 <= i < |s| ==> Sanitize(s)[i] == s[i];
  }

  /**
   * The name multer stores an upload under: the clock reading in milliseconds, a dash, a random
   * integer below 10^9, a dash, then the sanitised original name.
   * The clock reading and the random number are parameters.
   */
  function StoredName(now: nat, random: nat, originalname: string): (r: string)
    ensures SafeName(r) && '/' !in r && '\\' !in r
    ensures |r| > |originalname| + 3
    ensures r[|r| - |originalname|..] == Sanitize(originalname)
  {
    var tail := Decimal(random) + ("-" + Sanitize(originalname));
    var r := Decimal(now) + ("-" + tail);
    DecimalIsSafe(now);
    DecimalIsSafe(random);
    SafeNameConcat("-", Sanitize(originalname));
    SafeNameConcat(Decimal(random), "-" + Sanitize(originalname));
    SafeNameConcat("-", tail);
    SafeNameConcat(Decimal(now), "-" + tail);
    assert r[|r| - |originalname|..] == Sanitize(originalname);
    r
  }

  /** The stored name is the clock reading, a dash, the random number, a dash and the sanitised name. */
  lemma StoredNameFormat(now: nat, random: nat, originalname: string)
    ensures StoredName(now, random, originalname) ==
      Decimal(now) + ("-" + (Decimal(random) + ("-" + Sanitize(originalname))))
  {
  }

  lemma DecimalIsSafe(n: nat)
    ensures SafeName(Decimal(n))
  {
  }

  lemma SafeNameConcat(a: string, b: string)
    requires SafeName(a) && SafeName(b)
    ensures SafeName(a + b)
  {
    assert forall i :: 0 <= i < |a + b| ==> (a + b)[i] == if i < |a| then a[i] else b[i - |a|];
  }

  /**
   * The clock reading and the random number can be read back from a stored name,
   * so two uploads that differ in either never share a name, whatever their
   * original names.
   */
  lemma StoredNamesDistinct(now1: nat, random1: nat, name1: string, now2: nat, random2: nat, name2: string)
    requires now1 != now2 || random1 != random2
    ensures StoredName(now1, random1, name1) != StoredName(now2, random2, name2)
  {
    if StoredName(now1, random1, name1) == StoredName(now2, random2, name2) {
      StoredNameFormat(now1, random1, name1);
      StoredNameFormat(now2, random2, name2);
      var t1 := Decimal(random1) + ("-" + Sanitize(name1));
      var t2 := Decimal(random2) + ("-" + Sanitize(name2));
      DigitsThenDash(Decimal(now1), t1, Decimal(now2), t2);
      DigitsThenDash(Decimal(random1), Sanitize(name1), Decimal(random2), Sanitize(name2));
      DecimalInjective(now1, now2);
      DecimalInjective(random1, random2);
    }
  }

  /** Where multer puts the file: its destination folder followed by the stored name. */
  function StoredPath(f: FilePart, now: nat, random: nat): (r: string)
    ensures StartsWith(r, Destination(f))
  {
    Destination(f) + StoredName(now, random, f.originalname)
  }

  /** The stored path is the upload root followed by a part with no backslash. */
  lemma StoredPathUnderRoot(f: FilePart, now: nat, random: nat)
    ensures var tail := StoredPath(f, now, random)[|UploadRoot|..];
      StoredPath(f, now, random) == UploadRoot + tail && '\\' !in tail
  {
    var dest := Destination(f);
    var name := StoredName(now, random, f.originalname);
    var p := dest + name;
    DestinationHasNoBackslash(f);
    assert p[..16] == dest[..16] == UploadRoot;
    assert p[16..] == dest[16..] + name;
  }

  lemma DestinationHasNoBackslash(f: FilePart)
    ensures '\\' !in Destination(f)
  {
    var d := Destination(f);
    if d == "backend/uploads/profiles/" {
    } else if d == "backend/uploads/doctor-proofs/" {
    } else if d == "backend/uploads/audio/" {
    } else if d == "backend/uploads/video/" {
    } else {
      assert d == "backend/uploads/pdfarticle/";
    }
  }

  /** A stored file never leaves the folder multer chose: the rest of the path has no separator. */
  lemma StoredPathStaysInFolder(f: FilePart, now: nat, random: nat)
    ensures var p := StoredPath(f, now, random);
      p[|Destination(f)|..] == StoredName(now, random, f.originalname) &&
      '/' !in p[|Destination(f)|..] && '\\' !in p[|Destination(f)|..]
  {
  }

  /** multer's `fileFilter` allow-list. */
  const AllowedTypes: seq<string> := [
    "image/jpeg", "image/jpg", "image/png", "image/gif",
    "audio/mpeg", "audio/wav", "audio/ogg", "audio/mp3", "audio/x-m4a",
    "video/mp4", "video/webm", "video/ogg", "video/quicktime",
    "application/pdf"
  ]

  datatype FilterResult = Accept | Reject(message: string)

  /** multer's `fileFilter`: accepts a file iff its MIME type is on the allow-list. */
  function FileFilter(mimetype: string): (r: FilterResult)
    ensures r.Accept? <==> mimetype in AllowedTypes
    ensures r.Reject? ==> r.message == "Invalid file type: " + mimetype
  {
    if mimetype in AllowedTypes then Accept else Reject("Invalid file type: " + mimetype)
  }

  // ---------- POST /api/resource/upload ----------

  /** A stored resource document, as far as the handler reads and writes it. */
  datatype Resource = Resource(
    id: string, uploadedBy: string, uploaderRole: string, kind: string, fileName: string,
    filePath: string, title: string, description: string, approved: bool, createdAt: int)

  /** Milliseconds within which the same upload counts as a repeat. */
  const DuplicateWindow: int := 5000

  /** The duplicate query: same uploader, same original name, same type, created in the last five seconds. */
  predicate IsRepeat(r: Resource, user: string, fileName: string, kind: string, now: int)
  {
    r.uploadedBy == user && r.fileName == fileName && r.kind == kind && r.createdAt >= now - DuplicateWindow
  }

  /** `Resource.findOne(...)`: the first stored resource that matches, if any. */
  function FindRepeat(stored: seq<Resource>, user: string, fileName: string, kind: string, now: int): (r: Option<nat>)
    ensures r.Some? ==> r.value < |stored| && IsRepeat(stored[r.value], user, fileName, kind, now)
    ensures r.Some? ==> forall j :: 0 <= j < r.value ==> !IsRepeat(stored[j], user, fileName, kind, now)
    ensures r.None? <==> forall j :: 0 <= j < |stored| ==> !IsRepeat(stored[j], user, fileName, kind, now)
  {
    if stored == [] then None
    else if IsRepeat(stored[0], user, fileName, kind, now) then Some(0)
    else
      var rest := FindRepeat(stored[1..], user, fileName, kind, now);
      if rest.Some? then Some(rest.value + 1) else None
  }

  /** What the upload handler does. */
  datatype UploadOutcome =
    | NoFile                          // 400, nothing stored
    | MissingType                     // 400, the uploaded file is deleted
    | AlreadyUploaded(existing: string) // success reply naming the earlier resource; the new file is deleted
    | Created(resource: Resource)     // a new, unapproved resource is saved

  /** The request as the handler sees it after multer has run. */
  datatype UploadRequest = UploadRequest(
    file: Option<FilePart>, path: string, title: string, description: string, kind: string,
    user: string, role: string)

  /**
   * The handler's decisions, in its order. `now` is the clock reading and `newId`
   * the id the database would give a new document.
   */
  function Upload(req: UploadRequest, stored: seq<Resource>, now: int, newId: string): (r: UploadOutcome)
    ensures req.file.None? <==> r.NoFile?
    ensures r.MissingType? <==> req.file.Some? && req.kind == ""
    ensures r.AlreadyUploaded? ==>
      exists j :: 0 <= j < |stored| && stored[j].id == r.existing &&
        IsRepeat(stored[j], req.user, req.file.value.originalname, req.kind, now)
    ensures r.Created? ==>
      req.file.Some? && req.kind != "" &&
      (forall j :: 0 <= j < |stored| ==> !IsRepeat(stored[j], req.user, req.file.value.originalname, req.kind, now))
    ensures r.Created? ==> var x := r.resource;
      !x.approved && x.uploadedBy == req.user && x.kind == req.kind && x.fileName == req.file.value.originalname &&
      x.filePath == req.path && x.createdAt == now && x.id == newId
  {
    if req.file.None? then NoFile
    else if req.kind == "" then MissingType
    else
      var f := req.file.value;
      match FindRepeat(stored, req.user, f.originalname, req.kind, now)
      case Some(j) => AlreadyUploaded(stored[j].id)
      case None =>
        Created(Resource(newId, req.user, req.role, req.kind, f.originalname, req.path,
                         req.title, req.description, false, now))
  }

  /**
   * The same upload sent again by the same user within five seconds is answered with
   * the first one's id, and nothing new is stored.
   */
  lemma {:induction false} RepeatWithinWindowIsRejected(req: UploadRequest, stored: seq<Resource>, t: int, id1: string, t2: int, id2: string)
    requires Upload(req, stored, t, id1).Created?
    requires t <= t2 <= t + DuplicateWindow
    ensures var first := Upload(req, stored, t, id1).resource;
      Upload(req, stored + [first], t2, id2).AlreadyUploaded?
  {
    var first := Upload(req, stored, t, id1).resource;
    var f := req.file.value;
    assert IsRepeat(first, req.user, f.originalname, req.kind, t2);
    assert (stored + [first])[|stored|] == first;
    var found := FindRepeat(stored + [first], req.user, f.originalname, req.kind, t2);
    assert found.Some?;
  }

  /**
   * The handler awaits `findOne` and then `save`, so a second identical request can
   * run its lookup before the first one's save. Both lookups then see the same
   * stored list, both requests are accepted, and the store ends with two copies of
   * the upload within the five-second window.
   */
  lemma ConcurrentRepeatsBothStored(req: UploadRequest, stored: seq<Resource>, t: int, id1: string, t2: int, id2: string)
    requires Upload(req, stored, t, id1).Created?
    requires t <= t2 <= t + DuplicateWindow
    ensures Upload(req, stored, t2, id2).Created?
    ensures var first := Upload(req, stored, t, id1).resource;
      var second := Upload(req, stored, t2, id2).resource;
      var f := req.file.value;
      IsRepeat(first, req.user, f.originalname, req.kind, t2) &&
      IsRepeat(second, req.user, f.originalname, req.kind, t2) &&
      (stored + [first] + [second])[|stored|] == first &&
      (stored + [first] + [second])[|stored| + 1] == second
  {
    var f := req.file.value;
    assert forall j :: 0 <= j < |stored| ==> !IsRepeat(stored[j], req.user, f.originalname, req.kind, t);
    assert forall j :: 0 <= j < |stored| ==> !IsRepeat(stored[j], req.user, f.originalname, req.kind, t2);
  }
}
