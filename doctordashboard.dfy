/**
 * The doctor's dashboard: the header photo, the appointment filter, the
 * resource-upload form with its guard against a second submission, and the
 * "my resources" list.
 */
module DoctorDashboard {
  import opened Values
  import opened Strings
  import opened Seqs
  import Records
  import Uploads
  import ResourceView

  type Resource = Uploads.Resource

  const DoctorPlaceholder: string := "https://via.placeholder.com/60"

  /**
   * `loadDoctorProfile`'s photo: backslashes become slashes, every
   * `backend/uploads/` is removed, and the rest is served from `/backend/uploads/`.
   */
  function DoctorOwnPhotoPath(profilePhoto: string): (r: string)
    ensures profilePhoto == [] ==> r == DoctorPlaceholder
    ensures profilePhoto != [] ==> StartsWith(r, "/backend/uploads/")
  {
    if profilePhoto == [] then DoctorPlaceholder
    else
      var clean := RemoveAll(Slashes(profilePhoto), "backend/uploads/");
      var r := "/backend/uploads/" + clean;
      assert r[..17] == "/backend/uploads/";
      r
  }

  /** In `profiles/<name>` the only slash is the one at index 8. */
  lemma NoUploadsInProfileName(name: string)
    requires '/' !in name
    ensures !Contains("profiles/" + name, "backend/uploads/")
  {
    var t := "profiles/" + name;
    var pat := "backend/uploads/";
    forall i
      ensures !OccursAt(t, pat, i)
    {
      if 0 <= i && i + |pat| <= |t| {
        if i == 1 {
          assert t[16] == name[7] && name[7] in name;
          assert t[i..i + |pat|][15] != pat[15];
        } else {
          assert t[i + 7] != '/' by {
            if i + 7 >= 9 {
              assert t[i + 7] == name[i - 2] && name[i - 2] in name;
            }
          }
          assert t[i..i + |pat|][7] != pat[7];
        }
      }
    }
    NoOccurrence(t, pat);
  }

  /** A profile photo the server stored under `backend/uploads/profiles/` is shown from that same file. */
  lemma StoredProfilePhotoShown(name: string)
    requires '/' !in name && '\\' !in name
    ensures DoctorOwnPhotoPath("backend/uploads/profiles/" + name) == "/backend/uploads/profiles/" + name
  {
    var s := "backend/uploads/profiles/" + name;
    var pat := "backend/uploads/";
    ProfilesUnderUploads(name);
    SlashesNoOp(s);
    assert s[..|pat|] == pat && s[|pat|..] == "profiles/" + name;
    NoUploadsInProfileName(name);
    assert RemoveAll(s, pat) == "profiles/" + name;
  }

  /** `profiles/<name>` under the uploads root, with and without the leading `/`. */
  lemma ProfilesUnderUploads(name: string)
    ensures "backend/uploads/profiles/" + name == "backend/uploads/" + ("profiles/" + name)
    ensures "/backend/uploads/profiles/" + name == "/backend/uploads/" + ("profiles/" + name)
  {
    var a := "backend/uploads/profiles/" + name;
    var b := "backend/uploads/" + ("profiles/" + name);
    forall i | 0 <= i < |a|
      ensures a[i] == b[i]
    {
      if i >= 25 {
        assert a[i] == name[i - 25] == b[i];
      }
    }
    var c := "/backend/uploads/profiles/" + name;
    var d := "/backend/uploads/" + ("profiles/" + name);
    forall i | 0 <= i < |c|
      ensures c[i] == d[i]
    {
      if i >= 26 {
        assert c[i] == name[i - 26] == d[i];
      }
    }
  }

  /** `filterAppointments(filter)` over the fetched appointments. */
  function FilterAppointments(appointments: seq<Records.Appointment>, filter: string): (r: seq<Records.Appointment>)
    ensures filter == "all" ==> r == appointments
    ensures filter != "all" ==> forall a :: a in r <==> a in appointments && a.status == filter
    ensures Subsequence(r, appointments)
  {
    SelectUnlessAll(appointments, filter, Records.AppointmentStatus)
  }

  lemma FilterAppointmentsIdempotent(appointments: seq<Records.Appointment>, filter: string)
    ensures FilterAppointments(FilterAppointments(appointments, filter), filter) == FilterAppointments(appointments, filter)
  {
    SelectUnlessAllIdempotent(appointments, filter, Records.AppointmentStatus);
  }

  // ---------------------------------------------------------------------------
  // The upload form

  /** The file chosen in the form: its size in bytes and the browser's MIME type. */
  datatype ClientFile = ClientFile(size: nat, mime: string)

  const MaxClientSize: nat := 52428800

  /** The form's `validTypes` table; `None` for a type it has no entry for. */
  function ValidMimes(kind: string): (r: Option<seq<string>>)
    ensures r.Some? <==> kind in {"audio", "video", "article"}
  {
    if kind == "audio" then Some(["audio/mpeg", "audio/wav", "audio/ogg", "audio/mp3", "audio/x-m4a"])
    else if kind == "video" then Some(["video/mp4", "video/webm", "video/ogg", "video/quicktime"])
    else if kind == "article" then Some(["application/pdf"])
    else None
  }

  /** What `uploadResource` does with one submission. */
  datatype Check =
    | Ignored                          // a submission is already in progress
    | NoFile
    | TooLarge
    | NoType
    | UnknownType                      // `validTypes[type]` is undefined: a TypeError, nothing else happens
    | WrongMime(allowed: seq<string>)
    | Send(file: ClientFile, kind: string)

  /** The checks of `uploadResource`, in the order it makes them. */
  function CheckUpload(disabled: bool, file: Option<ClientFile>, kind: string): (r: Check)
    ensures disabled <==> r == Ignored
    ensures r.Send? <==>
      !disabled && file.Some? && file.value.size <= MaxClientSize &&
      kind in {"audio", "video", "article"} && file.value.mime in ValidMimes(kind).value
    ensures r.Send? ==> r.file == file.value && r.kind == kind
    ensures r == TooLarge <==> !disabled && file.Some? && file.value.size > MaxClientSize
    ensures r.WrongMime? ==> file.Some? && ValidMimes(kind).Some? && r.allowed == ValidMimes(kind).value && file.value.mime !in r.allowed
  {
    if disabled then Ignored
    else if file.None? then NoFile
    else if file.value.size > MaxClientSize then TooLarge
    else if kind == [] then NoType
    else if ValidMimes(kind).None? then UnknownType
    else if file.value.mime !in ValidMimes(kind).value then WrongMime(ValidMimes(kind).value)
    else Send(file.value, kind)
  }

  /** How the upload request ended, as the form sees it. */
  datatype Response = OkJson | ErrorJson | NotJson

  /**
   * The form's state: whether the button is disabled, how many requests await
   * their response, whether the two-second re-enable timer is pending, and the
   * requests sent so far.
   */
  datatype FormState = FormState(disabled: bool, inFlight: nat, timerPending: bool, sent: seq<Check>)

  /** The button is disabled while a request is outstanding or its timer is pending, and at most one request is outstanding. */
  predicate FormInvariant(s: FormState)
  {
    s.inFlight <= 1 &&
    (s.inFlight == 1 ==> s.disabled && !s.timerPending) &&
    (s.timerPending ==> s.disabled) &&
    (forall k :: 0 <= k < |s.sent| ==> s.sent[k].Send?)
  }

  function AfterSubmit(s: FormState, file: Option<ClientFile>, kind: string): (r: FormState)
    ensures var c := CheckUpload(s.disabled, file, kind);
      (c.Send? ==> r == s.(disabled := true, inFlight := s.inFlight + 1, sent := s.sent + [c])) &&
      (!c.Send? ==> r == s)
  {
    var c := CheckUpload(s.disabled, file, kind);
    if c.Send? then s.(disabled := true, inFlight := s.inFlight + 1, sent := s.sent + [c]) else s
  }

  /** A success schedules the re-enable; an error or a non-JSON reply re-enables at once. */
  function AfterResponse(s: FormState, response: Response): (r: FormState)
    requires s.inFlight > 0
    ensures r.inFlight == s.inFlight - 1 && r.sent == s.sent
    ensures response == OkJson ==> r.disabled == s.disabled && r.timerPending
    ensures response != OkJson ==> !r.disabled && r.timerPending == s.timerPending
  {
    if response == OkJson then s.(inFlight := s.inFlight - 1, timerPending := true)
    else s.(inFlight := s.inFlight - 1, disabled := false)
  }

  function AfterTimer(s: FormState): (r: FormState)
    requires s.timerPending
    ensures !r.disabled && !r.timerPending && r.inFlight == s.inFlight && r.sent == s.sent
  {
    s.(disabled := false, timerPending := false)
  }

  lemma SubmitKeepsInvariant(s: FormState, file: Option<ClientFile>, kind: string)
    requires FormInvariant(s)
    ensures FormInvariant(AfterSubmit(s, file, kind))
  {
  }

  lemma ResponseKeepsInvariant(s: FormState, response: Response)
    requires FormInvariant(s) && s.inFlight > 0
    ensures FormInvariant(AfterResponse(s, response))
  {
  }

  lemma TimerKeepsInvariant(s: FormState)
    requires FormInvariant(s) && s.timerPending
    ensures FormInvariant(AfterTimer(s))
  {
  }

  /**
   * A second click while the first upload is still on its way sends nothing:
   * two submissions in a row produce at most one request.
   */
  lemma DoubleSubmitSendsOnce(s: FormState, f1: Option<ClientFile>, k1: string, f2: Option<ClientFile>, k2: string)
    requires FormInvariant(s)
    ensures var t := AfterSubmit(AfterSubmit(s, f1, k1), f2, k2);
      |t.sent| <= |s.sent| + 1 && t.inFlight <= 1
  {
    var t1 := AfterSubmit(s, f1, k1);
    SubmitKeepsInvariant(s, f1, k1);
    SubmitKeepsInvariant(t1, f2, k2);
  }

  /** The form, as an object whose event handlers update it. */
  class UploadForm {
    var disabled: bool
    var inFlight: nat
    var timerPending: bool
    var sent: seq<Check>

    function State(): FormState
      reads this
    {
      FormState(disabled, inFlight, timerPending, sent)
    }

    constructor()
      ensures State() == FormState(false, 0, false, []) && FormInvariant(State())
    {
      disabled := false;
      inFlight := 0;
      timerPending := false;
      sent := [];
    }

    /** The `submit` handler up to the request going out. */
    method Submit(file: Option<ClientFile>, kind: string) returns (c: Check)
      modifies this
      ensures c == CheckUpload(old(disabled), file, kind)
      ensures State() == AfterSubmit(old(State()), file, kind)
    {
      c := CheckUpload(disabled, file, kind);
      if c.Send? {
        disabled := true;
        inFlight := inFlight + 1;
        sent := sent + [c];
      }
    }

    /** The rest of the handler, once the request has settled. */
    method ResponseArrived(response: Response)
      requires inFlight > 0
      modifies this
      ensures State() == AfterResponse(old(State()), response)
    {
      inFlight := inFlight - 1;
      if response == OkJson {
        timerPending := true;
      } else {
        disabled := false;
      }
    }

    method TimerFired()
      requires timerPending
      modifies this
      ensures State() == AfterTimer(old(State()))
    {
      disabled := false;
      timerPending := false;
    }
  }

  /** Every file the form lets through also passes the server's MIME filter. */
  lemma ClientMimesPassServerFilter(file: ClientFile, kind: string)
    requires CheckUpload(false, Some(file), kind).Send?
    ensures Uploads.FileFilter(file.mime).Accept?
  {
  }

  /** The server stores such a file in the folder the library page looks in for its type. */
  lemma ClientTypeSelectsServerFolder(file: ClientFile, kind: string, name: string)
    requires CheckUpload(false, Some(file), kind).Send?
    ensures "/" + Uploads.Destination(Uploads.FilePart("file", file.mime, name)) == ResourceView.FolderUrl(kind)
  {
    var m := file.mime;
    if kind == "audio" {
      assert m[..6] == "audio/";
      AudioFolder(m, name);
    } else if kind == "video" {
      assert m[..6] == "video/" && m[..6][1] != "audio/"[1];
      VideoFolder(m, name);
    } else {
      assert m == "application/pdf";
      ArticleFolder(name);
    }
  }

  /** The folder `Destination` picks for an audio file is the audio folder URL. */
  lemma AudioFolder(m: string, name: string)
    requires StartsWith(m, "audio/")
    ensures "/" + Uploads.Destination(Uploads.FilePart("file", m, name)) == ResourceView.FolderUrl("audio")
  {
    TypeFolderUrls();
  }

  lemma VideoFolder(m: string, name: string)
    requires StartsWith(m, "video/") && !StartsWith(m, "audio/")
    ensures "/" + Uploads.Destination(Uploads.FilePart("file", m, name)) == ResourceView.FolderUrl("video")
  {
    TypeFolderUrls();
  }

  lemma ArticleFolder(name: string)
    ensures "/" + Uploads.Destination(Uploads.FilePart("file", "application/pdf", name)) == ResourceView.FolderUrl("article")
  {
    PdfDestination(name);
    TypeFolderUrls();
  }

  /** The server's three type folders, rooted at `/`, are the page's folder URLs. */
  lemma TypeFolderUrls()
    ensures "/" + "backend/uploads/audio/" == "/backend/uploads/" + "audio" + "/"
    ensures "/" + "backend/uploads/video/" == "/backend/uploads/" + "video" + "/"
    ensures "/" + "backend/uploads/pdfarticle/" == "/backend/uploads/" + "pdfarticle" + "/"
  {
  }

  lemma PdfDestination(name: string)
    ensures Uploads.Destination(Uploads.FilePart("file", "application/pdf", name)) == "backend/uploads/pdfarticle/"
  {
    var m := "application/pdf";
    assert m[..6] == "applic" && m[..6][1] != "audio/"[1] && m[..6][0] != "video/"[0];
  }

  // ---------------------------------------------------------------------------
  // My resources

  function UploadedBy(r: Resource): string
  {
    r.uploadedBy
  }

  /** Every resource with its `approved` flag set to `approved`. */
  function MarkAll(rs: seq<Resource>, approved: bool): (r: seq<Resource>)
    ensures |r| == |rs|
    ensures forall i :: 0 <= i < |rs| ==> r[i] == rs[i].(approved := approved)
  {
    if rs == [] then [] else [rs[0].(approved := approved)] + MarkAll(rs[1..], approved)
  }

  /**
   * `loadMyResources`: the doctor's own pending resources, marked unapproved,
   * followed by their own approved ones, marked approved.
   */
  function MyResources(pending: seq<Resource>, approved: seq<Resource>, userId: string): (r: seq<Resource>)
  {
    MarkAll(Select(pending, UploadedBy, userId), false) + MarkAll(Select(approved, UploadedBy, userId), true)
  }

  /**
   * The list is the doctor's own pending resources, marked unapproved, followed by
   * their own approved ones, marked approved: one entry per selected resource.
   */
  lemma MyResourcesLayout(pending: seq<Resource>, approved: seq<Resource>, userId: string)
    ensures var r := MyResources(pending, approved, userId);
      var mine := Select(pending, UploadedBy, userId);
      var mineApproved := Select(approved, UploadedBy, userId);
      |r| == |mine| + |mineApproved| &&
      (forall i :: 0 <= i < |mine| ==> r[i] == mine[i].(approved := false)) &&
      (forall i :: 0 <= i < |mineApproved| ==> r[|mine| + i] == mineApproved[i].(approved := true))
  {
  }

  /**
   * Only the doctor's own resources appear, the pending ones first and marked
   * unapproved, then the approved ones marked approved, and every own resource appears.
   */
  lemma MyResourcesFacts(pending: seq<Resource>, approved: seq<Resource>, userId: string)
    ensures var r := MyResources(pending, approved, userId);
      var n := |Select(pending, UploadedBy, userId)|;
      n <= |r| &&
      |r| == |Select(pending, UploadedBy, userId)| + |Select(approved, UploadedBy, userId)| &&
      (forall x :: x in r ==> x.uploadedBy == userId) &&
      (forall i :: 0 <= i < n ==> !r[i].approved) &&
      (forall i :: n <= i < |r| ==> r[i].approved) &&
      (forall y :: y in pending && y.uploadedBy == userId ==> y.(approved := false) in r) &&
      (forall y :: y in approved && y.uploadedBy == userId ==> y.(approved := true) in r)
  {
    var mp := Select(pending, UploadedBy, userId);
    var ma := Select(approved, UploadedBy, userId);
    MyResourcesLayout(pending, approved, userId);
    MarkedOwn(mp, ma, userId);
    MarkedComplete(pending, mp, ma, userId);
    MarkedCompleteTail(approved, mp, ma, userId);
  }

  /** Marking keeps the uploader, so lists of own resources stay own. */
  lemma MarkedOwn(mp: seq<Resource>, ma: seq<Resource>, userId: string)
    requires forall x :: x in mp ==> x.uploadedBy == userId
    requires forall x :: x in ma ==> x.uploadedBy == userId
    ensures forall x :: x in MarkAll(mp, false) + MarkAll(ma, true) ==> x.uploadedBy == userId
  {
    var r := MarkAll(mp, false) + MarkAll(ma, true);
    forall x: Resource | x in r
      ensures x.uploadedBy == userId
    {
      var i :| 0 <= i < |r| && r[i] == x;
      if i < |mp| {
        assert x == mp[i].(approved := false) && mp[i] in mp;
      } else {
        assert x == ma[i - |mp|].(approved := true) && ma[i - |mp|] in ma;
      }
    }
  }

  /** Every resource of the first list appears, marked unapproved. */
  lemma MarkedComplete(source: seq<Resource>, mp: seq<Resource>, ma: seq<Resource>, userId: string)
    requires forall y :: y in source && y.uploadedBy == userId ==> y in mp
    ensures forall y :: y in source && y.uploadedBy == userId ==> y.(approved := false) in MarkAll(mp, false) + MarkAll(ma, true)
  {
    var r := MarkAll(mp, false) + MarkAll(ma, true);
    forall y: Resource | y in source && y.uploadedBy == userId
      ensures y.(approved := false) in r
    {
      var i :| 0 <= i < |mp| && mp[i] == y;
      assert r[i] == y.(approved := false);
    }
  }

  /** Every resource of the second list appears, marked approved. */
  lemma MarkedCompleteTail(source: seq<Resource>, mp: seq<Resource>, ma: seq<Resource>, userId: string)
    requires forall y :: y in source && y.uploadedBy == userId ==> y in ma
    ensures forall y :: y in source && y.uploadedBy == userId ==> y.(approved := true) in MarkAll(mp, false) + MarkAll(ma, true)
  {
    var r := MarkAll(mp, false) + MarkAll(ma, true);
    forall y: Resource | y in source && y.uploadedBy == userId
      ensures y.(approved := true) in r
    {
      var i :| 0 <= i < |ma| && ma[i] == y;
      assert r[|mp| + i] == y.(approved := true);
    }
  }
}
