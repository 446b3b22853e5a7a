/**
 * The administrator's dashboard: the header photo, the overview figures, the
 * complaint filter and the monthly registration series of the chart.
 */
module AdminDashboard {
  import opened Values
  import opened Strings
  import opened Seqs
  import Records
  import Uploads

  type Complaint = Records.Complaint

  /**
   * `loadAdminProfile`'s photo: backslashes become slashes, one leading
   * `backend/` and then one leading `uploads/` are removed, and the rest is
   * served from `/backend/uploads/`. An admin without a photo keeps the page's
   * default image (None).
   */
  function AdminPhotoPath(profilePhoto: string): (r: Option<string>)
    ensures r.None? <==> profilePhoto == []
    ensures r.Some? ==> StartsWith(r.value, "/backend/uploads/") && '\\' !in r.value
    ensures r.Some? ==> r.value == "/backend/uploads/" + StripPrefix(StripPrefix(Slashes(profilePhoto), "backend/"), "uploads/")
  {
    if profilePhoto == [] then None
    else
      var clean := StripPrefix(StripPrefix(Slashes(profilePhoto), "backend/"), "uploads/");
      var r := "/backend/uploads/" + clean;
      assert r[..17] == "/backend/uploads/";
      Some(r)
  }

  /** A photo stored by the server under `backend/uploads/` is shown from that same file. */
  lemma AdminPhotoOfStored(tail: string)
    requires '\\' !in tail && !StartsWith(tail, "uploads/")
    ensures AdminPhotoPath("backend/uploads/" + tail) == Some("/backend/uploads/" + tail)
  {
    var s := "backend/uploads/" + tail;
    SlashesNoOp(s);
    assert s[..8] == "backend/";
    assert s[8..] == "uploads/" + tail;
    assert ("uploads/" + tail)[..8] == "uploads/";
  }

  /** A path stored without the `backend/` part is shown from the same file as one with it. */
  lemma AdminPhotoWithoutBackendPrefix(tail: string)
    requires '\\' !in tail
    ensures AdminPhotoPath("uploads/" + tail) == AdminPhotoPath("backend/uploads/" + tail)
  {
    var s := "backend/uploads/" + tail;
    var u := "uploads/" + tail;
    SlashesNoOp(s);
    SlashesNoOp(u);
    assert s[..8] == "backend/" && s[8..] == u;
    assert u[..8] == "uploads/";
    assert u[..8] != "backend/" by {
      assert u[0] != "backend/"[0];
    }
  }

  // ---------------------------------------------------------------------------
  // Complaints

  /**
   * `filterComplaints(filter)`: `patient` and `doctor` select on the
   * complainer's role, `pending` and `resolved` on the status, and any other
   * value (`all` among them) shows every complaint.
   */
  function FilterComplaints(complaints: seq<Complaint>, filter: string): (r: seq<Complaint>)
    ensures filter in {"patient", "doctor"} ==>
      forall c :: c in r <==> c in complaints && c.complainerRole == filter
    ensures filter in {"pending", "resolved"} ==>
      forall c :: c in r <==> c in complaints && c.status == filter
    ensures filter !in {"patient", "doctor", "pending", "resolved"} ==> r == complaints
    ensures Subsequence(r, complaints)
  {
    if filter == "patient" || filter == "doctor" then Select(complaints, Records.ComplainerRole, filter)
    else if filter == "pending" || filter == "resolved" then Select(complaints, Records.ComplaintStatus, filter)
    else
      SubsequenceRefl(complaints);
      complaints
  }

  /** Choosing the same complaint filter again shows the same list. */
  lemma FilterComplaintsIdempotent(complaints: seq<Complaint>, filter: string)
    ensures FilterComplaints(FilterComplaints(complaints, filter), filter) == FilterComplaints(complaints, filter)
  {
    if filter == "patient" || filter == "doctor" {
      SelectUnlessAllIdempotent(complaints, filter, Records.ComplainerRole);
    } else if filter == "pending" || filter == "resolved" {
      SelectUnlessAllIdempotent(complaints, filter, Records.ComplaintStatus);
    }
  }

  // ---------------------------------------------------------------------------
  // Overview

  /** The four figures of the overview cards. */
  datatype Overview = Overview(totalPatients: Json, totalDoctors: Json, pendingRequests: nat, openComplaints: nat)

  /** `data.count || 0` of a count request, or 0 when the request failed. */
  function CountOrZero(ok: bool, count: Option<Json>): (r: Json)
    ensures Truthy(r) <==> ok && TruthyOpt(count)
    ensures r == Num(0) || (count.Some? && r == count.value)
  {
    if ok && TruthyOpt(count) then count.value else Num(0)
  }

  /**
   * `loadOverviewData`: pending requests are the pending doctors plus the
   * pending resources; open complaints are those with status `pending`, the
   * same ones the complaint tab's `pending` filter shows.
   */
  function OverviewFigures(
    pendingDoctors: seq<Records.Doctor>, pendingResources: seq<Uploads.Resource>, complaints: seq<Complaint>,
    patientsOk: bool, patientCount: Option<Json>, doctorsOk: bool, doctorCount: Option<Json>): (r: Overview)
    ensures r.pendingRequests == |pendingDoctors| + |pendingResources|
    ensures r.openComplaints == |FilterComplaints(complaints, "pending")|
    ensures r.openComplaints <= |complaints|
    ensures r.openComplaints == 0 <==> forall c :: c in complaints ==> c.status != "pending"
    ensures r.totalPatients == CountOrZero(patientsOk, patientCount)
    ensures r.totalDoctors == CountOrZero(doctorsOk, doctorCount)
  {
    var open := Select(complaints, Records.ComplaintStatus, "pending");
    assert |open| > 0 ==> open[0] in open;
    Overview(CountOrZero(patientsOk, patientCount), CountOrZero(doctorsOk, doctorCount),
             |pendingDoctors| + |pendingResources|, |open|)
  }

  // ---------------------------------------------------------------------------
  // Registration chart

  /** One row of the monthly registration aggregate: the month number and its count. */
  datatype MonthCount = MonthCount(id: int, count: int)

  /** `data.find(p => p._id === month)`: the index of the first row of that month. */
  function FindMonth(rows: seq<MonthCount>, month: int): (r: Option<nat>)
    ensures r.Some? ==> r.value < |rows| && rows[r.value].id == month
    ensures r.Some? ==> forall k :: 0 <= k < r.value ==> rows[k].id != month
    ensures r.None? ==> forall k :: 0 <= k < |rows| ==> rows[k].id != month
  {
    if rows == [] then None
    else if rows[0].id == month then Some(0)
    else match FindMonth(rows[1..], month)
      case None => None
      case Some(k) => Some(k + 1)
  }

  /** `monthData ? monthData.count : 0`. */
  function MonthValue(rows: seq<MonthCount>, month: int): int
  {
    match FindMonth(rows, month)
    case None => 0
    case Some(k) => rows[k].count
  }

  /** The six values plotted for January to June. */
  function RegistrationSeries(rows: seq<MonthCount>): (r: seq<int>)
    ensures |r| == 6
    ensures forall i :: 0 <= i < 6 ==> r[i] == MonthValue(rows, i + 1)
  {
    seq(6, i => MonthValue(rows, i + 1))
  }

  /** A month's value is its count from the first part if it appears there, else from the second. */
  lemma {:induction false} MonthValueAppend(a: seq<MonthCount>, b: seq<MonthCount>, month: int)
    ensures MonthValue(a + b, month) == (if FindMonth(a, month).Some? then MonthValue(a, month) else MonthValue(b, month))
    decreases |a|
  {
    if a == [] {
      assert a + b == b;
    } else {
      assert (a + b)[0] == a[0] && (a + b)[1..] == a[1..] + b;
      if a[0].id != month {
        MonthValueAppend(a[1..], b, month);
      }
    }
  }

  /** Rows for months outside January to June, wherever they appear, do not change the series. */
  lemma SeriesIgnoresOtherMonths(rows: seq<MonthCount>, before: seq<MonthCount>, after: seq<MonthCount>)
    requires forall k :: 0 <= k < |before| ==> before[k].id < 1 || before[k].id > 6
    requires forall k :: 0 <= k < |after| ==> after[k].id < 1 || after[k].id > 6
    ensures RegistrationSeries(before + rows + after) == RegistrationSeries(rows)
  {
    var all := before + rows + after;
    assert all == before + (rows + after);
    forall month | 1 <= month <= 6
      ensures MonthValue(all, month) == MonthValue(rows, month)
    {
      MonthValueAppend(before, rows + after, month);
      MonthValueAppend(rows, after, month);
    }
    assert forall i :: 0 <= i < 6 ==> RegistrationSeries(all)[i] == RegistrationSeries(rows)[i];
  }

  /** When a month appears twice, the chart shows the first row's count. */
  lemma FirstRowOfMonthWins(rows: seq<MonthCount>, month: int, c1: int, c2: int)
    requires 1 <= month <= 6
    requires forall k :: 0 <= k < |rows| ==> rows[k].id != month
    ensures RegistrationSeries(rows + [MonthCount(month, c1), MonthCount(month, c2)])[month - 1] == c1
  {
    MonthValueAppend(rows, [MonthCount(month, c1), MonthCount(month, c2)], month);
  }
}
