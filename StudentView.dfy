/**
  The student view: a list of job applications, newest first, and the slot holding the
  application being edited. Adding fills missing or empty fields with fixed defaults;
  deleting and saving an edit match records by id.

  `Date.now()` and `new Date()` are not modelled: each adding method takes the new id
  and today's date as parameters.
 */
module StudentView {
  import opened Js
  import opened JsString
  import opened Types
  import opened RecordStore
  import CsvExport

  function JobId(j: JobApplication): string { j.id }

  /** The record `addJob` builds from its argument. */
  function NewJob(data: JobDraft, id: string, today: string): (j: JobApplication)
    ensures j.id == id && j.dateApplied == today
    ensures j.company != "" && j.role != "" && j.status != ""
    ensures Truthy(data.company) ==> j.company == data.company.s
    ensures !Truthy(data.company) ==> j.company == "Unknown Company"
    ensures Truthy(data.role) ==> j.role == data.role.s
    ensures !Truthy(data.role) ==> j.role == "Unknown Role"
    ensures Truthy(data.status) ==> j.status == data.status.s
    ensures !Truthy(data.status) ==> j.status == "Applied"
    ensures Truthy(data.notes) ==> j.notes == data.notes.s
    ensures !Truthy(data.notes) ==> j.notes == ""
  {
    JobApplication(
      id := id,
      company := Or(data.company, "Unknown Company"),
      role := Or(data.role, "Unknown Role"),
      status := Or(data.status, "Applied"),
      dateApplied := today,
      notes := Or(data.notes, ""))
  }

  /** The argument `handleVoiceData` passes to `addJob` for a `connection` result: the
      contact becomes a networking lead. A missing name is interpolated as `undefined`. */
  function ConnectionAsJob(c: ConnectionDraft): (d: JobDraft)
    ensures Truthy(d.company) && Truthy(d.role) && Truthy(d.status) && d.notes.Text?
    ensures StartsWith(d.notes.s, "New Contact: ")
  {
    var notes := "New Contact: " + Interpolate(c.name) + " (" + Or(c.email, "No email") + "). " + Or(c.notes, "");
    assert notes[..13] == "New Contact: ";
    JobDraft(
      company := Text(Or(c.company, "Networking")),
      role := Text(Or(c.role, "Contact")),
      status := Text(Or(c.status, "Networking")),
      notes := Text(notes))
  }

  /** What a voice event asks this view to add: the job itself, or the contact turned
      into a lead. Nothing for any other kind, and nothing when the payload is missing
      (reading a property of `undefined` throws before `setJobs` is reached). */
  function VoiceJob(ev: VoiceEvent): (d: Option<JobDraft>)
    ensures d.Some? <==> (ev.JobParsed? && ev.job.Some?) || (ev.ConnectionParsed? && ev.connection.Some?)
    ensures ev.JobParsed? && ev.job.Some? ==> d == ev.job
    ensures ev.ConnectionParsed? && ev.connection.Some? ==> d == Some(ConnectionAsJob(ev.connection.value))
  {
    match ev
    case JobParsed(job) => job
    case ConnectionParsed(c) => if c.Some? then Some(ConnectionAsJob(c.value)) else None
    case OtherParsed(_) => None
  }

  /** A contact recorded by voice keeps its company, role and status when it gave them,
      and otherwise lands as a `Networking` lead at `Networking` with role `Contact`. */
  lemma {:induction false} VoiceContactBecomesLead(c: ConnectionDraft, id: string, today: string)
    ensures var j := NewJob(ConnectionAsJob(c), id, today);
      && j.company == Or(c.company, "Networking")
      && j.role == Or(c.role, "Contact")
      && j.status == Or(c.status, "Networking")
      && j.notes == "New Contact: " + Interpolate(c.name) + " (" + Or(c.email, "No email") + "). " + Or(c.notes, "")
  {
    var d := ConnectionAsJob(c);
    assert Truthy(d.company) && Truthy(d.role) && Truthy(d.status);
    assert "New Contact: " + Interpolate(c.name) + " (" + Or(c.email, "No email") + "). " + Or(c.notes, "") != "" by {
      assert StartsWith(d.notes.s, "New Contact: ");
    }
  }

  // ---------------------------------------------------------------------------
  // Status badge colour.

  /** The five badge styles of `getStatusColor`. */
  datatype Badge = Blue | Yellow | Green | Red | Slate

  /** `getStatusColor`: the first keyword group the lower-cased status contains. */
  function StatusColor(status: string): (b: Badge)
    ensures b == Blue <==> Includes(ToLower(status), "applied") || Includes(ToLower(status), "sent")
    ensures b == Yellow <==> b != Blue && (Includes(ToLower(status), "interview") || Includes(ToLower(status), "call"))
    ensures b == Green <==> (b != Blue && b != Yellow &&
      (Includes(ToLower(status), "offer") || Includes(ToLower(status), "accepted")))
    ensures b == Red <==> (b != Blue && b != Yellow && b != Green &&
      (Includes(ToLower(status), "reject") || Includes(ToLower(status), "deny")))
    ensures b == Slate <==> !Keyworded(ToLower(status))
  {
    BadgeOf(ToLower(status))
  }

  /** The lower-cased status contains one of the eight keywords. */
  predicate Keyworded(s: string) {
    || Includes(s, "applied") || Includes(s, "sent") || Includes(s, "interview") || Includes(s, "call")
    || Includes(s, "offer") || Includes(s, "accepted") || Includes(s, "reject") || Includes(s, "deny")
  }

  /** The keyword groups, checked in order on an already lower-cased status: each badge
      is given by its own keywords, and only when no earlier group matched. */
  function BadgeOf(s: string): (b: Badge)
    ensures b == Blue <==> Includes(s, "applied") || Includes(s, "sent")
    ensures b == Yellow <==> b != Blue && (Includes(s, "interview") || Includes(s, "call"))
    ensures b == Green <==> b != Blue && b != Yellow && (Includes(s, "offer") || Includes(s, "accepted"))
    ensures b == Red <==> b != Blue && b != Yellow && b != Green && (Includes(s, "reject") || Includes(s, "deny"))
    ensures b == Slate <==> !Keyworded(s)
  {
    if Includes(s, "applied") || Includes(s, "sent") then Blue
    else if Includes(s, "interview") || Includes(s, "call") then Yellow
    else if Includes(s, "offer") || Includes(s, "accepted") then Green
    else if Includes(s, "reject") || Includes(s, "deny") then Red
    else Slate
  }

  /** The position of a badge in the priority order; the neutral badge comes last. */
  function Priority(b: Badge): nat {
    match b
    case Blue => 0
    case Yellow => 1
    case Green => 2
    case Red => 3
    case Slate => 4
  }

  /** Letter case does not matter. */
  lemma StatusColorIgnoresCase(status: string)
    ensures StatusColor(ToLower(status)) == StatusColor(status)
  {
    ToLowerIdempotent(status);
  }

  /** Adding text around a status can only move its badge earlier in the priority order:
      every keyword it contained is still there. */
  lemma StatusColorExtended(pre: string, status: string, post: string)
    ensures Priority(StatusColor(pre + status + post)) <= Priority(StatusColor(status))
  {
    var s := ToLower(status);
    ToLowerAppend(pre + status, post);
    ToLowerAppend(pre, status);
    var a, c := ToLower(pre), ToLower(post);
    assert ToLower(pre + status + post) == a + s + c;
    KeepsKeyword(a, s, c, "applied");
    KeepsKeyword(a, s, c, "sent");
    KeepsKeyword(a, s, c, "interview");
    KeepsKeyword(a, s, c, "call");
    KeepsKeyword(a, s, c, "offer");
    KeepsKeyword(a, s, c, "accepted");
    KeepsKeyword(a, s, c, "reject");
    KeepsKeyword(a, s, c, "deny");
  }

  lemma KeepsKeyword(pre: string, s: string, post: string, k: string)
    ensures Includes(s, k) ==> Includes(pre + s + post, k)
  {
    if Includes(s, k) {
      IncludesExtended(pre, s, post, k);
    }
  }

  // ---------------------------------------------------------------------------
  // Export.

  const JobHeaders: seq<string> := ["id", "company", "role", "status", "dateApplied", "notes"]

  /** A job as the export sees it: its keys in the order every job object is built. */
  function JobRow(j: JobApplication): (row: CsvExport.Row)
    ensures CsvExport.Keys(row) == JobHeaders
  {
    [("id", j.id), ("company", j.company), ("role", j.role), ("status", j.status),
     ("dateApplied", j.dateApplied), ("notes", j.notes)]
  }

  function JobRows(jobs: seq<JobApplication>): (rows: seq<CsvExport.Row>)
    ensures |rows| == |jobs|
    ensures forall i :: 0 <= i < |jobs| ==> rows[i] == JobRow(jobs[i])
  {
    seq(|jobs|, i requires 0 <= i < |jobs| => JobRow(jobs[i]))
  }

  /** The values of a job, in header order. */
  function JobCells(j: JobApplication): seq<string> {
    [j.id, j.company, j.role, j.status, j.dateApplied, j.notes]
  }

  lemma JobCellsUnderHeaders(j: JobApplication)
    ensures CsvExport.Cells(JobHeaders, JobRow(j)) == JobCells(j)
  {
    var row := JobRow(j);
    var cells := CsvExport.Cells(JobHeaders, row);
    JobLookups(j);
    assert forall k :: 0 <= k < 6 ==> cells[k] == JobCells(j)[k];
  }

  /** Each job key is found at its own position: no key repeats an earlier one. */
  lemma JobLookups(j: JobApplication)
    ensures forall k :: 0 <= k < 6 ==> CsvExport.CellText(JobRow(j), JobHeaders[k]) == JobCells(j)[k]
  {
    var row := JobRow(j);
    forall k | 0 <= k < 6 ensures CsvExport.CellText(row, row[k].0) == row[k].1 {
      assert forall i :: 0 <= i < k ==> |row[i].0| != |row[k].0| || row[i].0[0] != row[k].0[0];
      CsvExport.LookupAt(row, k);
    }
  }

  /** No job key holds a comma or a line feed, so the header splits back into the keys. */
  lemma JobKeysPlain(j: JobApplication)
    ensures CsvExport.Keys(JobRow(j)) != []
    ensures forall i :: 0 <= i < |JobRow(j)| ==> ',' !in JobRow(j)[i].0 && '\n' !in JobRow(j)[i].0
  {
    var row := JobRow(j);
    assert row[0].0 == "id" && row[1].0 == "company" && row[2].0 == "role";
    assert row[3].0 == "status" && row[4].0 == "dateApplied" && row[5].0 == "notes";
  }

  /** The "Excel Export" of the job list: no text for an empty list; otherwise the header
      `id,company,role,status,dateApplied,notes` and every job's values, which reading
      the text back recovers in list order. */
  lemma StudentExport(jobs: seq<JobApplication>)
    ensures CsvExport.ExportToCsv(JobRows(jobs)).None? <==> jobs == []
    ensures jobs != [] ==>
      CsvExport.ParseCsv(CsvExport.ExportToCsv(JobRows(jobs)).value) == Some((JobHeaders, JobTable(jobs)))
  {
    if jobs != [] {
      var rows := JobRows(jobs);
      JobKeysPlain(jobs[0]);
      CsvExport.ExportRoundTrip(rows);
      TableOfJobs(jobs);
    }
  }

  /** With no line feed in any field, the export is one header line plus one line per job. */
  lemma StudentExportLines(jobs: seq<JobApplication>)
    requires jobs != []
    requires forall i, k :: 0 <= i < |jobs| && 0 <= k < 6 ==> '\n' !in JobCells(jobs[i])[k]
    ensures CsvExport.ExportToCsv(JobRows(jobs)).Some?
    ensures |CsvExport.SplitOn('\n', CsvExport.ExportToCsv(JobRows(jobs)).value)| == |jobs| + 1
  {
    var rows: seq<seq<(string, string)>> := JobRows(jobs);
    forall i, k | 0 <= i < |rows| && 0 <= k < |rows[i]| ensures '\n' !in rows[i][k].1 {
      assert rows[i][k].1 == JobCells(jobs[i])[k];
    }
    JobKeysPlain(jobs[0]);
    CsvExport.ExportLines(rows);
  }

  /** The values of each job, in list order. */
  function JobTable(jobs: seq<JobApplication>): (t: seq<seq<string>>)
    ensures |t| == |jobs|
    ensures forall i :: 0 <= i < |jobs| ==> t[i] == JobCells(jobs[i])
  {
    seq(|jobs|, i requires 0 <= i < |jobs| => JobCells(jobs[i]))
  }

  lemma TableOfJobs(jobs: seq<JobApplication>)
    ensures CsvExport.Table(JobHeaders, JobRows(jobs)) == JobTable(jobs)
  {
    var table := CsvExport.Table(JobHeaders, JobRows(jobs));
    forall i | 0 <= i < |jobs| ensures table[i] == JobCells(jobs[i]) {
      JobCellsUnderHeaders(jobs[i]);
    }
  }

  // ---------------------------------------------------------------------------
  // The view's state.

  const SeedJob := JobApplication("1", "Tech Corp", "Junior Dev", "Applied", "2023-10-24", "Referral from Jane")

  class StudentView {
    var jobs: seq<JobApplication>
    var editingJob: Option<JobApplication>

    constructor ()
      ensures jobs == [SeedJob] && editingJob == None
    {
      jobs := [SeedJob];
      editingJob := None;
    }

    /** `addJob`: the new record goes in front of the unchanged list. */
    method AddJob(data: JobDraft, id: string, today: string)
      modifies this`jobs
      ensures jobs == [NewJob(data, id, today)] + old(jobs)
    {
      jobs := [NewJob(data, id, today)] + jobs;
    }

    /** `deleteJob`: every record with that id goes, the others keep their order. */
    method DeleteJob(id: string)
      modifies this`jobs
      ensures jobs == RemoveId(old(jobs), JobId, id)
    {
      jobs := RemoveId(jobs, JobId, id);
    }

    /** `updateJob`: every record with the edited record's id is replaced by it, and the
        edit slot is emptied. */
    method UpdateJob(updated: JobApplication)
      modifies this
      ensures jobs == ReplaceId(old(jobs), JobId, updated)
      ensures editingJob == None
    {
      jobs := ReplaceId(jobs, JobId, updated);
      editingJob := None;
    }

    /** The Edit button of a row. */
    method EditJob(job: JobApplication)
      modifies this`editingJob
      ensures editingJob == Some(job) && jobs == old(jobs)
    {
      editingJob := Some(job);
    }

    /** Cancel in the edit dialog. */
    method CancelEdit()
      modifies this`editingJob
      ensures editingJob == None && jobs == old(jobs)
    {
      editingJob := None;
    }

    /** The "Add Manual Entry" button. */
    method AddManualEntry(id: string, today: string)
      modifies this`jobs
      ensures jobs == [JobApplication(id, "New Company", "Role", "Prospecting", today, "")] + old(jobs)
    {
      AddJob(JobDraft(Text("New Company"), Text("Role"), Text("Prospecting"), Absent), id, today);
    }

    /** `handleVoiceData` */
    method HandleVoiceData(ev: VoiceEvent, id: string, today: string)
      modifies this`jobs
      ensures VoiceJob(ev).Some? ==> jobs == [NewJob(VoiceJob(ev).value, id, today)] + old(jobs)
      ensures VoiceJob(ev).None? ==> jobs == old(jobs)
    {
      match VoiceJob(ev)
      case Some(d) => AddJob(d, id, today);
      case None =>
    }
  }

  /** The default status of a new job shows the blue badge. */
  lemma DefaultStatusIsBlue()
    ensures StatusColor("Applied") == Blue
  {
    assert ToLower("Applied")[..7] == "applied";
  }
}
