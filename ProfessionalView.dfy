/**
  The professional view: a list of contacts, newest first, and the slot holding the
  contact being edited. It has the same shape as the student view, over `Connection`
  records and with its own defaults.

  `Date.now()` and `new Date()` are not modelled: each adding method takes the new id
  and today's date as parameters.
 */
module ProfessionalView {
  import opened Js
  import opened JsString
  import opened Types
  import opened RecordStore

  function ConnectionId(c: Connection): string { c.id }

  /** The record `addConnection` builds from its argument. Its status is always set. */
  function NewConnection(data: ConnectionDraft, id: string, today: string): (c: Connection)
    ensures c.id == id && c.dateAdded == today
    ensures c.name != "" && c.role != "" && c.company != "" && c.status.Some? && c.status.value != ""
    ensures Truthy(data.name) ==> c.name == data.name.s
    ensures !Truthy(data.name) ==> c.name == "New Contact"
    ensures Truthy(data.role) ==> c.role == data.role.s
    ensures !Truthy(data.role) ==> c.role == "Professional"
    ensures Truthy(data.company) ==> c.company == data.company.s
    ensures !Truthy(data.company) ==> c.company == "Freelance"
    ensures Truthy(data.email) ==> c.email == data.email.s
    ensures !Truthy(data.email) ==> c.email == ""
    ensures Truthy(data.status) ==> c.status == Some(data.status.s)
    ensures !Truthy(data.status) ==> c.status == Some("Connected")
    ensures Truthy(data.notes) ==> c.notes == data.notes.s
    ensures !Truthy(data.notes) ==> c.notes == ""
  {
    Connection(
      id := id,
      name := Or(data.name, "New Contact"),
      role := Or(data.role, "Professional"),
      company := Or(data.company, "Freelance"),
      email := Or(data.email, ""),
      notes := Or(data.notes, ""),
      status := Some(Or(data.status, "Connected")),
      dateAdded := today)
  }

  /** The argument `handleVoiceData` passes to `addConnection` for a `job` result: the
      hiring team of that job, with the job's status repeated in the notes. */
  function JobAsConnection(d: JobDraft): (c: ConnectionDraft)
    ensures c.name == Text("Hiring Team") && c.email == Absent
    ensures Truthy(c.role) && Truthy(c.company) && Truthy(c.status) && c.notes.Text?
    ensures StartsWith(c.notes.s, "Job Interest: " + c.status.s + ". ")
  {
    var status := Or(d.status, "Applied");
    var lead := "Job Interest: " + status + ". ";
    var notes := lead + Or(d.notes, "");
    assert notes[..|lead|] == lead;
    ConnectionDraft(
      name := Text("Hiring Team"),
      role := Text(Or(d.role, "Recruiter")),
      company := Text(Or(d.company, "Unknown Company")),
      email := Absent,
      status := Text(status),
      notes := Text(notes))
  }

  /** What a voice event asks this view to add: the contact itself, or the job turned
      into its hiring team. Nothing for any other kind, and nothing when the payload is
      missing (reading a property of `undefined` throws before `setConnections`). */
  function VoiceConnection(ev: VoiceEvent): (c: Option<ConnectionDraft>)
    ensures c.Some? <==> (ev.JobParsed? && ev.job.Some?) || (ev.ConnectionParsed? && ev.connection.Some?)
    ensures ev.ConnectionParsed? && ev.connection.Some? ==> c == ev.connection
    ensures ev.JobParsed? && ev.job.Some? ==> c == Some(JobAsConnection(ev.job.value))
  {
    match ev
    case ConnectionParsed(c) => c
    case JobParsed(d) => if d.Some? then Some(JobAsConnection(d.value)) else None
    case OtherParsed(_) => None
  }

  /** A job recorded by voice becomes a contact named `Hiring Team` without an email,
      whose notes begin with the very status the record carries. */
  lemma {:induction false} VoiceJobBecomesHiringTeam(d: JobDraft, id: string, today: string)
    ensures var c := NewConnection(JobAsConnection(d), id, today);
      && c.name == "Hiring Team" && c.email == ""
      && c.role == Or(d.role, "Recruiter")
      && c.company == Or(d.company, "Unknown Company")
      && c.status == Some(Or(d.status, "Applied"))
      && c.notes == "Job Interest: " + Or(d.status, "Applied") + ". " + Or(d.notes, "")
  {
    var j := JobAsConnection(d);
    assert Truthy(j.name) && Truthy(j.role) && Truthy(j.company) && Truthy(j.status);
    assert Truthy(j.notes) by {
      assert StartsWith(j.notes.s, "Job Interest: " + j.status.s + ". ");
    }
  }

  /** The "Add New" button: `addConnection({})`. */
  function BlankContact(id: string, today: string): (c: Connection)
    ensures c == NewConnection(ConnectionDraft(Absent, Absent, Absent, Absent, Absent, Absent), id, today)
  {
    Connection(id, "New Contact", "Professional", "Freelance", "", "", Some("Connected"), today)
  }

  const SeedConnection := Connection(
    "1", "Sarah Jenkins", "Product Manager", "Salesforce", "sarah.j@example.com", "Met at TechSummit",
    Some("Connected"), "2023-10-20")

  class ProfessionalView {
    var connections: seq<Connection>
    var editingConnection: Option<Connection>

    constructor ()
      ensures connections == [SeedConnection] && editingConnection == None
    {
      connections := [SeedConnection];
      editingConnection := None;
    }

    /** `addConnection`: the new record goes in front of the unchanged list. */
    method AddConnection(data: ConnectionDraft, id: string, today: string)
      modifies this`connections
      ensures connections == [NewConnection(data, id, today)] + old(connections)
    {
      connections := [NewConnection(data, id, today)] + connections;
    }

    /** The "Add New" button: a record made only of defaults. */
    method AddNew(id: string, today: string)
      modifies this`connections
      ensures connections == [BlankContact(id, today)] + old(connections)
    {
      AddConnection(ConnectionDraft(Absent, Absent, Absent, Absent, Absent, Absent), id, today);
    }

    /** `deleteConnection`: every record with that id goes, the others keep their order. */
    method DeleteConnection(id: string)
      modifies this`connections
      ensures connections == RemoveId(old(connections), ConnectionId, id)
    {
      connections := RemoveId(connections, ConnectionId, id);
    }

    /** `updateConnection`: every record with the edited record's id is replaced by it,
        and the edit slot is emptied. */
    method UpdateConnection(updated: Connection)
      modifies this
      ensures connections == ReplaceId(old(connections), ConnectionId, updated)
      ensures editingConnection == None
    {
      connections := ReplaceId(connections, ConnectionId, updated);
      editingConnection := None;
    }

    /** The Edit button of a contact card. */
    method EditConnection(c: Connection)
      modifies this`editingConnection
      ensures editingConnection == Some(c) && connections == old(connections)
    {
      editingConnection := Some(c);
    }

    /** Cancel in the edit dialog. */
    method CancelEdit()
      modifies this`editingConnection
      ensures editingConnection == None && connections == old(connections)
    {
      editingConnection := None;
    }

    /** `handleVoiceData` */
    method HandleVoiceData(ev: VoiceEvent, id: string, today: string)
      modifies this`connections
      ensures VoiceConnection(ev).Some? ==> connections == [NewConnection(VoiceConnection(ev).value, id, today)] + old(connections)
      ensures VoiceConnection(ev).None? ==> connections == old(connections)
    {
      match VoiceConnection(ev)
      case Some(c) => AddConnection(c, id, today);
      case None =>
    }
  }
}
