/**
  The app's records (`types.ts`) and the shape of a voice-parse result as the Gemini
  service produces it and the voice assistant consumes it.
 */
module Types {
  import opened Js

  /** A tracked job application. */
  datatype JobApplication = JobApplication(
    id: string, company: string, role: string, status: string, dateApplied: string, notes: string)

  /** A professional contact; `status` is optional. */
  datatype Connection = Connection(
    id: string, name: string, role: string, company: string, email: string, notes: string,
    status: Option<string>, dateAdded: string)

  /** A member of the project team; `bio` is optional. */
  datatype TeamMember = TeamMember(id: string, name: string, role: string, bio: Option<string>)

  /** The fields `addJob` reads from its `Partial<JobApplication>` argument; the voice
      schema's `jobData` object has exactly these. */
  datatype JobDraft = JobDraft(company: Field, role: Field, status: Field, notes: Field)

  /** The fields `addConnection` reads from its `Partial<Connection>` argument; the voice
      schema's `connectionData` object has exactly these. */
  datatype ConnectionDraft = ConnectionDraft(
    name: Field, role: Field, company: Field, email: Field, status: Field, notes: Field)

  /** The `type` property of a parse result. The schema allows `job`, `connection` and
      `unknown`; any other value (which the parser does not rule out) is `OtherKind`. */
  datatype Kind = JobKind | ConnectionKind | UnknownKind | OtherKind

  /** `{type, jobData?, connectionData?, message}` */
  datatype VoiceResult = VoiceResult(
    kind: Kind, jobData: Option<JobDraft>, connectionData: Option<ConnectionDraft>, message: Field)

  /** The arguments of one `onDataParsed(type, data)` call. `data` is `jobData` for a job
      result and `connectionData` for every other kind; it may be missing. */
  datatype VoiceEvent =
    | JobParsed(job: Option<JobDraft>)
    | ConnectionParsed(connection: Option<ConnectionDraft>)
    | OtherParsed(data: Option<ConnectionDraft>)
}
