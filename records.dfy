/**
 * The data model shared by the upload, send, download and expiry code: the
 * share record kept in the document store, the file the upload middleware
 * hands to the upload handler, the notification mail, and the outcome of a
 * call into an outside service.
 */
module Records {

  datatype Option<T> = None | Some(value: T)

  /**
   * Outcome of one call into an outside service (document store, blob store,
   * mail relay): it completed, or it threw an error with this message.
   */
  datatype Outcome = Pass | Fail(message: string)

  /** JavaScript truthiness of a request-body field that is absent or a string. */
  predicate Truthy(v: Option<string>) {
    v.Some? && v.value != ""
  }

  /** Text a template literal produces for an environment variable: "undefined" when unset. */
  function EnvText(v: Option<string>): string {
    match v
    case Some(text) => text
    case None => "undefined"
  }

  /** `error.message || "Something went wrong"`: the text reported for a caught error. */
  function ErrorText(message: string): (s: string)
    ensures s != ""
    ensures message != "" ==> s == message
    ensures message == "" ==> s == "Something went wrong"
  {
    if message == "" then "Something went wrong" else message
  }

  /** Largest accepted upload, in bytes (100 MiB). */
  const MaxFileSize: nat := 100 * 1024 * 1024

  /** One shared file, keyed in the store by `uuid`. */
  datatype FileRecord = FileRecord(
    filename: string,        // the uploader's original file name
    uuid: string,            // the public token of the share link
    path: string,            // URL of the stored blob
    size: nat,               // size in bytes
    publicId: string,        // key of the blob in the blob store
    sender: Option<string>,  // set once, by the first successful send
    receiver: Option<string>,
    createdAt: int           // milliseconds since the epoch
  )

  /** What the upload middleware reports about a file it stored. */
  datatype UploadedFile = UploadedFile(
    originalName: string,
    path: string,
    size: nat,
    filename: string         // the blob's key in the blob store
  )

  /** The notification handed to the mail relay; the HTML body is built from the last four fields. */
  datatype Mail = Mail(
    from: string,
    to: string,
    subject: string,
    text: string,
    emailFrom: string,
    downloadLink: string,
    size: string,
    expires: string
  )

  /** A request made to an outside service, recorded whether or not it succeeded. */
  datatype Effect =
    | StoreBlob(publicId: string)
    | SaveRecord(rec: FileRecord)
    | DeliverMail(mail: Mail)
    | DestroyBlob(publicId: string)
    | RemoveRecord(rec: FileRecord)

  /** Every record sits under its own token and respects the upload size limit. */
  ghost predicate WellKeyed(records: map<string, FileRecord>) {
    forall t :: t in records ==> records[t].uuid == t && records[t].size <= MaxFileSize
  }

  /** A record whose sender is set is never changed again while it stays in the store. */
  ghost predicate SenderKept(before: map<string, FileRecord>, after: map<string, FileRecord>) {
    forall t :: t in before && t in after && Truthy(before[t].sender) ==> after[t] == before[t]
  }
}
