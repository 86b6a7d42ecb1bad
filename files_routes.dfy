/**
 * The `/api/files` routes: the upload handler, which records a file the
 * upload middleware has stored, and the send handler, which mails a share
 * link at most once per record. The document store and the blob store are
 * the fields of `FileStore`; the writes and mail deliveries requested of
 * outside services are appended to `effects`, in order (lookups are not
 * recorded: their outcomes are parameters).
 */
module FilesRoutes {
  import opened Records
  import opened Decimal

  const RequiredFileError := "All fields are required."
  const UploadFailedError := "File upload failed"
  const RequiredFieldsError := "All fields are required except expiry."
  const NotFoundError := "File not found."
  const AlreadySentError := "Email already sent."
  const MailSubject := "inShare - File Shared With You"
  const ExpiryNotice := "24 hours"

  datatype UploadResult =
    | UploadOk(file: string)                // 200 {file: <share link>}
    | UploadError(status: nat, error: string)
    | TooLarge                              // refused by the upload middleware's size limit

  datatype SendResult =
    | SendOk                                // 200 {success: true}
    | SendError(status: nat, error: string)

  /** The share link of a token: `${APP_BASE_URL}/files/${uuid}`. */
  function FileUrl(appBaseUrl: Option<string>, uuid: string): (url: string)
    ensures |url| == |EnvText(appBaseUrl)| + 7 + |uuid|
    ensures url[..|EnvText(appBaseUrl)|] == EnvText(appBaseUrl)
    ensures url[|EnvText(appBaseUrl)|..|EnvText(appBaseUrl)| + 7] == "/files/"
    ensures url[|EnvText(appBaseUrl)| + 7..] == uuid
  {
    EnvText(appBaseUrl) + "/files/" + uuid
  }

  /** Distinct tokens never share a link. */
  lemma FileUrlInjective(appBaseUrl: Option<string>, t1: string, t2: string)
    requires FileUrl(appBaseUrl, t1) == FileUrl(appBaseUrl, t2)
    ensures t1 == t2
  {
    var n := |EnvText(appBaseUrl)| + 7;
    assert t1 == FileUrl(appBaseUrl, t1)[n..];
  }

  /**
   * The size shown in the mail, `parseInt(size / 1000) + " KB"`: the whole
   * number of kilobytes (rounded down) in decimal, then " KB".
   */
  function SizeLabel(size: nat): (shown: string)
    requires size <= MaxFileSize
    ensures |shown| > 3 && shown[|shown| - 3..] == " KB"
    ensures AllDigits(shown[..|shown| - 3])
    ensures shown[..|shown| - 3] == NatToDecimal(ParseDecimal(shown[..|shown| - 3]))
    ensures ParseDecimal(shown[..|shown| - 3]) * 1000 <= size < (ParseDecimal(shown[..|shown| - 3]) + 1) * 1000
  {
    var kb := size / 1000;
    var digits := NatToDecimal(kb);
    DecimalRoundTrip(kb);
    assert (digits + " KB")[..|digits|] == digits;
    digits + " KB"
  }

  /** The record the upload handler saves for a stored file. */
  function NewRecord(file: UploadedFile, token: string, now: int): (rec: FileRecord)
    ensures rec.sender.None? && rec.receiver.None?
  {
    FileRecord(file.originalName, token, file.path, file.size, file.filename, None, None, now)
  }

  /** The notification the send handler hands to the mail relay for `file`. */
  function NotificationFor(file: FileRecord, emailFrom: string, emailTo: string, appBaseUrl: Option<string>): (mail: Mail)
    requires file.size <= MaxFileSize
    ensures mail.from == emailFrom && mail.to == emailTo && mail.emailFrom == emailFrom
    ensures mail.downloadLink == FileUrl(appBaseUrl, file.uuid)
    ensures mail.size == SizeLabel(file.size) && mail.expires == ExpiryNotice
  {
    Mail(emailFrom, emailTo, MailSubject, emailFrom + " shared a file with you.",
         emailFrom, FileUrl(appBaseUrl, file.uuid), SizeLabel(file.size), ExpiryNotice)
  }

  class FileStore {
    var records: map<string, FileRecord>   // the document store, by token
    var blobs: set<string>                  // keys of the blobs in the blob store
    var effects: seq<Effect>                // writes and mail deliveries requested of outside services, in order

    ghost predicate Valid()
      reads this
    {
      WellKeyed(records)
    }

    constructor ()
      ensures Valid()
      ensures records == map[] && blobs == {} && effects == []
    {
      records := map[];
      blobs := {};
      effects := [];
    }

    /**
     * `POST /api/files`. `file` is what the upload middleware produced (None
     * when the request carried no file); the middleware stores the blob and
     * refuses anything over `MaxFileSize` before the handler runs. `token` is
     * the fresh uuid, `now` the clock, `save` the outcome of saving the record.
     */
    method Upload(file: Option<UploadedFile>, token: string, now: int, save: Outcome, appBaseUrl: Option<string>)
      returns (r: UploadResult)
      requires Valid()
      requires token !in records
      modifies this
      ensures Valid()
      ensures SenderKept(old(records), records)
      ensures file.None? ==> r == UploadError(200, RequiredFileError) && unchanged(this)
      ensures file.Some? && file.value.size > MaxFileSize ==> r == TooLarge && unchanged(this)
      ensures file.Some? && file.value.size <= MaxFileSize ==>
        var rec := NewRecord(file.value, token, now);
        && blobs == old(blobs) + {file.value.filename}
        && effects == old(effects) + [StoreBlob(file.value.filename), SaveRecord(rec)]
        && (save.Pass? ==> records == old(records)[token := rec] && r == UploadOk(FileUrl(appBaseUrl, token)))
        && (save.Fail? ==> records == old(records) && r == UploadError(500, UploadFailedError))
    {
      if file.None? {
        return UploadError(200, RequiredFileError);
      }
      var f := file.value;
      if f.size > MaxFileSize {
        return TooLarge;
      }
      blobs := blobs + {f.filename};
      effects := effects + [StoreBlob(f.filename)];
      var rec := NewRecord(f, token, now);
      effects := effects + [SaveRecord(rec)];
      if save.Fail? {
        return UploadError(500, UploadFailedError);
      }
      records := records[token := rec];
      r := UploadOk(FileUrl(appBaseUrl, rec.uuid));
    }

    /**
     * `POST /api/files/send`. The three body fields may be absent; `lookup`,
     * `save` and `delivery` are the outcomes of finding the record, saving
     * it, and handing the mail to the relay.
     */
    method Send(uuid: Option<string>, emailTo: Option<string>, emailFrom: Option<string>,
                appBaseUrl: Option<string>, lookup: Outcome, save: Outcome, delivery: Outcome)
      returns (r: SendResult)
      requires Valid()
      modifies this
      ensures Valid()
      ensures SenderKept(old(records), records)
      ensures records.Keys == old(records).Keys && blobs == old(blobs)
      ensures !(Truthy(uuid) && Truthy(emailTo) && Truthy(emailFrom)) ==>
        r == SendError(422, RequiredFieldsError) && unchanged(this)
      ensures Truthy(uuid) && Truthy(emailTo) && Truthy(emailFrom) ==>
        var t := uuid.value;
        if lookup.Fail? then
          r == SendError(500, ErrorText(lookup.message)) && unchanged(this)
        else if t !in old(records) then
          r == SendError(404, NotFoundError) && unchanged(this)
        else if Truthy(old(records)[t].sender) then
          r == SendError(422, AlreadySentError) && unchanged(this)
        else
          var rec := old(records)[t].(sender := emailFrom, receiver := emailTo);
          if save.Fail? then
            && r == SendError(500, ErrorText(save.message))
            && records == old(records)
            && effects == old(effects) + [SaveRecord(rec)]
          else
            && records == old(records)[t := rec]
            && effects == old(effects) + [SaveRecord(rec), DeliverMail(NotificationFor(rec, emailFrom.value, emailTo.value, appBaseUrl))]
            && r == (if delivery.Pass? then SendOk else SendError(500, ErrorText(delivery.message)))
    {
      if !Truthy(uuid) || !Truthy(emailTo) || !Truthy(emailFrom) {
        return SendError(422, RequiredFieldsError);
      }
      if lookup.Fail? {
        return SendError(500, ErrorText(lookup.message));
      }
      var t := uuid.value;
      if t !in records {
        return SendError(404, NotFoundError);
      }
      var file := records[t];
      if Truthy(file.sender) {
        return SendError(422, AlreadySentError);
      }
      file := file.(sender := emailFrom, receiver := emailTo);
      effects := effects + [SaveRecord(file)];
      if save.Fail? {
        return SendError(500, ErrorText(save.message));
      }
      records := records[t := file];
      var mail := NotificationFor(file, emailFrom.value, emailTo.value, appBaseUrl);
      effects := effects + [DeliverMail(mail)];
      if delivery.Fail? {
        return SendError(500, ErrorText(delivery.message));
      }
      r := SendOk;
    }
  }

  /**
   * Two valid sends in a row on one record: once the first has saved the
   * sender, the second is refused as already sent, whatever its addresses
   * and whether or not the first mail was delivered.
   */
  method SendTwice(store: FileStore, uuid: string, to1: string, from1: string, to2: string, from2: string,
                   appBaseUrl: Option<string>, delivery1: Outcome, save2: Outcome, delivery2: Outcome)
    returns (first: SendResult, second: SendResult)
    requires store.Valid()
    requires uuid != "" && to1 != "" && from1 != "" && to2 != "" && from2 != ""
    requires uuid in store.records && !Truthy(store.records[uuid].sender)
    modifies store
    ensures store.Valid()
    ensures first == (if delivery1.Pass? then SendOk else SendError(500, ErrorText(delivery1.message)))
    ensures second == SendError(422, AlreadySentError)
    ensures uuid in store.records && store.records[uuid].sender == Some(from1) && store.records[uuid].receiver == Some(to1)
  {
    first := store.Send(Some(uuid), Some(to1), Some(from1), appBaseUrl, Pass, Pass, delivery1);
    second := store.Send(Some(uuid), Some(to2), Some(from2), appBaseUrl, Pass, save2, delivery2);
  }
}
