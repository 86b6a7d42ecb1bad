/**
 * The share lifecycle end to end, on a fresh store: upload, resolve, send
 * twice, sweep, resolve again; the sweep's cutoff with a stale and a recent
 * record side by side; and where the upload size limit falls.
 */
module Lifecycle {
  import opened Records
  import opened FilesRoutes
  import opened DownloadRoutes
  import opened ExpirySweep

  const HourMs: int := 60 * 60 * 1000

  /**
   * A 5-byte "a.txt" is uploaded; its token resolves through
   * `/files/download/<token>` to the stored blob; the first send succeeds
   * and the second is refused as already sent.
   */
  method UploadResolveSendTwice(token: string, now: int, appBaseUrl: Option<string>)
    returns (link: UploadResult, page: Page, sent: SendResult, again: SendResult)
    requires token != ""
    ensures link == UploadOk(EnvText(appBaseUrl) + "/files/" + token)
    ensures page == Redirect("https://res.example/a.txt")
    ensures sent == SendOk
    ensures again == SendError(422, "Email already sent.")
  {
    var store := new FileStore();
    var file := UploadedFile("a.txt", "https://res.example/a.txt", 5, "file-sharing-app/a.txt");
    link := store.Upload(Some(file), token, now, Pass, appBaseUrl);
    assert store.records == map[token := NewRecord(file, token, now)];
    page := Resolve(store.records, token, Pass);
    sent := store.Send(Some(token), Some("b@x.com"), Some("a@x.com"), appBaseUrl, Pass, Pass, Pass);
    again := store.Send(Some(token), Some("b@x.com"), Some("a@x.com"), appBaseUrl, Pass, Pass, Pass);
  }

  /** With `APP_BASE_URL` unset, the link starts with the text "undefined". */
  method UnsetBaseUrl(token: string, now: int) returns (link: UploadResult)
    ensures link == UploadOk("undefined/files/" + token)
  {
    var store := new FileStore();
    link := store.Upload(Some(UploadedFile("a.txt", "https://res.example/a.txt", 5, "a")), token, now, Pass, None);
  }

  /**
   * A link resolves until a sweep runs 25 hours after the upload; the sweep
   * removes the record and the link then reads as expired.
   */
  method ExpiresAfterADay(token: string, now: int) returns (before: Page, log: seq<LogLine>, after: Page)
    ensures before == Redirect("https://res.example/a.txt")
    ensures log == [Deleted("a.txt"), JobDone]
    ensures after == Render("Link has been expired.")
  {
    var store := new FileStore();
    var file := UploadedFile("a.txt", "https://res.example/a.txt", 5, "file-sharing-app/a.txt");
    var _ := store.Upload(Some(file), token, now, Pass, None);
    var rec := NewRecord(file, token, now);
    assert store.records == map[token := rec];
    before := Resolve(store.records, token, Pass);
    assert [rec][0] == rec;
    assert Uuids([rec]) == {token};
    log := DeleteData(store, now + 25 * HourMs, Pass, [rec], [Pass], [Pass]);
    assert store.records == map[];
    after := Resolve(store.records, token, Pass);
  }

  /**
   * With one record created 25 hours ago and one created an hour ago, the
   * sweep deletes exactly the first.
   */
  method StaleAndRecent(now: int) returns (stale: Page, recent: Page)
    ensures stale == Render("Link has been expired.")
    ensures recent == Redirect("https://res.example/new.txt")
  {
    var store := new FileStore();
    var oldFile := UploadedFile("old.txt", "https://res.example/old.txt", 10, "old");
    var newFile := UploadedFile("new.txt", "https://res.example/new.txt", 10, "new");
    var _ := store.Upload(Some(oldFile), "t-old", now - 25 * HourMs, Pass, None);
    var _ := store.Upload(Some(newFile), "t-new", now - HourMs, Pass, None);
    var rec := store.records["t-old"];
    assert [rec][0] == rec;
    assert Uuids([rec]) == {"t-old"};
    assert Expired(rec, Cutoff(now)) && !Expired(store.records["t-new"], Cutoff(now));
    var _ := DeleteData(store, now, Pass, [rec], [Pass], [Pass]);
    stale := Resolve(store.records, "t-old", Pass);
    recent := Resolve(store.records, "t-new", Pass);
  }

  /**
   * The limit is 100 MiB: a file of 101,000,000 bytes ("101 MB" in decimal
   * units) is accepted, one of 101 MiB is refused and nothing is stored.
   */
  method SizeLimit(now: int) returns (decimalMb: UploadResult, binaryMb: UploadResult, blobs: set<string>)
    ensures decimalMb.UploadOk?
    ensures binaryMb == TooLarge
    ensures blobs == {"a"}
  {
    var store := new FileStore();
    decimalMb := store.Upload(Some(UploadedFile("a.bin", "https://res.example/a.bin", 101_000_000, "a")), "t1", now, Pass, None);
    binaryMb := store.Upload(Some(UploadedFile("b.bin", "https://res.example/b.bin", 101 * 1024 * 1024, "b")), "t2", now, Pass, None);
    blobs := store.blobs;
  }
}
