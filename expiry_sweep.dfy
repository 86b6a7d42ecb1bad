/**
 * The daily expiry job: query every record created before the retention
 * cutoff, then for each one in the query's order destroy its blob and remove
 * the record, catching each record's error on its own. `SweepAll` is the
 * meaning of that loop over a prefix of the snapshot; `DeleteData` is the
 * loop, proved equal to it, and the lemmas say what `SweepAll` does.
 */
module ExpirySweep {
  import opened Records
  import FilesRoutes
  import DownloadRoutes

  /** Retention window: 24 hours, in milliseconds. */
  const RetentionMs: int := 24 * 60 * 60 * 1000

  function Cutoff(now: int): int {
    now - RetentionMs
  }

  /** The query's condition, `createdAt < cutoff`. */
  predicate Expired(rec: FileRecord, cutoff: int) {
    rec.createdAt < cutoff
  }

  /**
   * One line of the job's console output, or, for `QueryFailed`, the
   * uncaught rejection of the job's promise when the query fails (the job
   * itself prints nothing then).
   */
  datatype LogLine =
    | Deleted(filename: string)        // "Successfully deleted <filename>"
    | DeleteFailed(error: string)      // "Error while deleting file: <error>", with the caught error's message
    | JobDone                          // "Job done!"
    | QueryFailed(error: string)       // the query rejected: no handler, no "Job done!"

  /** Where the sweep has got to: both stores and the requests made so far. */
  datatype SweepState = SweepState(
    records: map<string, FileRecord>,
    blobs: set<string>,
    effects: seq<Effect>)

  function Uuids(files: seq<FileRecord>): set<string> {
    set i | 0 <= i < |files| :: files[i].uuid
  }

  /**
   * `files` is what the query returns: each record created before `cutoff`,
   * as stored, exactly once, in some order.
   */
  ghost predicate IsSnapshot(files: seq<FileRecord>, records: map<string, FileRecord>, cutoff: int) {
    && (forall i :: 0 <= i < |files| ==> files[i].uuid in records && records[files[i].uuid] == files[i])
    && (forall i :: 0 <= i < |files| ==> Expired(files[i], cutoff))
    && (forall t :: t in records && Expired(records[t], cutoff) ==> t in Uuids(files))
    && (forall i, j :: 0 <= i < j < |files| ==> files[i].uuid != files[j].uuid)
  }

  /**
   * One iteration of the loop body: the blob is destroyed first; only when
   * that succeeds is the record removed; an error from either is caught and
   * the loop goes on.
   */
  function Step(s: SweepState, file: FileRecord, destroy: Outcome, remove: Outcome): SweepState {
    var tried := s.(effects := s.effects + [DestroyBlob(file.publicId)]);
    if destroy.Fail? then tried
    else
      var destroyed := tried.(blobs := tried.blobs - {file.publicId},
                              effects := tried.effects + [RemoveRecord(file)]);
      if remove.Fail? then destroyed
      else destroyed.(records := destroyed.records - {file.uuid})
  }

  /** The line one iteration prints: the first error caught, or the success message. */
  function StepLine(file: FileRecord, destroy: Outcome, remove: Outcome): (line: LogLine)
    ensures line.Deleted? <==> destroy.Pass? && remove.Pass?
    ensures line.Deleted? ==> line.filename == file.filename
    ensures destroy.Fail? ==> line == DeleteFailed(destroy.message)
    ensures destroy.Pass? && remove.Fail? ==> line == DeleteFailed(remove.message)
  {
    if destroy.Fail? then DeleteFailed(destroy.message)
    else if remove.Fail? then DeleteFailed(remove.message)
    else Deleted(file.filename)
  }

  /** The loop run over `files`, with the i-th record's outcomes `destroy[i]` and `remove[i]`. */
  function SweepAll(s: SweepState, files: seq<FileRecord>, destroy: seq<Outcome>, remove: seq<Outcome>): SweepState
    requires |destroy| == |files| && |remove| == |files|
  {
    if files == [] then s
    else
      var n := |files| - 1;
      Step(SweepAll(s, files[..n], destroy[..n], remove[..n]), files[n], destroy[n], remove[n])
  }

  /** What the loop prints: one line per snapshot record, in order, each decided by that record's own outcomes. */
  function Report(files: seq<FileRecord>, destroy: seq<Outcome>, remove: seq<Outcome>): (lines: seq<LogLine>)
    requires |destroy| == |files| && |remove| == |files|
    ensures |lines| == |files|
    ensures forall i :: 0 <= i < |files| ==> lines[i] == StepLine(files[i], destroy[i], remove[i])
    ensures forall i :: 0 <= i < |files| ==> (lines[i] == Deleted(files[i].filename) <==> destroy[i].Pass? && remove[i].Pass?)
  {
    if files == [] then []
    else
      var n := |files| - 1;
      Report(files[..n], destroy[..n], remove[..n]) + [StepLine(files[n], destroy[n], remove[n])]
  }

  /** Tokens of the records whose blob destroy and record removal both succeeded. */
  function RemovedKeys(files: seq<FileRecord>, destroy: seq<Outcome>, remove: seq<Outcome>): set<string>
    requires |destroy| == |files| && |remove| == |files|
  {
    set i | 0 <= i < |files| && destroy[i].Pass? && remove[i].Pass? :: files[i].uuid
  }

  /** Keys of the blobs whose destroy succeeded. */
  function DestroyedIds(files: seq<FileRecord>, destroy: seq<Outcome>): set<string>
    requires |destroy| == |files|
  {
    set i | 0 <= i < |files| && destroy[i].Pass? :: files[i].publicId
  }

  /** The `try` block for one record: destroy its blob, then remove it. */
  method SweepRecord(store: FilesRoutes.FileStore, file: FileRecord, destroy: Outcome, remove: Outcome)
    returns (line: LogLine)
    modifies store
    ensures SweepState(store.records, store.blobs, store.effects)
            == Step(SweepState(old(store.records), old(store.blobs), old(store.effects)), file, destroy, remove)
    ensures line == StepLine(file, destroy, remove)
  {
    store.effects := store.effects + [DestroyBlob(file.publicId)];
    if destroy.Fail? {
      return DeleteFailed(destroy.message);
    }
    store.blobs := store.blobs - {file.publicId};
    store.effects := store.effects + [RemoveRecord(file)];
    if remove.Fail? {
      return DeleteFailed(remove.message);
    }
    store.records := store.records - {file.uuid};
    line := Deleted(file.filename);
  }

  /**
   * `script.js`'s `deleteData`. `query` is the outcome of the query and
   * `files` its result; `destroy[i]` and `remove[i]` are the outcomes of the
   * two deletions for `files[i]`.
   */
  method DeleteData(store: FilesRoutes.FileStore, now: int, query: Outcome, files: seq<FileRecord>,
                    destroy: seq<Outcome>, remove: seq<Outcome>)
    returns (log: seq<LogLine>)
    requires store.Valid()
    requires query.Pass? ==> IsSnapshot(files, store.records, Cutoff(now))
    requires |destroy| == |files| && |remove| == |files|
    modifies store
    ensures store.Valid()
    ensures SenderKept(old(store.records), store.records)
    ensures query.Fail? ==> unchanged(store) && log == [QueryFailed(query.message)]
    ensures query.Pass? ==>
      && SweepState(store.records, store.blobs, store.effects)
         == SweepAll(SweepState(old(store.records), old(store.blobs), old(store.effects)), files, destroy, remove)
      && log == Report(files, destroy, remove) + [JobDone]
  {
    if query.Fail? {
      return [QueryFailed(query.message)];
    }
    ghost var start := SweepState(store.records, store.blobs, store.effects);
    log := [];
    for i := 0 to |files|
      invariant SweepState(store.records, store.blobs, store.effects) == SweepAll(start, files[..i], destroy[..i], remove[..i])
      invariant log == Report(files[..i], destroy[..i], remove[..i])
    {
      assert files[..i + 1][..i] == files[..i];
      assert destroy[..i + 1][..i] == destroy[..i];
      assert remove[..i + 1][..i] == remove[..i];
      var line := SweepRecord(store, files[i], destroy[i], remove[i]);
      log := log + [line];
    }
    assert files[..|files|] == files && destroy[..|files|] == destroy && remove[..|files|] == remove;
    SweepAllStores(start, files, destroy, remove);
    log := log + [JobDone];
  }

  /**
   * The sweep removes exactly the records whose two deletions both
   * succeeded, destroys exactly the blobs whose destroy succeeded, and leaves
   * every other record as it was.
   */
  lemma {:induction false} SweepAllStores(s: SweepState, files: seq<FileRecord>, destroy: seq<Outcome>, remove: seq<Outcome>)
    requires |destroy| == |files| && |remove| == |files|
    ensures SweepAll(s, files, destroy, remove).records == s.records - RemovedKeys(files, destroy, remove)
    ensures SweepAll(s, files, destroy, remove).blobs == s.blobs - DestroyedIds(files, destroy)
  {
    if files != [] {
      var n := |files| - 1;
      SweepAllStores(s, files[..n], destroy[..n], remove[..n]);
      RemovedKeysSnoc(files, destroy, remove);
      DestroyedIdsSnoc(files, destroy);
    }
  }

  lemma RemovedKeysSnoc(files: seq<FileRecord>, destroy: seq<Outcome>, remove: seq<Outcome>)
    requires |destroy| == |files| && |remove| == |files| && files != []
    ensures var n := |files| - 1;
      RemovedKeys(files, destroy, remove)
      == RemovedKeys(files[..n], destroy[..n], remove[..n]) + (if destroy[n].Pass? && remove[n].Pass? then {files[n].uuid} else {})
  {
    var n := |files| - 1;
    var fs, ds, rs := files[..n], destroy[..n], remove[..n];
    forall t | t in RemovedKeys(files, destroy, remove)
      ensures t in RemovedKeys(fs, ds, rs) + (if destroy[n].Pass? && remove[n].Pass? then {files[n].uuid} else {})
    {
      var i :| 0 <= i < |files| && destroy[i].Pass? && remove[i].Pass? && files[i].uuid == t;
      if i < n {
        assert fs[i] == files[i] && ds[i] == destroy[i] && rs[i] == remove[i];
      }
    }
    forall t | t in RemovedKeys(fs, ds, rs)
      ensures t in RemovedKeys(files, destroy, remove)
    {
      var i :| 0 <= i < n && ds[i].Pass? && rs[i].Pass? && fs[i].uuid == t;
      assert files[i] == fs[i] && destroy[i] == ds[i] && remove[i] == rs[i];
    }
  }

  lemma DestroyedIdsSnoc(files: seq<FileRecord>, destroy: seq<Outcome>)
    requires |destroy| == |files| && files != []
    ensures var n := |files| - 1;
      DestroyedIds(files, destroy) == DestroyedIds(files[..n], destroy[..n]) + (if destroy[n].Pass? then {files[n].publicId} else {})
  {
    var n := |files| - 1;
    var fs, ds := files[..n], destroy[..n];
    forall p | p in DestroyedIds(files, destroy)
      ensures p in DestroyedIds(fs, ds) + (if destroy[n].Pass? then {files[n].publicId} else {})
    {
      var i :| 0 <= i < |files| && destroy[i].Pass? && files[i].publicId == p;
      if i < n {
        assert fs[i] == files[i] && ds[i] == destroy[i];
      }
    }
    forall p | p in DestroyedIds(fs, ds)
      ensures p in DestroyedIds(files, destroy)
    {
      var i :| 0 <= i < n && ds[i].Pass? && fs[i].publicId == p;
      assert files[i] == fs[i] && destroy[i] == ds[i];
    }
  }

  /**
   * With every deletion succeeding, the sweep leaves exactly the records
   * created at or after the cutoff, each unchanged.
   */
  lemma SweepDeletesExactlyExpired(s: SweepState, now: int, files: seq<FileRecord>, destroy: seq<Outcome>, remove: seq<Outcome>)
    requires IsSnapshot(files, s.records, Cutoff(now))
    requires |destroy| == |files| && |remove| == |files|
    requires forall i :: 0 <= i < |files| ==> destroy[i].Pass? && remove[i].Pass?
    ensures SweepAll(s, files, destroy, remove).records
            == map t | t in s.records && !Expired(s.records[t], Cutoff(now)) :: s.records[t]
  {
    SweepAllStores(s, files, destroy, remove);
    assert RemovedKeys(files, destroy, remove) == Uuids(files);
  }

  /**
   * One record's failure does not stop the others: each snapshot record is
   * removed exactly when both of its own deletions succeed, its blob is gone
   * whenever its own destroy succeeded, and a record the query did not return
   * is untouched.
   */
  lemma SweepFailureIsolated(s: SweepState, now: int, files: seq<FileRecord>, destroy: seq<Outcome>, remove: seq<Outcome>)
    requires IsSnapshot(files, s.records, Cutoff(now))
    requires |destroy| == |files| && |remove| == |files|
    ensures var done := SweepAll(s, files, destroy, remove);
      && (forall i :: 0 <= i < |files| ==>
            (files[i].uuid in done.records <==> !(destroy[i].Pass? && remove[i].Pass?)))
      && (forall i :: 0 <= i < |files| && destroy[i].Pass? ==> files[i].publicId !in done.blobs)
      && (forall t :: t in s.records && !Expired(s.records[t], Cutoff(now)) ==> t in done.records && done.records[t] == s.records[t])
  {
    SweepAllStores(s, files, destroy, remove);
    var done := SweepAll(s, files, destroy, remove);
    forall i | 0 <= i < |files|
      ensures files[i].uuid in done.records <==> !(destroy[i].Pass? && remove[i].Pass?)
    {
      if files[i].uuid in RemovedKeys(files, destroy, remove) {
        var j :| 0 <= j < |files| && destroy[j].Pass? && remove[j].Pass? && files[j].uuid == files[i].uuid;
        assert i == j;
      }
    }
    forall i | 0 <= i < |files| && destroy[i].Pass?
      ensures files[i].publicId !in done.blobs
    {
      assert files[i].publicId in DestroyedIds(files, destroy);
    }
  }

  /** Every removal request in the trace comes right after the destroy request for that record's blob. */
  ghost predicate RemovalsFollowDestroys(effects: seq<Effect>) {
    forall j :: 0 <= j < |effects| && effects[j].RemoveRecord? ==>
      0 < j && effects[j - 1] == DestroyBlob(effects[j].rec.publicId)
  }

  /** The sweep never asks to remove a record before it has asked to destroy that record's blob. */
  lemma {:induction false} DestroyPrecedesRemove(s: SweepState, files: seq<FileRecord>, destroy: seq<Outcome>, remove: seq<Outcome>)
    requires |destroy| == |files| && |remove| == |files|
    requires RemovalsFollowDestroys(s.effects)
    ensures RemovalsFollowDestroys(SweepAll(s, files, destroy, remove).effects)
  {
    if files != [] {
      var n := |files| - 1;
      var before := SweepAll(s, files[..n], destroy[..n], remove[..n]);
      DestroyPrecedesRemove(s, files[..n], destroy[..n], remove[..n]);
      var e0 := before.effects;
      var e1 := e0 + [DestroyBlob(files[n].publicId)];
      assert RemovalsFollowDestroys(e1) by {
        forall j | 0 <= j < |e1| && e1[j].RemoveRecord?
          ensures 0 < j && e1[j - 1] == DestroyBlob(e1[j].rec.publicId)
        {
          assert j < |e0| && e1[j] == e0[j] && e1[j - 1] == e0[j - 1];
        }
      }
      if destroy[n].Pass? {
        var e2 := e1 + [RemoveRecord(files[n])];
        forall j | 0 <= j < |e2| && e2[j].RemoveRecord?
          ensures 0 < j && e2[j - 1] == DestroyBlob(e2[j].rec.publicId)
        {
          if j < |e1| {
            assert e2[j] == e1[j] && e2[j - 1] == e1[j - 1];
          }
        }
      }
    }
  }

  /**
   * After the sweep, a link whose record was removed resolves like a link
   * that was never issued; a link whose blob was destroyed but whose record
   * removal failed still redirects, to a blob that no longer exists.
   */
  lemma SweptLinksResolve(s: SweepState, now: int, files: seq<FileRecord>, destroy: seq<Outcome>, remove: seq<Outcome>, i: nat)
    requires IsSnapshot(files, s.records, Cutoff(now))
    requires |destroy| == |files| && |remove| == |files|
    requires i < |files| && destroy[i].Pass?
    ensures var done := SweepAll(s, files, destroy, remove);
      && files[i].publicId !in done.blobs
      && (remove[i].Pass? ==> DownloadRoutes.Resolve(done.records, files[i].uuid, Pass) == DownloadRoutes.Render(DownloadRoutes.ExpiredError))
      && (remove[i].Fail? ==> DownloadRoutes.Resolve(done.records, files[i].uuid, Pass) == DownloadRoutes.Redirect(files[i].path))
  {
    SweepFailureIsolated(s, now, files, destroy, remove);
    SweepAllStores(s, files, destroy, remove);
  }
}
