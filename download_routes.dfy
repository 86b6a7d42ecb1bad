/**
 * The `/files/download/:uuid` route: look the token up and redirect to the
 * stored blob's URL, or render the download page with an error. It only
 * reads the store, so it is a function of the record map.
 */
module DownloadRoutes {
  import opened Records

  const ExpiredError := "Link has been expired."
  const StoreError := "Something went wrong."

  datatype Page =
    | Redirect(url: string)   // res.redirect(file.path)
    | Render(error: string)   // the download page, showing `error`

  /** `lookup` is the outcome of querying the document store for `uuid`. */
  function Resolve(records: map<string, FileRecord>, uuid: string, lookup: Outcome): (page: Page)
    ensures page.Redirect? <==> lookup.Pass? && uuid in records
    ensures page.Redirect? ==> page.url == records[uuid].path
    ensures lookup.Fail? ==> page == Render(StoreError)
    ensures lookup.Pass? && uuid !in records ==> page == Render(ExpiredError)
  {
    if lookup.Fail? then Render(StoreError)
    else if uuid !in records then Render(ExpiredError)
    else Redirect(records[uuid].path)
  }

  /**
   * What a token resolves to depends only on its own record: changing or
   * removing other records leaves its page as it was.
   */
  lemma ResolveDependsOnOwnRecord(before: map<string, FileRecord>, after: map<string, FileRecord>, uuid: string, lookup: Outcome)
    requires uuid in before <==> uuid in after
    requires uuid in before ==> before[uuid].path == after[uuid].path
    ensures Resolve(before, uuid, lookup) == Resolve(after, uuid, lookup)
  {
  }

  /** A link whose record is gone looks exactly like one that was never issued. */
  lemma AbsentTokensLookAlike(records: map<string, FileRecord>, swept: string, neverIssued: string)
    requires swept !in records && neverIssued !in records
    ensures Resolve(records, swept, Pass) == Resolve(records, neverIssued, Pass) == Render(ExpiredError)
  {
  }
}
