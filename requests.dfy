/** The `archived` query parameter of the list and read handlers. Express hands
    query parameters over as strings, so `req.query.archived ?? false` followed
    by `!!archived` tests the truthiness of a string: every non-empty string,
    `"false"` included, selects the archived objects. */
module Requests {
  import opened Wrappers

  /** As written: `!!(req.query.archived ?? false)` on the raw query string. */
  function ArchivedAsWritten(query: Option<string>): (wantsArchived: bool)
    ensures wantsArchived <==> query.Some? && query.value != ""
  {
    match query
    case None => false
    case Some(s) => s != ""
  }

  /** As intended by the `archived?: boolean` query type: only `"true"` asks for archived objects. */
  function ArchivedFlag(query: Option<string>): (wantsArchived: bool)
    ensures wantsArchived <==> query == Some("true")
  {
    query == Some("true")
  }

  /** `?archived=false` asks for archived objects as written, and for live ones as intended. */
  lemma ArchivedFalseDiscrepancy()
    ensures ArchivedAsWritten(Some("false"))
    ensures !ArchivedFlag(Some("false"))
  {
  }

  /** Both readings agree on what the tests send: no parameter, and `archived=true`. */
  lemma ArchivedFlagAgreesOnTrueAndAbsent()
    ensures ArchivedFlag(None) == ArchivedAsWritten(None) == false
    ensures ArchivedFlag(Some("true")) == ArchivedAsWritten(Some("true")) == true
  {
  }
}
