/** The newest query and title helpers. */
module NotionableHelper {
  import opened Wrappers
  import opened JsRuntime
  import opened JsStrings
  import opened NotionApi

  /** `throw new Error('Unsupported title in database: ...')`. */
  datatype TitleError = UnsupportedTitle

  /** `applyQuery`: `{database_id: databaseId, ...query}`, the query defaulting to `{}`. */
  function ApplyQuery(databaseId: string, query: Option<map<string, Value>>): (r: map<string, Value>)
    ensures var q := if query.Some? then query.value else map[];
            && r.Keys == q.Keys + {"database_id"}
            && (forall k :: k in q ==> r[k] == q[k])
            && ("database_id" !in q ==> r["database_id"] == Str(databaseId))
    ensures query.None? ==> r == map["database_id" := Str(databaseId)]
  {
    var q := if query.Some? then query.value else map[];
    map["database_id" := Str(databaseId)] + q
  }

  /**
   * `getDbTitle`: `lowerCase` of the trimmed plain text of the first title
   * fragment of type 'text'; throws when there is none.
   */
  function GetDbTitle(db: Database, lodash: Lodash): (r: Result<string, TitleError>)
    ensures r.Success? <==> exists i :: 0 <= i < |db.title| && db.title[i].kind == TextFragment
    ensures r.Success? ==>
              exists i :: 0 <= i < |db.title| && db.title[i].kind == TextFragment
                && (forall j :: 0 <= j < i ==> db.title[j].kind != TextFragment)
                && r.value == lodash.lowerCase(Trim(db.title[i].plainText))
  {
    match FirstTextFragment(db.title)
    case Some(i) => Success(lodash.lowerCase(Trim(db.title[i].plainText)))
    case None => Failure(UnsupportedTitle)
  }
}
