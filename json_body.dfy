/**
 * What the filter reads out of a fully buffered JSON body. The JSON library
 * itself is outside the model: a parser hands the filter either `Malformed`
 * or the handful of top-level members the filter looks at.
 */
module JsonBody {
  import opened Wrappers
  import opened StatNames

  /**
   * A parsed body. `requestItems` and `unprocessedKeys` are the keys of those
   * top-level objects, in document order.
   */
  datatype Document =
    | Malformed
    | Object(tableName: Option<string>,
             requestItems: Option<seq<string>>,
             unprocessedKeys: Option<seq<string>>,
             errorType: Option<string>)

  function KeySet(keys: seq<string>): (r: set<string>)
    ensures forall k :: k in r <==> k in keys
  {
    set k | k in keys
  }

  /**
   * The tables a request body names, first match wins: a top-level
   * `TableName`, else the keys of a non-empty `RequestItems`. None when the
   * body names no table: it carries neither field, or `RequestItems` has no
   * keys.
   */
  function RequestTables(doc: Document): (r: Option<set<string>>)
    ensures r.Some? ==> r.value != {}
    ensures doc.Malformed? ==> r == None
    ensures doc.Object? && doc.tableName.Some? ==> r == Some({doc.tableName.value})
    ensures doc.Object? && doc.tableName.None? && doc.requestItems.Some? ==>
              forall t :: t in doc.requestItems.value <==> r.Some? && t in r.value
    ensures doc.Object? && doc.tableName.None? && (doc.requestItems.None? || doc.requestItems.value == []) ==> r == None
  {
    match doc
    case Malformed => None
    case Object(tableName, requestItems, _, _) =>
      if tableName.Some? then Some({tableName.value})
      else if requestItems.Some? && requestItems.value != [] then
        assert requestItems.value[0] in KeySet(requestItems.value);
        Some(KeySet(requestItems.value))
      else None
  }

  /** The error name of a `__type` value: the text after its last `#`. */
  function ErrorName(errorType: Option<string>): Option<string>
  {
    match errorType
    case Some(t) => AfterLast(t, '#')
    case None => None
  }

  /** `namespace#Name` with no `#` in `Name` yields `Name`. */
  lemma ErrorNameOf(namespace: string, name: string)
    requires '#' !in name
    ensures ErrorName(Some(namespace + "#" + name)) == Some(name)
  {
    AfterLastOfJoin(namespace, '#', name);
  }

  /** A `__type` without `#` yields no error name. */
  lemma ErrorNameNeedsSeparator(t: string)
    requires '#' !in t
    ensures ErrorName(Some(t)) == None
  {
    AfterLastAbsent(t, '#');
  }
}
