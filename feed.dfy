/**
 * The update feed as the version check sees it once the HTTP body has been
 * read: a JSON array whose elements are, in the good case, version objects.
 * Only the keys the check reads are kept; title, release notes and the other
 * descriptive keys pass through untouched and are not represented.
 */
module Feed {
  import opened Basics

  /** One key of a JSON object, as org.json's typed getters see it. */
  datatype Field<+T> =
    | Missing          // has(key) is false; the typed getter throws JSONException
    | Valid(value: T)  // the typed getter returns value
    | Invalid          // has(key) is true, but the getter cannot coerce the value and throws

  /** One element of the feed array. */
  datatype JsonValue =
    | VersionObject(version: Field<int>, timestamp: Field<int>, mandatory: Field<bool>, appUrl: Option<string>)
    | NotAnObject      // getJSONObject(index) throws JSONException

  /** What opening the connection, reading the body and parsing it as a JSON array produced. */
  datatype FetchOutcome =
    | ConnectionFailed              // IOException while connecting or reading
    | NotAnArray                    // new JSONArray(body) threw JSONException
    | Fetched(feed: seq<JsonValue>)
}
