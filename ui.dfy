/**
 * What the pages and forms share about the outside world: the outgoing
 * multipart payload, the error map the validators fill, the errors the REST
 * client reports, and the visible effects of a handler (alerts, navigation,
 * storing the session token). Browser and network calls are not modelled;
 * their outcomes are parameters and their effects are returned as values.
 */
module Ui {

  /** An opaque `File`/`Blob` object chosen in a file input. */
  datatype FileRef = FileRef(handle: nat)

  /** A value appended to a `FormData`. */
  datatype FormValue = Text(text: string) | Blob(file: FileRef)

  /**
   * One `formData.append(key, value)`. Each form names its keys with its own
   * field type, whose `Name` function gives the wire name.
   */
  datatype Entry<K> = Entry(key: K, value: FormValue)

  /**
   * A validator's result: field to message (a JavaScript `Map<string, string>`
   * keyed by the field's name).
   */
  type ErrorMap<K> = map<K, string>

  /** The keys of a payload, in the order they were appended. */
  function Keys<K>(entries: seq<Entry<K>>): (keys: seq<K>)
    ensures |keys| == |entries|
    ensures forall i :: 0 <= i < |entries| ==> keys[i] == entries[i].key
  {
    if entries == [] then [] else [entries[0].key] + Keys(entries[1..])
  }

  lemma KeysOfConcat<K>(a: seq<Entry<K>>, b: seq<Entry<K>>)
    ensures Keys(a + b) == Keys(a) + Keys(b)
  {
    assert |Keys(a + b)| == |Keys(a) + Keys(b)|;
    forall i | 0 <= i < |a + b|
      ensures Keys(a + b)[i] == (Keys(a) + Keys(b))[i]
    {
    }
  }

  /** An error reported by the REST client: a response with a status, or none at all. */
  datatype ApiError =
    | HttpError(status: int, statusText: string, message: string)
    | NoResponse(message: string)

  /** A visible effect of a handler, in the order it happens. */
  datatype Effect =
    | Alert(text: string)          // window.alert
    | Navigate(path: string)       // react-router navigate
    | StoreToken(token: string)    // dispatch(loginAction(token))
    | UnhandledRejection           // the error handler itself threw

  const LoginPath := "/login"

  predicate IsUnauthorized(e: ApiError) { e.HttpError? && e.status == 401 }
}
