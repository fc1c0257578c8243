/** Values shared by the services and components: thrown errors, provider
    outcomes, validation results, grounding references, history entries and
    the abstract answer of a `fetch` call. */
module Types {

  datatype Option<+T> = None | Some(value: T)

  /** One element of a `Uint8Array` / `ArrayBuffer`. */
  newtype uint8 = x: int | 0 <= x < 256

  /** A thrown value as the catch blocks see it: `JSON.stringify(error)` and
      `error.message || error.toString()`. */
  datatype Failure = Failure(serialized: string, message: string)

  /** `JSON.stringify(new Error(m))`: an `Error` has no enumerable own
      properties, so it serialises to the empty object. */
  const EMPTY_OBJECT_JSON: string := "{}"

  /** What `throw new Error(message)` hands to a catch block. */
  function ErrorWithMessage(message: string): (e: Failure)
    ensures e.message == message && e.serialized == EMPTY_OBJECT_JSON
  {
    Failure(EMPTY_OBJECT_JSON, message)
  }

  /** The settled value of one awaited call: a result or a thrown error. */
  datatype Outcome<+T> = Ok(value: T) | Err(error: Failure)

  /** The `errorType` union shared by the validators. */
  datatype ErrorType = Network | Auth | Model | Config | Unknown

  /** `{ success, message, errorType? }` returned by every validator. */
  datatype ValidationResult = ValidationResult(success: bool, message: string, errorType: Option<ErrorType>)

  /** The `web` part of a grounding chunk. */
  datatype WebSource = WebSource(uri: string, title: string)

  /** A grounding chunk returned with a story; only its `web` part is read. */
  datatype GroundingChunk = GroundingChunk(web: Option<WebSource>)

  /** A persisted history record (`StoryHistory`). */
  datatype HistoryEntry = HistoryEntry(
    id: string,
    story: string,
    imageUrl: string,
    prompt: string,
    timestamp: int,
    sources: seq<GroundingChunk>)

  /** The body of an HTTP response as `response.json()` sees it: either it
      fails to parse, or it is an object whose `detail.message` and `name`
      members may be absent. */
  datatype JsonBody = NotJson(syntaxError: string) | JsonObject(detailMessage: Option<string>, name: Option<string>)

  datatype HttpResponse = HttpResponse(status: nat, statusText: string, body: seq<uint8>, json: JsonBody) {
    /** `response.ok`: the status is in the range 200-299. */
    predicate Ok() {
      200 <= status <= 299
    }
  }

  /** What an awaited `fetch` produced: a response, or a thrown error with its
      `name` and `message`. */
  datatype FetchResult = Threw(name: string, message: string) | Responded(response: HttpResponse)

  /** A `Blob`: its bytes and its MIME type. */
  datatype Blob = Blob(bytes: seq<uint8>, mimeType: string)
}
