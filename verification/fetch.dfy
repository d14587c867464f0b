/**
 * The outcome of the browser's `fetch` of the chat route, as the two chat
 * clients see it: the promise rejects, or a response with its `ok` flag and
 * its body stream, if any. The body stream is the list of decoded reads, and
 * whether a read failed after them.
 */
module Fetch {
  import opened Wrappers

  datatype StreamBody = StreamBody(chunks: seq<string>, readError: bool)
  datatype FetchResult = NetworkFailure | Response(ok: bool, body: Option<StreamBody>)
}
