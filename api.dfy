/** The request and response shapes of the ingest endpoint (api/post.go). */
module Api {
  import opened GoValues

  /** `PostRequest`: the records plus request-level field values, "" when absent. */
  datatype PostRequest = PostRequest(
    events: seq<Record>,
    host: string,
    source: string,
    sourceType: string,
    index: string)

  /** `PostResponse`: how many records were accepted into the pipeline. */
  datatype PostResponse = PostResponse(count: int)
}
