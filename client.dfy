/** Value types of the AppOptics client library the reporter talks to. The library itself is
    not part of this model: its sanitizers are passed in as functions, a `Measure` is the row
    built for the transport, and a post result is what the transport hands back. */
module Client {
  import opened Wrappers
  import opened Numbers

  /** A (name, value) tag pair. */
  datatype Tag = Tag(name: string, value: string)

  /** The library's sanitizer constants, left uninterpreted. */
  datatype Sanitizers = Sanitizers(
    metricName: string -> string,   // METRIC_NAME_SANITIZER
    tagName: string -> string,      // TAG_NAME_SANITIZER
    tagValue: string -> string,     // TAG_VALUE_SANITIZER
    lastPass: string -> string)     // LAST_PASS

  /** A transport row: a simple gauge or a complex (multi-sample) gauge, each with the tags
      added to it in order. */
  datatype Measure =
    | SimpleMeasure(name: string, value: Num, tags: seq<Tag>)
    | ComplexMeasure(name: string, sum: Num, count: int, min: Num, max: Num, tags: seq<Tag>)

  datatype Response = Response(code: int, body: string)

  /** One sub-batch's outcome; `response` is null when the post failed without one. */
  datatype PostResult = PostResult(isError: bool, response: Option<Response>)
}
