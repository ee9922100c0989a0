/**
 * The part of a PageSpeed Insights (Lighthouse) JSON document that the
 * reporter reads. Every key the reporter looks up is optional here, so that a
 * document missing it can be represented; a JSON key whose value the reporter
 * never reads is not represented at all.
 */
module Lighthouse {
  import opened Wrappers

  /** One entry of `lighthouseResult.audits`. */
  datatype Audit = Audit(
    title: Option<string>,
    description: Option<string>,
    score: Option<real>,        // 0..1
    numericValue: Option<real>, // milliseconds for the timing audits
    displayValue: Option<string>)

  /** One entry of `lighthouseResult.categories`. */
  datatype Category = Category(score: Option<real>)

  datatype LighthouseResult = LighthouseResult(
    audits: Option<map<string, Audit>>,
    categories: Option<map<string, Category>>)

  /** The decoded body of a response. */
  datatype Response = Response(lighthouseResult: Option<LighthouseResult>)

  /**
   * What the HTTP round trip (request, status check, JSON decoding) yields:
   * a decoded document, or the message of the exception that stopped it.
   */
  datatype Fetch = Fetched(data: Response) | FetchFailed(message: string)

  /** Why an analysis produced no result. */
  datatype Failure = FetchError(message: string) | MissingKey(key: string) {
    /** The text `str(e)` gives: a KeyError shows its key in single quotes. */
    function Message(): string {
      match this
      case FetchError(m) => m
      case MissingKey(k) => "'" + k + "'"
    }
  }

  /** `m[key]`, failing with a KeyError when the key is absent. */
  function Lookup<V>(m: map<string, V>, key: string): Result<V, Failure> {
    if key in m then Ok(m[key]) else Err(MissingKey(key))
  }

  /** `obj[key]` for a key modelled as an optional field. */
  function Field<V>(field: Option<V>, key: string): Result<V, Failure> {
    if field.Some? then Ok(field.value) else Err(MissingKey(key))
  }
}
