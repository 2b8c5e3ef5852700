/** The records that flow between the services: social-media posts (one
    shape for both platforms) and daily price bars. */
module Posts {
  import opened Common

  /** A social-media post. `id` is `None` when the post has no id; the
      source treats a missing and an empty id alike (both are falsy).
      `date` is an abstract, totally ordered key standing for the ISO 8601
      timestamp the source compares as text. */
  datatype Post = Post(
    platform: string,
    id: Option<string>,
    author: string,
    authorName: Option<string>,
    authorType: Option<string>,
    text: string,
    date: int,
    metrics: map<string, real>,
    verified: Option<bool>,
    queryUsed: Option<string>)

  /** A daily price bar; `close` is `None` when the bar has no close. */
  datatype PriceBar = PriceBar(close: Option<real>)

  /** `bar.get("close", 0)`. */
  function CloseOf(bar: PriceBar): real
  {
    if bar.close.Some? then bar.close.value else 0.0
  }

  /** The closes of a list of bars, in order. */
  function Closes(bars: seq<PriceBar>): (r: seq<real>)
    ensures |r| == |bars|
    ensures forall i :: 0 <= i < |bars| ==> r[i] == CloseOf(bars[i])
  {
    seq(|bars|, i requires 0 <= i < |bars| => CloseOf(bars[i]))
  }

  /** Python truthiness of an optional id. */
  predicate HasId(p: Post) { p.id.Some? && p.id.value != "" }

  /** `dict.get(key, default)` on a metrics mapping. */
  function Metric(m: map<string, real>, key: string, default: real): real
  {
    if key in m then m[key] else default
  }
}
