/** The record that flows through the enricher (the `EnrichedRecord` struct of
    src/enricher.rs) and the broker message that carries it. */
module Records {
  import opened Wrappers

  newtype byte = x: int | 0 <= x < 256

  /** The error a JSON encoder or decoder reports. Its contents are opaque to
      the enricher, which only forwards it. */
  datatype JsonError = JsonError(message: string)

  /** A broker message, reduced to the one part the enricher reads: its
      payload, which may be absent. */
  datatype Message = Message(payload: Option<seq<byte>>)

  /** The wire record. Decoding fills all eight fields; a JSON document that
      omits `sentiment` or `keywords` decodes them as `None`. */
  datatype EnrichedRecord = EnrichedRecord(
    created_at: string,
    text: string,
    languages: seq<string>,
    hashtags: seq<string>,
    urls: seq<string>,
    hostnames: seq<string>,
    sentiment: Option<seq<string>>,
    keywords: Option<seq<string>>)

  /** `b` carries the same source content as `a`: every field other than the
      two enrichment fields is identical. */
  predicate SameSource(a: EnrichedRecord, b: EnrichedRecord) {
    && a.created_at == b.created_at
    && a.text == b.text
    && a.languages == b.languages
    && a.hashtags == b.hashtags
    && a.urls == b.urls
    && a.hostnames == b.hostnames
  }

  /** Both enrichment fields are present. */
  predicate Enriched(r: EnrichedRecord) {
    r.sentiment.Some? && r.keywords.Some?
  }
}
