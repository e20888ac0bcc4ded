# Record enrichment, modelled in Dafny

This project models the enrichment step of a streaming pipeline that reads
social-media posts from one Kafka topic and republishes them with derived
fields. One broker message goes through `EnrichedRecord::enrich_record`
(`src/enricher.rs`):

1. a message with no payload is rejected with `InvalidInput`;
2. a payload that does not decode as a record is rejected with the decoder's error;
3. a record whose `languages` lack `"English"` passes through with `sentiment`
   and `keywords` both set to an empty list;
4. an English record gets a sentiment label and a keyword list computed from
   its `text`, and is returned if it still serialises (else the encoder's error).

The two helpers are modelled on exact real-valued scores: `calculate_keywords` keeps, in order, the
texts of the first prediction batch's keywords scoring at least 0.3999 (and
yields an empty list when the model fails or returns no batch);
`calculate_sentiment` maps the VADER compound score to `Positive` (>= 0.05),
`Negative` (<= -0.05) or `Neutral`.

The external collaborators are held as function values, so every property is
proved for all of them: the keyword model and the compound scorer are fields
of `Enricher.Models`, the JSON decoder and encoder are fields of
`Enricher.Codec`. Scores are `real`.

Files: `wrappers.dfy` (Option, Result), `records.dfy` (the record and message),
`keywords.dfy` (keyword filter), `sentiment.dfy` (label), `enricher.dfy`
(`enrich_record`).

## Model

| member | source | states |
|---|---|---|
| Keywords.KeepConfident | src/enricher.rs:45-49 | the kept list is no longer than the batch, and a text is in it exactly when some keyword of the batch with that text scores at least 0.3999 |
| Keywords.KeepConfidentIsSubsequence | src/enricher.rs:45-49 | the kept texts are a subsequence of the batch's texts: filtering only deletes, never reorders or invents |
| Keywords.KeepConfidentIsSelection | src/enricher.rs:45-49 | for any strictly increasing list of exactly the positions of confident keywords, the kept list is the texts at those positions: every confident keyword appears once, in batch order, and nothing else appears |
| Keywords.ConfidentSelectionExists | src/enricher.rs:45-49 | such a list of confident positions always exists, so the characterisation above applies to every batch |
| Keywords.ThresholdIsInclusive | src/enricher.rs:47 | a keyword scoring exactly 0.3999 is kept and one scoring 0.39 is dropped |
| Keywords.MixedScoresExample | src/enricher.rs:47 | of candidates scoring 0.5, 0.39, 0.4 and 0.1, exactly the first and third are kept, in order |
| Keywords.CalculateKeywords | src/enricher.rs:38-57 | never None; empty on a model error or an empty batch list; otherwise no longer than the first batch, a subsequence of its texts, containing a text iff a confident keyword of the first batch has it, and equal to the texts at exactly the confident positions of the first batch, in increasing order |
| Sentiment.Classify | src/enricher.rs:62-68 | Positive iff the score is >= 0.05, Negative iff <= -0.05, Neutral iff strictly between; so the three labels are exclusive and exhaustive |
| Sentiment.CalculateSentiment | src/enricher.rs:59-71 | always Some of exactly one label name, and that name is "Positive", "Negative" or "Neutral" exactly when the text's compound score is in the matching interval |
| Sentiment.NameInjective | src/enricher.rs:62-70 | distinct labels are written as distinct strings, so the stored name identifies the label |
| Sentiment.ClassifyMonotone | src/enricher.rs:62-68 | a higher compound score never yields a more negative label |
| Enricher.Annotate | src/enricher.rs:79-82 | the English path only assigns sentiment and keywords: every source field is unchanged, sentiment is the label computed from the text and keywords are the filtered keywords computed from the text |
| Enricher.PassThrough | src/enricher.rs:92-95 | the pass-through record keeps every source field and has both enrichment fields present and empty |
| Enricher.EnrichRecord | src/enricher.rs:73-107 | InvalidInput exactly when the payload is missing; a decode failure is returned as that error; a non-English record is always accepted with empty enrichment; an English record is accepted exactly when its annotated form encodes, carrying the computed sentiment and keywords, else fails with the encoder's error; every accepted record keeps the decoded source fields and has both enrichment fields present |
| Enricher.RejectionIgnoresModels | src/enricher.rs:98-105 | when the payload is missing or does not decode, the outcome is a failure and does not depend on the models or the encoder |
| Enricher.PassThroughIgnoresModels | src/enricher.rs:92-96 | a decoded non-English record gives the same outcome whatever the models and the encoder, namely the pass-through record |
| Enricher.KeywordFailureKeepsSentiment | src/enricher.rs:80-82 | when the keyword model fails on an English record that is accepted, keywords are empty but the sentiment label is still present |
| Enricher.PositiveNewsExample | src/enricher.rs:79-91 | an English post "great news today" with compound score 0.6 and one predicted keyword "news" scoring 0.45 comes out labelled Positive with keywords ["news"] when its annotated form serialises |

## Left out

- `src/consumer.rs`: Kafka consumer configuration, subscription and the asynchronous stream loop are broker I/O and concurrency. That loop unwraps the enrichment result, so no per-record error containment or offset commit exists to model.
- `src/producer.rs`: producer setup, off-thread JSON serialisation and the fire-and-forget send are I/O over the Kafka client.
- `src/main.rs`: environment bootstrap and the periodic metrics task call code that is not part of this model (`app_metrics`, `config`).
- `RustBertModels::new`: loading the keyword model panics on failure; model loading is outside the model, which takes the keyword model as a given function.
- `SentimentIntensityAnalyzer::new` and `polarity_scores`, `KeywordExtractionModel::predict`: foreign inference, represented by the function fields of `Enricher.Models`.
- serde_json: the decoder and encoder are the function fields of `Enricher.Codec`; no JSON grammar and no decode/encode round trip is modelled. Both kinds of serde failure become the same `Json(cause)` error, as in the source, where each is converted into an `std::io::Error`; the error kind that conversion picks is not modelled.
- Logging: the `error!` lines on each failure path are side effects with no bearing on the result.
- Floating point: keyword scores are `f32` and compound scores `f64` in the source; the model uses exact `real` arithmetic, so rounding at the 0.3999 and ±0.05 boundaries is not modelled, and neither are NaN or infinite scores (in the source a NaN compound score fails both comparisons and is labelled Neutral, and a NaN keyword score is dropped).
- Sentiment.Classify: its Neutral-iff-strictly-between clause is stated for real scores; a NaN compound score, which the source labels Neutral, has no counterpart in `real`.
- The keyword threshold is the code's literal `0.3999`, not a rounded 0.4.
- `src/enricher.rs` has no named-entity field, and its caller commits no offsets and has no shutdown draining; none of these is modelled.
