/** One message through the enricher (`EnrichedRecord::enrich_record` in
    src/enricher.rs): take the payload, decode it, and either pass a
    non-English record through with empty enrichment or compute sentiment and
    keywords for an English one and check that it still serialises. */
module Enricher {
  import opened Wrappers
  import opened Records
  import opened Keywords
  import opened Sentiment

  /** The two ways enrichment can fail: the message has no payload, or the
      JSON codec rejected the payload or the enriched record. */
  datatype EnrichError = InvalidInput | Json(cause: JsonError)

  /** The analysis models, held as functions of the text. */
  datatype Models = Models(keywordModel: string -> Prediction, compound: string -> real)

  /** The JSON codec for records. */
  datatype Codec = Codec(
    decode: seq<byte> -> Result<EnrichedRecord, JsonError>,
    encode: EnrichedRecord -> Result<seq<byte>, JsonError>)

  /** Only records in this language are enriched. */
  const TargetLanguage: string := "English"

  /** `rec` with its enrichment fields computed from its text by `models`. */
  function Annotate(rec: EnrichedRecord, models: Models): (a: EnrichedRecord)
    ensures SameSource(a, rec) && Enriched(a)
    ensures a.sentiment == CalculateSentiment(rec.text, models.compound)
    ensures a.keywords == CalculateKeywords(rec.text, models.keywordModel)
  {
    rec.(sentiment := CalculateSentiment(rec.text, models.compound),
         keywords := CalculateKeywords(rec.text, models.keywordModel))
  }

  /** `rec` with both enrichment fields present but empty. */
  function PassThrough(rec: EnrichedRecord): (a: EnrichedRecord)
    ensures SameSource(a, rec) && a.sentiment == Some([]) && a.keywords == Some([])
  {
    rec.(sentiment := Some([]), keywords := Some([]))
  }

  function EnrichRecord(msg: Message, models: Models, codec: Codec): (r: Result<EnrichedRecord, EnrichError>)
    // A missing payload, and only a missing payload, is InvalidInput.
    ensures r == Failure(InvalidInput) <==> msg.payload.None?
    // A payload that does not decode is rejected with the decoder's error.
    ensures msg.payload.Some? && codec.decode(msg.payload.value).Failure? ==>
              r == Failure(Json(codec.decode(msg.payload.value).error))
    // Any accepted record came from a decoded payload, keeps its source
    // fields, and has both enrichment fields present.
    ensures r.Success? ==>
              && msg.payload.Some?
              && codec.decode(msg.payload.value).Success?
              && SameSource(r.value, codec.decode(msg.payload.value).value)
              && Enriched(r.value)
    // A decoded non-English record always passes, with empty enrichment.
    ensures msg.payload.Some? && codec.decode(msg.payload.value).Success? &&
            TargetLanguage !in codec.decode(msg.payload.value).value.languages ==>
              && r.Success?
              && r.value.sentiment == Some([])
              && r.value.keywords == Some([])
    // A decoded English record is annotated from its text and returned
    // exactly when the annotated record serialises.
    ensures msg.payload.Some? && codec.decode(msg.payload.value).Success? &&
            TargetLanguage in codec.decode(msg.payload.value).value.languages ==>
              var rec := codec.decode(msg.payload.value).value;
              && (r.Success? <==> codec.encode(Annotate(rec, models)).Success?)
              && (r.Success? ==>
                    && r.value.sentiment == CalculateSentiment(rec.text, models.compound)
                    && r.value.keywords == CalculateKeywords(rec.text, models.keywordModel))
              && (r.Failure? ==> r.error == Json(codec.encode(Annotate(rec, models)).error))
  {
    match msg.payload
    case None => Failure(InvalidInput)
    case Some(payload) =>
      match codec.decode(payload)
      case Failure(e) => Failure(Json(e))
      case Success(rec) =>
        if TargetLanguage in rec.languages then
          var enriched := Annotate(rec, models);
          match codec.encode(enriched)
          case Success(_) => Success(enriched)
          case Failure(e) => Failure(Json(e))
        else
          Success(PassThrough(rec))
  }

  /** A rejected message never reaches the models or the encoder: the outcome
      is the same whatever they are. */
  lemma RejectionIgnoresModels(msg: Message, m1: Models, m2: Models, c1: Codec, c2: Codec)
    requires msg.payload.Some? ==> c1.decode(msg.payload.value) == c2.decode(msg.payload.value)
    requires msg.payload.Some? ==> c1.decode(msg.payload.value).Failure?
    ensures EnrichRecord(msg, m1, c1).Failure?
    ensures EnrichRecord(msg, m1, c1) == EnrichRecord(msg, m2, c2)
  {
  }

  /** The pass-through path consults neither model nor the encoder: the
      outcome is the same whatever they are. */
  lemma PassThroughIgnoresModels(msg: Message, m1: Models, m2: Models, c1: Codec, c2: Codec)
    requires msg.payload.Some?
    requires c1.decode(msg.payload.value) == c2.decode(msg.payload.value)
    requires c1.decode(msg.payload.value).Success?
    requires TargetLanguage !in c1.decode(msg.payload.value).value.languages
    ensures EnrichRecord(msg, m1, c1) == EnrichRecord(msg, m2, c2)
    ensures EnrichRecord(msg, m1, c1) == Success(PassThrough(c1.decode(msg.payload.value).value))
  {
  }

  /** The enrichment fields are computed independently: a keyword model that
      fails leaves the sentiment label in place and only empties keywords. */
  lemma KeywordFailureKeepsSentiment(msg: Message, models: Models, codec: Codec)
    requires msg.payload.Some? && codec.decode(msg.payload.value).Success?
    requires TargetLanguage in codec.decode(msg.payload.value).value.languages
    requires models.keywordModel(codec.decode(msg.payload.value).value.text).Failure?
    requires EnrichRecord(msg, models, codec).Success?
    ensures EnrichRecord(msg, models, codec).value.keywords == Some([])
    ensures |EnrichRecord(msg, models, codec).value.sentiment.value| == 1
  {
  }

  /** Models under which every text scores 0.6 and yields the single
      keyword "news" with score 0.45. */
  const NewsModels: Models := Models(t => Success([[Keyword("news", 0.45)]]), t => 0.6)

  /** An English post whose text scores clearly positive and whose only
      predicted keyword scores 0.45 comes out labelled Positive with that
      keyword, provided its annotated form serialises. */
  lemma PositiveNewsExample(msg: Message, codec: Codec)
    requires msg.payload.Some? && codec.decode(msg.payload.value).Success?
    requires codec.decode(msg.payload.value).value.text == "great news today"
    requires codec.decode(msg.payload.value).value.languages == ["English"]
    requires codec.encode(Annotate(codec.decode(msg.payload.value).value, NewsModels)).Success?
    ensures
      var r := EnrichRecord(msg, NewsModels, codec);
      r.Success? && r.value.sentiment == Some(["Positive"]) && r.value.keywords == Some(["news"])
  {
    var batch := [Keyword("news", 0.45)];
    assert KeepConfident(batch) == ["news"] by {
      assert batch[1..] == [];
    }
  }
}
