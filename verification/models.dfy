/**
 * Model access (app/assistant/controller/model_service.py): the local Phi-3 generator, the
 * Gemini query analyser and the cross-encoder reranker, each an oracle held by the service,
 * with the fallback each call takes when the model is missing or raises.
 */
module Models {
  import opened Wrappers
  import opened Text
  import opened State

  type Token = int

  /**
   * The local Phi-3 model and its tokenizer: the chat template applied to (question, context),
   * encoding, generation of at most `n` new tokens (`None` when it raises; the output starts
   * with the prompt's ids) and decoding with special tokens skipped.
   */
  datatype Phi3 = Phi3(
    chatPrompt: (string, string) -> string,
    encode: string -> seq<Token>,
    generate: (seq<Token>, nat) -> Option<seq<Token>>,
    decode: seq<Token> -> string)

  /** What Gemini's structured-output call gives back. */
  datatype StructuredReply = Parsed(value: QueryConstruct) | NoStructuredOutput | CallFailed

  /** Gemini asked for a `QueryConstruct`, given (conversation context, latest query). */
  datatype Gemini = Gemini(structured: (string, string) -> StructuredReply)

  /** The cross-encoder: one score per [query, document] pair; `None` when it raises. */
  datatype CrossEncoder = CrossEncoder(predict: seq<(string, string)> -> Option<seq<real>>)

  const EndMarker: string := "<|end|>"
  const GenerationApology: string :=
    "I apologize, but I " + "encountered an error " + "while generating a response."
  const CudaMissing: string := "CUDA is not available. Cannot load Phi-3 model."
  const NeutralScore: real := 0.5
  const MaxNewTokens: nat := 512

  /** `outputs[0][len(prompt_ids):]`, with Python's slice past the end giving `[]`. */
  function ResponseTokens(output: seq<Token>, promptLength: nat): (r: seq<Token>)
    ensures |r| == if promptLength <= |output| then |output| - promptLength else 0
    ensures forall i :: 0 <= i < |r| ==> r[i] == output[promptLength + i]
  {
    if promptLength <= |output| then output[promptLength..] else []
  }

  /** When the output echoes the prompt, the response is exactly the continuation. */
  lemma ResponseTokensAfterPrompt(prompt: seq<Token>, continuation: seq<Token>)
    ensures ResponseTokens(prompt + continuation, |prompt|) == continuation
  {
    assert (prompt + continuation)[|prompt|..] == continuation;
  }

  /** `decoded.replace("<|end|>", "").strip()`. */
  function PostProcess(decoded: string): (r: string)
    ensures TrimmedBy(r, IsSpace)
    ensures |r| <= |decoded|
    ensures !Contains(decoded, EndMarker) ==> r == Strip(decoded)
  {
    assert !Contains(decoded, EndMarker) ==> RemoveAll(decoded, EndMarker) == decoded by {
      if !Contains(decoded, EndMarker) {
        RemoveAllAbsent(decoded, EndMarker);
      }
    }
    RemoveAllShrinks(decoded, EndMarker);
    Strip(RemoveAll(decoded, EndMarker))
  }

  /** `"<|en<|end|>d|>"`: removing the inner marker joins its two halves into a new one. */
  const Reformed: string := "<|en" + EndMarker + "d|>"

  /** A single `replace` pass can join two fragments into a new end marker. */
  lemma EndMarkerCanReappear()
    ensures PostProcess(Reformed) == EndMarker
  {
    ReplaceLeavesMarker();
    MarkerIsTrimmed();
  }

  /** `"<|en<|end|>d|>".replace("<|end|>", "")` is `"<|end|>"`. */
  lemma ReplaceLeavesMarker()
    ensures RemoveAll(Reformed, EndMarker) == EndMarker
  {
    var inner := EndMarker + "d|>";
    RemoveAfterEn();
    assert EndMarker[4] == 'd';
    assert (['<'] + ("|en" + inner))[4] == inner[0] == '<';
    KeepsHead('<', "|en" + inner, 4);
    assert "|en" + inner == "|en" + EndMarker + "d|>";
    assert RemoveAll(Reformed, EndMarker) == ['<'] + RemoveAll("|en" + inner, EndMarker) by {
      assert ['<'] + ("|en" + inner) == Reformed;
    }
    assert ['<'] + "|end|>" == EndMarker;
  }

  lemma RemoveAfterEn()
    ensures RemoveAll("|en" + EndMarker + "d|>", EndMarker) == "|end|>"
  {
    var inner := EndMarker + "d|>";
    RemoveAfterN();
    assert EndMarker[0] == '<';
    KeepsHead('e', "n" + inner, 0);
    assert ['e'] + ("n" + inner) == "en" + inner;
    KeepsHead('|', "en" + inner, 0);
    assert ['|'] + ("en" + inner) == "|en" + EndMarker + "d|>";
  }

  lemma RemoveAfterN()
    ensures RemoveAll("n" + EndMarker + "d|>", EndMarker) == "nd|>"
  {
    var inner := EndMarker + "d|>";
    assert inner[..|EndMarker|] == EndMarker && inner[|EndMarker|..] == "d|>";
    assert RemoveAll(inner, EndMarker) == "d|>";
    assert EndMarker[0] == '<';
    KeepsHead('n', inner, 0);
    assert ['n'] + inner == "n" + EndMarker + "d|>";
  }

  /** A character that cannot start a marker there is kept by the removal. */
  lemma KeepsHead(c: char, t: string, j: nat)
    requires j < |EndMarker|
    requires |t| >= |EndMarker| - 1 ==> ([c] + t)[j] != EndMarker[j]
    ensures RemoveAll([c] + t, EndMarker) == [c] + RemoveAll(t, EndMarker)
  {
    var u := [c] + t;
    if |u| < |EndMarker| {
      assert RemoveAll(u, EndMarker) == u;
      assert RemoveAll(t, EndMarker) == t;
    } else {
      assert u[..|EndMarker|][j] != EndMarker[j];
      assert u[1..] == t;
    }
  }

  lemma MarkerIsTrimmed()
    ensures Strip(EndMarker) == EndMarker
  {
    assert !IsSpace(EndMarker[0]) && !IsSpace(EndMarker[6]);
  }

  lemma ApologyIsTrimmed()
    ensures TrimmedBy(GenerationApology, IsSpace)
  {
    assert GenerationApology[0] == 'I';
    assert GenerationApology[|GenerationApology| - 1] == '.';
  }

  /** The pairs handed to the cross-encoder: one `[query, doc]` per document, in order. */
  function Pairs(query: string, documents: seq<string>): (pairs: seq<(string, string)>)
    ensures |pairs| == |documents|
    ensures forall i :: 0 <= i < |documents| ==> pairs[i] == (query, documents[i])
  {
    if documents == [] then [] else [(query, documents[0])] + Pairs(query, documents[1..])
  }

  /** `[0.5] * n`. */
  function NeutralScores(n: nat): seq<real>
  {
    seq(n, _ => NeutralScore)
  }

  /**
   * The service holding the loaded models; `None` before `initialize` and after `cleanup`. Its
   * inference methods only read these handles, so they are the functions below, applied to the
   * handle they use.
   */
  class ModelService {
    var phi3: Option<Phi3>
    var reranker: Option<CrossEncoder>
    var gemini: Option<Gemini>

    constructor ()
      ensures phi3 == None && reranker == None && gemini == None
    {
      phi3, reranker, gemini := None, None, None;
    }

    /** `initialize`: Phi-3 is loaded first and needs CUDA; without it nothing is loaded. */
    method Initialize(cudaAvailable: bool, phi3Model: Phi3, rerankerModel: CrossEncoder, geminiModel: Gemini)
      returns (r: Result<()>)
      modifies this
      ensures !cudaAvailable ==> r == Failed(CudaMissing) && phi3 == old(phi3) && reranker == old(reranker) && gemini == old(gemini)
      ensures cudaAvailable ==> r == Ok(()) && phi3 == Some(phi3Model) && reranker == Some(rerankerModel) && gemini == Some(geminiModel)
    {
      if !cudaAvailable {
        return Failed(CudaMissing);
      }
      phi3 := Some(phi3Model);
      reranker := Some(rerankerModel);
      gemini := Some(geminiModel);
      return Ok(());
    }

    /** `cleanup`: every model reference is dropped. */
    method Cleanup()
      modifies this
      ensures phi3 == None && reranker == None && gemini == None
    {
      phi3, reranker, gemini := None, None, None;
    }
  }

  /**
   * `run_phi3_inference_sync` with the loaded Phi-3 handle `phi3`: the post-processed decoding
   * of the tokens generated after the prompt, or the fixed apology when the model is missing or
   * any step raises.
   */
  function RunPhi3Inference(phi3: Option<Phi3>, question: string, context: string, maxNewTokens: nat): (r: string)
    ensures TrimmedBy(r, IsSpace)
    ensures phi3.None? ==> r == GenerationApology
    ensures phi3.Some? ==>
      var p := phi3.value;
      var ids := p.encode(p.chatPrompt(question, context));
      match p.generate(ids, maxNewTokens)
      case None => r == GenerationApology
      case Some(output) =>
        (forall continuation :: output == ids + continuation ==> r == PostProcess(p.decode(continuation)))
  {
    ApologyIsTrimmed();
    match phi3
    case None => GenerationApology
    case Some(p) =>
      var ids := p.encode(p.chatPrompt(question, context));
      match p.generate(ids, maxNewTokens)
      case None => GenerationApology
      case Some(output) =>
        var r := PostProcess(p.decode(ResponseTokens(output, |ids|)));
        assert forall continuation :: output == ids + continuation ==> r == PostProcess(p.decode(continuation)) by {
          forall continuation | output == ids + continuation
            ensures r == PostProcess(p.decode(continuation))
          {
            ResponseTokensAfterPrompt(ids, continuation);
          }
        }
        r
  }

  /**
   * `analyze_query_sync` with the loaded Gemini client `gemini`: its structured reply; when the
   * call raises, the verbatim query with an empty filter. A missing client raises before the
   * guarded call.
   */
  function AnalyzeQuery(gemini: Option<Gemini>, query: string, conversationContext: string): (r: Result<Option<QueryConstruct>>)
    ensures r.Failed? <==> gemini.None?
    ensures gemini.Some? ==>
      match gemini.value.structured(conversationContext, query)
      case CallFailed => r == Ok(Some(QueryConstruct(NoFilter, query)))
      case NoStructuredOutput => r == Ok(None)
      case Parsed(q) => r == Ok(Some(q))
  {
    match gemini
    case None => Failed("'NoneType' object has no attribute 'with_structured_output'")
    case Some(g) =>
      match g.structured(conversationContext, query)
      case Parsed(q) => Ok(Some(q))
      case NoStructuredOutput => Ok(None)
      case CallFailed => Ok(Some(QueryConstruct(NoFilter, query)))
  }

  /** The reranker is missing or raised on the pairs for `documents`. */
  predicate RerankFails(reranker: Option<CrossEncoder>, query: string, documents: seq<string>)
  {
    reranker.None? || reranker.value.predict(Pairs(query, documents)).None?
  }

  /**
   * `rerank_documents_sync` with the loaded cross-encoder `reranker`: its scores for one pair
   * per document; on failure exactly one neutral 0.5 per document.
   */
  function RerankDocuments(reranker: Option<CrossEncoder>, query: string, documents: seq<string>): (scores: seq<real>)
    ensures RerankFails(reranker, query, documents) ==>
      |scores| == |documents| && forall i :: 0 <= i < |scores| ==> scores[i] == NeutralScore
    ensures !RerankFails(reranker, query, documents) ==>
      Some(scores) == reranker.value.predict(Pairs(query, documents))
  {
    if RerankFails(reranker, query, documents) then NeutralScores(|documents|)
    else reranker.value.predict(Pairs(query, documents)).value
  }
}
