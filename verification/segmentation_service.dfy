/** The segmentation service's three endpoints: generate-and-save, list, and
    fetch one analysis. Each maps the store's and the generator's outcome to a
    response body or an HTTP error. The generator's outcome and the exceptions
    the database raises are parameters. */
module SegmentationService {
  import opened Wrappers
  import opened Entities
  import opened AnalysisStore

  /** What the generator raises: a `ValueError` (an empty reply, a reply that is
      not JSON, or JSON that fails the output schema, since pydantic's
      validation error is a `ValueError`) or anything else. */
  datatype GenerationFailure = ValueError(message: string) | OtherException(message: string)

  const ProcessingErrorPrefix: string := "Erro ao processar a solicitação: "
  const ListErrorPrefix: string := "Erro ao buscar análises: "
  const FetchErrorPrefix: string := "Erro ao buscar análise: "
  const AnalysisNotFound: string := "Análise não encontrada"

  function ServerError(detail: string): HttpException {
    HttpException(InternalServerError, detail, map[])
  }

  /** `POST /api/segmentation-insights`. `saveFault` is the exception
      `save_analysis` raises, if any; it is logged and swallowed, and its
      transaction leaves the store unchanged. */
  function SegmentationInsights(
    s: Store,
    input: AnalysisInput,
    generated: Result<Analysis, GenerationFailure>,
    saveFault: Option<string>,
    now: Timestamp): (h: Handled<Store, Analysis>)
    ensures h.reply.Ok? <==> generated.Ok?
    ensures generated.Ok? ==> h.reply.value == generated.value
    ensures generated.Ok? && saveFault.None? ==> h.state == SaveAnalysis(s, input, generated.value, now).store
    ensures generated.Err? || saveFault.Some? ==> h.state == s
    ensures generated.Err? ==> h.reply.error.status == InternalServerError
    ensures generated.Err? && generated.error.ValueError? ==> h.reply.error.detail == generated.error.message
    ensures generated.Err? && generated.error.OtherException? ==>
      h.reply.error.detail == ProcessingErrorPrefix + generated.error.message
  {
    match generated
    case Ok(output) =>
      var store := if saveFault.None? then SaveAnalysis(s, input, output, now).store else s;
      Handled(store, Ok(output))
    case Err(ValueError(message)) => Handled(s, Err(ServerError(message)))
    case Err(OtherException(message)) => Handled(s, Err(ServerError(ProcessingErrorPrefix + message)))
  }

  /** A failed save never changes what the client receives. */
  lemma SaveFaultInvisible(
    s: Store, input: AnalysisInput, generated: Result<Analysis, GenerationFailure>,
    f1: Option<string>, f2: Option<string>, now: Timestamp)
    ensures SegmentationInsights(s, input, generated, f1, now).reply
         == SegmentationInsights(s, input, generated, f2, now).reply
  {
  }

  /** `GET /api/segmentation-analyses`; `fault` is the exception the query raises, if any. */
  function ListAnalyses(s: Store, fault: Option<string>): (r: Result<seq<AnalysisMetadata>, HttpException>)
    ensures fault.None? ==> r == Ok(GetAllAnalyses(s))
    ensures fault.Some? ==> r == Err(ServerError(ListErrorPrefix + fault.value))
  {
    if fault.Some? then Err(ServerError(ListErrorPrefix + fault.value)) else Ok(GetAllAnalyses(s))
  }

  /** `GET /api/segmentation-analyses/{id}`. The 404 raised for a missing id is
      re-raised as it is, not turned into a 500. */
  function GetAnalysis(s: Store, id: int, fault: Option<string>): (r: Result<Analysis, HttpException>)
    ensures fault.None? && !HasAnalysis(s, id) ==> r == Err(HttpException(NotFound, AnalysisNotFound, map[]))
    ensures fault.None? && HasAnalysis(s, id) ==> r == Ok(GetAnalysisById(s, id).value)
    ensures fault.Some? ==> r == Err(ServerError(FetchErrorPrefix + fault.value))
    ensures r.Err? ==> (r.error.status == NotFound <==> fault.None?)
  {
    if fault.Some? then Err(ServerError(FetchErrorPrefix + fault.value))
    else
      match GetAnalysisById(s, id)
      case None => Err(HttpException(NotFound, AnalysisNotFound, map[]))
      case Some(analysis) => Ok(analysis)
  }

  /** An analysis generated and saved without fault can be fetched back by the
      id the save handed out, with the same insights and segments. */
  lemma {:induction false} GenerateThenFetch(s: Store, input: AnalysisInput, output: Analysis, now: Timestamp)
    requires Valid(s)
    ensures var h := SegmentationInsights(s, input, Ok(output), None, now);
      var r := GetAnalysis(h.state, s.nextId, None);
      && r.Ok?
      && r.value.textualInsights == output.textualInsights
      && multiset(r.value.segments) == multiset(output.segments)
  {
    SaveThenGet(s, input, output, now);
  }
}
