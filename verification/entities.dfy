/** The value objects exchanged between the services and the web client
    (`common/models.py` and `types/ai-types.ts`), and FastAPI's `HTTPException`. */
module Entities {
  import opened Wrappers

  /** One customer segment. Its averages are floating-point values in the
      source; the model keeps them as opaque reals and never computes on them. */
  datatype Segment = Segment(
    name: string,
    size: int,
    avgPurchaseValue: real,
    purchaseFrequency: real,
    description: string)

  /** `MarketSegmentationInsightsOutput`: the insights text plus its segments. */
  datatype Analysis = Analysis(textualInsights: string, segments: seq<Segment>)

  datatype DataTreatment = DataTreatment(normalize: bool, excludeNulls: bool, groupCategories: bool)

  /** `MarketSegmentationInsightsInput`: the CSV sample and the requested treatment. */
  datatype AnalysisInput = AnalysisInput(
    clusterData: string,
    dataTreatment: DataTreatment,
    numberOfClusters: int)

  /** Store timestamps are opaque and only compared; whole seconds stand in for them. */
  type Timestamp = int

  datatype AnalysisMetadata = AnalysisMetadata(
    id: int,
    timestamp: Timestamp,
    numberOfClusters: int,
    originalDataSnippet: string)

  /** The public view of a user account (no password hash). */
  datatype User = User(id: int, email: string, name: Option<string>, avatarUrl: Option<string>)

  /** FastAPI's `HTTPException(status_code, detail, headers)`. */
  datatype HttpException = HttpException(status: int, detail: string, headers: map<string, string>)

  const BadRequest := 400
  const Unauthorized := 401
  const NotFound := 404
  const InternalServerError := 500

  /** What a request handler leaves behind: the state of the store after the
      request, and the response or the HTTP error. */
  datatype Handled<S, T> = Handled(state: S, reply: Result<T, HttpException>)
}
