/** The server actions behind the strategies form and the segmentation page:
    they validate their input and only then call the generator, and they turn
    its outcome into the state record the page renders. The generators are
    oracles: a function from the validated input to an output or an error. */
module FormActions {
  import opened Wrappers
  import opened Entities

  /** `z.string().min(10)` on both strategy fields. */
  const MinLength: nat := 10

  const SegmentAttributesTooShort: string := "Por favor, forneça mais detalhes sobre o segmento de clientes."
  const CampaignObjectivesTooShort: string := "Por favor, forneça mais detalhes sobre os objetivos da campanha."
  const InvalidFormMessage: string := "Dados do formulário inválidos."
  const SuccessMessage: string := "success"
  const GenerationFailedMessage: string := "Ocorreu um erro ao gerar as estratégias."

  /** What `FormData.get(name)` yields: nothing, a text entry or an uploaded file. */
  datatype FormValue = Missing | Text(text: string) | Upload

  datatype Form = Form(customerSegmentAttributes: FormValue, campaignObjectives: FormValue)

  /** A schema issue: the value is not a string, or the string is too short. */
  datatype Issue = NotAString | TooShort(message: string)

  /** `error.flatten().fieldErrors`; an empty list stands for an absent key. */
  datatype FieldErrors = FieldErrors(customerSegmentAttributes: seq<Issue>, campaignObjectives: seq<Issue>)

  datatype StrategiesInput = StrategiesInput(customerSegmentAttributes: string, campaignObjectives: string)

  datatype StrategiesState = StrategiesState(
    message: Option<string>,
    strategies: Option<seq<string>>,
    errors: Option<FieldErrors>)

  predicate ValidField(v: FormValue) {
    v.Text? && |v.text| >= MinLength
  }

  /** The issues one field schema reports for one value. */
  function CheckField(v: FormValue, tooShort: string): (issues: seq<Issue>)
    ensures issues == [] <==> ValidField(v)
    ensures |issues| <= 1
    ensures issues != [] && v.Text? ==> issues == [TooShort(tooShort)]
    ensures !v.Text? ==> issues == [NotAString]
  {
    match v
    case Text(s) => if |s| < MinLength then [TooShort(tooShort)] else []
    case _ => [NotAString]
  }

  /** `strategiesSchema.safeParse`: the validated input, or every field's issues. */
  function ParseStrategies(form: Form): (r: Result<StrategiesInput, FieldErrors>)
    ensures r.Ok? <==> ValidField(form.customerSegmentAttributes) && ValidField(form.campaignObjectives)
    ensures r.Ok? ==> r.value == StrategiesInput(form.customerSegmentAttributes.text, form.campaignObjectives.text)
    ensures r.Err? ==> r.error.customerSegmentAttributes == CheckField(form.customerSegmentAttributes, SegmentAttributesTooShort)
    ensures r.Err? ==> r.error.campaignObjectives == CheckField(form.campaignObjectives, CampaignObjectivesTooShort)
  {
    var a := CheckField(form.customerSegmentAttributes, SegmentAttributesTooShort);
    var b := CheckField(form.campaignObjectives, CampaignObjectivesTooShort);
    if a == [] && b == [] then
      Ok(StrategiesInput(form.customerSegmentAttributes.text, form.campaignObjectives.text))
    else
      Err(FieldErrors(a, b))
  }

  /** `getMarketingStrategies`. The previous state is accepted and ignored. */
  function GetMarketingStrategies(
    prev: StrategiesState,
    form: Form,
    generate: StrategiesInput -> Result<seq<string>, string>): (r: StrategiesState)
    ensures r.message == Some(InvalidFormMessage) <==> ParseStrategies(form).Err?
    ensures r.errors.Some? <==> ParseStrategies(form).Err?
    ensures r.errors.Some? ==> r.strategies.None?
    ensures r.errors.Some? ==>
      r.errors.value == FieldErrors(
        CheckField(form.customerSegmentAttributes, SegmentAttributesTooShort),
        CheckField(form.campaignObjectives, CampaignObjectivesTooShort))
    ensures r.strategies.Some? <==> r.message == Some(SuccessMessage)
    ensures r.strategies.Some? ==>
      generate(StrategiesInput(form.customerSegmentAttributes.text, form.campaignObjectives.text))
        == Ok(r.strategies.value)
    ensures r.message == Some(GenerationFailedMessage) ==> r.strategies.None? && r.errors.None?
    ensures ParseStrategies(form).Ok? ==>
      var g := generate(ParseStrategies(form).value);
      r == if g.Ok? then StrategiesState(Some(SuccessMessage), Some(g.value), None)
           else StrategiesState(Some(GenerationFailedMessage), None, None)
  {
    match ParseStrategies(form)
    case Err(fieldErrors) => StrategiesState(Some(InvalidFormMessage), None, Some(fieldErrors))
    case Ok(input) =>
      match generate(input)
      case Ok(strategies) => StrategiesState(Some(SuccessMessage), Some(strategies), None)
      case Err(_) => StrategiesState(Some(GenerationFailedMessage), None, None)
  }

  /** An invalid form never reaches the generator: any two generators give the same state. */
  lemma InvalidFormSkipsGenerator(
    prev: StrategiesState,
    form: Form,
    g1: StrategiesInput -> Result<seq<string>, string>,
    g2: StrategiesInput -> Result<seq<string>, string>)
    requires !ValidField(form.customerSegmentAttributes) || !ValidField(form.campaignObjectives)
    ensures GetMarketingStrategies(prev, form, g1) == GetMarketingStrategies(prev, form, g2)
  {
  }

  /** A valid form passes exactly its two fields to the generator, and the
      state depends on nothing but the generator's answer for them. */
  lemma ValidFormUsesOnlyItsFields(
    form: Form,
    p1: StrategiesState,
    p2: StrategiesState,
    g1: StrategiesInput -> Result<seq<string>, string>,
    g2: StrategiesInput -> Result<seq<string>, string>)
    requires ValidField(form.customerSegmentAttributes) && ValidField(form.campaignObjectives)
    requires var input := StrategiesInput(form.customerSegmentAttributes.text, form.campaignObjectives.text);
      g1(input) == g2(input)
    ensures GetMarketingStrategies(p1, form, g1) == GetMarketingStrategies(p2, form, g2)
  {
  }

  /** Each field's errors reflect only its own value: changing the other field
      leaves them as they are, as long as the form stays invalid. */
  lemma FieldErrorsIndependent(
    prev: StrategiesState,
    form: Form,
    other: FormValue,
    generate: StrategiesInput -> Result<seq<string>, string>)
    requires !ValidField(form.customerSegmentAttributes)
    ensures var a := GetMarketingStrategies(prev, form, generate);
      var b := GetMarketingStrategies(prev, form.(campaignObjectives := other), generate);
      a.errors.Some? && b.errors.Some?
      && a.errors.value.customerSegmentAttributes == b.errors.value.customerSegmentAttributes
  {
  }

  /** The symmetric case: the second field's errors do not depend on the first
      field, as long as the form stays invalid. */
  lemma CampaignErrorsIndependent(
    prev: StrategiesState,
    form: Form,
    other: FormValue,
    generate: StrategiesInput -> Result<seq<string>, string>)
    requires !ValidField(form.campaignObjectives)
    ensures var a := GetMarketingStrategies(prev, form, generate);
      var b := GetMarketingStrategies(prev, form.(customerSegmentAttributes := other), generate);
      a.errors.Some? && b.errors.Some?
      && a.errors.value.campaignObjectives == b.errors.value.campaignObjectives
  {
  }

  /** The state of the segmentation page's action. */
  datatype SegmentationState = SegmentationState(success: bool, analysis: Option<Analysis>)

  /** `getSegmentationInsights`: an empty CSV is refused before the flow runs. */
  function GetSegmentationInsights(
    clusterData: string,
    dataTreatment: DataTreatment,
    numberOfClusters: int,
    flow: AnalysisInput -> Result<Analysis, string>): (r: SegmentationState)
    ensures clusterData == [] ==> r == SegmentationState(false, None)
    ensures r.success <==> r.analysis.Some?
    ensures r.success <==>
      clusterData != [] && flow(AnalysisInput(clusterData, dataTreatment, numberOfClusters)).Ok?
    ensures r.success ==>
      r.analysis.value == flow(AnalysisInput(clusterData, dataTreatment, numberOfClusters)).value
  {
    if clusterData == [] then SegmentationState(false, None)
    else
      match flow(AnalysisInput(clusterData, dataTreatment, numberOfClusters))
      case Ok(result) => SegmentationState(true, Some(result))
      case Err(_) => SegmentationState(false, None)
  }

  /** An empty CSV never reaches the flow. */
  lemma EmptyDataSkipsFlow(
    dataTreatment: DataTreatment,
    numberOfClusters: int,
    f1: AnalysisInput -> Result<Analysis, string>,
    f2: AnalysisInput -> Result<Analysis, string>)
    ensures GetSegmentationInsights([], dataTreatment, numberOfClusters, f1)
         == GetSegmentationInsights([], dataTreatment, numberOfClusters, f2)
  {
  }
}
