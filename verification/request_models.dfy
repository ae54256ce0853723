/**
 * The request bodies of the HTTP tools and their declarative field constraints. Each
 * body arrives as decoded JSON whose keys may be missing, null or set; parsing applies
 * the defaults, checks every constraint and reports the names of the fields that fail,
 * in declaration order, or yields the validated parameters.
 */
module RequestModels {
  import opened Wrappers
  import opened Fields

  /** Largest page a search may ask for, and the default. */
  const MaxPageSize: int := 200
  const DefaultPageSize: int := 25
  const DefaultPageNumber: int := 1
  const DefaultFormat: string := "abridged"
  const MinCompare: nat := 2
  const MaxCompare: nat := 5
  const MinApiKeyLength: nat := 10
  const AgentTypes: set<string> := {"claude", "openai", "langchain"}

  /** The failing field list contributed by one constraint. */
  function Check(ok: bool, name: string): seq<string> {
    if ok then [] else [name]
  }

  /** The outcome of parsing: the parameters, or the names of the fields that failed. */
  function Outcome<P>(errors: seq<string>, p: P): (r: Result<P, seq<string>>)
    ensures r.Success? <==> errors == []
    ensures r.Success? ==> r.value == p
    ensures r.Failure? ==> r.error == errors
  {
    if errors == [] then Success(p) else Failure(errors)
  }

  // ---------------------------------------------------------------- SearchParams

  datatype SearchInput = SearchInput(query: Field<string>, dataType: Field<seq<string>>, pageSize: Field<int>, pageNumber: Field<int>)

  datatype SearchParams = SearchParams(query: string, dataType: Option<seq<string>>, pageSize: Option<int>, pageNumber: Option<int>)

  /** A given value of an optional field satisfies the bounds; missing and null always do. */
  predicate InRange(f: Field<int>, lo: int, hi: Option<int>) {
    f.Present? ==> lo <= f.value && (hi.Some? ==> f.value <= hi.value)
  }

  function ParseSearch(i: SearchInput): (r: Result<SearchParams, seq<string>>)
    ensures r.Success? <==>
      && i.query.Present? && |i.query.value| >= 1
      && (i.pageSize.Present? ==> 1 <= i.pageSize.value <= MaxPageSize)
      && (i.pageNumber.Present? ==> 1 <= i.pageNumber.value)
    ensures r.Success? ==>
      && r.value.query == i.query.value
      && r.value.dataType == i.dataType.Get()
      && r.value.pageSize == (if i.pageSize.Absent? then Some(DefaultPageSize) else i.pageSize.Get())
      && r.value.pageNumber == (if i.pageNumber.Absent? then Some(DefaultPageNumber) else i.pageNumber.Get())
    ensures r.Failure? ==>
      && ("query" in r.error <==> !(i.query.Present? && |i.query.value| >= 1))
      && ("page_size" in r.error <==> !(i.pageSize.Present? ==> 1 <= i.pageSize.value <= MaxPageSize))
      && ("page_number" in r.error <==> !(i.pageNumber.Present? ==> 1 <= i.pageNumber.value))
  {
    var errors :=
      Check(i.query.Present? && |i.query.value| >= 1, "query")
      + Check(InRange(i.pageSize, 1, Some(MaxPageSize)), "page_size")
      + Check(InRange(i.pageNumber, 1, None), "page_number");
    Outcome(errors, SearchParams(
      if i.query.Present? then i.query.value else "",
      i.dataType.Get(),
      i.pageSize.GetOr(DefaultPageSize),
      i.pageNumber.GetOr(DefaultPageNumber)))
  }

  /** A field set to an optional value, as a dump of the model writes it: None becomes null. */
  function Dumped<T>(o: Option<T>): (f: Field<T>)
    ensures f.Get() == o && !f.Absent?
  {
    match o
    case None => Null
    case Some(v) => Present(v)
  }

  ghost predicate ValidSearch(p: SearchParams) {
    && |p.query| >= 1
    && (p.pageSize.Some? ==> 1 <= p.pageSize.value <= MaxPageSize)
    && (p.pageNumber.Some? ==> 1 <= p.pageNumber.value)
  }

  /** Parsed parameters satisfy the constraints, and dumping and re-parsing them gives them back. */
  lemma SearchRoundTrip(i: SearchInput)
    ensures ParseSearch(i).Success? ==> ValidSearch(ParseSearch(i).value)
    ensures forall p :: ValidSearch(p) ==>
      ParseSearch(SearchInput(Present(p.query), Dumped(p.dataType), Dumped(p.pageSize), Dumped(p.pageNumber))) == Success(p)
  {
  }

  /** An omitted page size is the default of 25 and a given one is within [1, 200]. */
  lemma SearchPageSize(i: SearchInput)
    requires ParseSearch(i).Success?
    ensures var ps := ParseSearch(i).value.pageSize;
      (i.pageSize.Absent? ==> ps == Some(DefaultPageSize)) && (ps.Some? ==> 1 <= ps.value <= MaxPageSize)
  {
  }

  // ---------------------------------------------------------------- FoodDetailParams

  datatype FoodDetailInput = FoodDetailInput(fdcId: Field<int>, format: Field<string>)

  datatype FoodDetailParams = FoodDetailParams(fdcId: int, format: Option<string>)

  /** The format pattern `^(abridged|full)$`, which a null format skips. */
  predicate FormatOk(f: Field<string>) {
    f.Present? ==> f.value == "abridged" || f.value == "full"
  }

  function ParseFoodDetail(i: FoodDetailInput): (r: Result<FoodDetailParams, seq<string>>)
    ensures r.Success? <==> i.fdcId.Present? && i.fdcId.value > 0 && FormatOk(i.format)
    ensures r.Success? ==>
      && r.value.fdcId == i.fdcId.value
      && r.value.format == (if i.format.Absent? then Some(DefaultFormat) else i.format.Get())
    ensures r.Failure? ==>
      && ("fdc_id" in r.error <==> !(i.fdcId.Present? && i.fdcId.value > 0))
      && ("format" in r.error <==> !FormatOk(i.format))
  {
    var errors := Check(i.fdcId.Present? && i.fdcId.value > 0, "fdc_id") + Check(FormatOk(i.format), "format");
    Outcome(errors, FoodDetailParams(if i.fdcId.Present? then i.fdcId.value else 0, i.format.GetOr(DefaultFormat)))
  }

  ghost predicate ValidFoodDetail(p: FoodDetailParams) {
    p.fdcId > 0 && (p.format.Some? ==> p.format.value in {"abridged", "full"})
  }

  lemma FoodDetailRoundTrip(i: FoodDetailInput)
    ensures ParseFoodDetail(i).Success? ==> ValidFoodDetail(ParseFoodDetail(i).value)
    ensures forall p :: ValidFoodDetail(p) ==>
      ParseFoodDetail(FoodDetailInput(Present(p.fdcId), Dumped(p.format))) == Success(p)
  {
  }

  // ---------------------------------------------------------------- CompareFoodsParams

  datatype CompareFoodsInput = CompareFoodsInput(fdcIds: Field<seq<int>>)

  datatype CompareFoodsParams = CompareFoodsParams(fdcIds: seq<int>)

  function ParseCompareFoods(i: CompareFoodsInput): (r: Result<CompareFoodsParams, seq<string>>)
    ensures r.Success? <==> i.fdcIds.Present? && MinCompare <= |i.fdcIds.value| <= MaxCompare
    ensures r.Success? ==> r.value.fdcIds == i.fdcIds.value
    ensures r.Failure? ==> r.error == ["fdc_ids"]
  {
    Outcome(
      Check(i.fdcIds.Present? && MinCompare <= |i.fdcIds.value| <= MaxCompare, "fdc_ids"),
      CompareFoodsParams(if i.fdcIds.Present? then i.fdcIds.value else []))
  }

  lemma CompareFoodsRoundTrip(i: CompareFoodsInput)
    ensures ParseCompareFoods(i).Success? ==> MinCompare <= |ParseCompareFoods(i).value.fdcIds| <= MaxCompare
    ensures forall p: CompareFoodsParams :: MinCompare <= |p.fdcIds| <= MaxCompare ==>
      ParseCompareFoods(CompareFoodsInput(Present(p.fdcIds))) == Success(p)
  {
  }

  // ---------------------------------------------------------------- AgentTestParams

  datatype AgentTestInput = AgentTestInput(agentType: Field<string>, query: Field<string>, claudeApiKey: Field<string>, openaiApiKey: Field<string>)

  datatype AgentTestParams = AgentTestParams(agentType: string, query: Option<string>, claudeApiKey: Option<string>, openaiApiKey: Option<string>)

  /** An optional key is missing, null, or at least ten characters long. */
  predicate KeyOk(f: Field<string>) {
    f.Present? ==> |f.value| >= MinApiKeyLength
  }

  function ParseAgentTest(i: AgentTestInput): (r: Result<AgentTestParams, seq<string>>)
    ensures r.Success? <==>
      i.agentType.Present? && i.agentType.value in AgentTypes && KeyOk(i.claudeApiKey) && KeyOk(i.openaiApiKey)
    ensures r.Success? ==> r.value == AgentTestParams(i.agentType.value, i.query.Get(), i.claudeApiKey.Get(), i.openaiApiKey.Get())
    ensures r.Failure? ==>
      && ("agent_type" in r.error <==> !(i.agentType.Present? && i.agentType.value in AgentTypes))
      && ("claude_api_key" in r.error <==> !KeyOk(i.claudeApiKey))
      && ("openai_api_key" in r.error <==> !KeyOk(i.openaiApiKey))
  {
    var errors :=
      Check(i.agentType.Present? && i.agentType.value in AgentTypes, "agent_type")
      + Check(KeyOk(i.claudeApiKey), "claude_api_key")
      + Check(KeyOk(i.openaiApiKey), "openai_api_key");
    Outcome(errors, AgentTestParams(
      if i.agentType.Present? then i.agentType.value else "",
      i.query.Get(), i.claudeApiKey.Get(), i.openaiApiKey.Get()))
  }

  ghost predicate ValidAgentTest(p: AgentTestParams) {
    && p.agentType in AgentTypes
    && (p.claudeApiKey.Some? ==> |p.claudeApiKey.value| >= MinApiKeyLength)
    && (p.openaiApiKey.Some? ==> |p.openaiApiKey.value| >= MinApiKeyLength)
  }

  lemma AgentTestRoundTrip(i: AgentTestInput)
    ensures ParseAgentTest(i).Success? ==> ValidAgentTest(ParseAgentTest(i).value)
    ensures forall p :: ValidAgentTest(p) ==>
      ParseAgentTest(AgentTestInput(Present(p.agentType), Dumped(p.query), Dumped(p.claudeApiKey), Dumped(p.openaiApiKey))) == Success(p)
  {
  }
}
