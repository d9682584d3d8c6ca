/**
 * The stand-alone demo API's `get_recommendations`: when the agent is
 * configured its reply is parsed and validated as the demo's own response
 * model; every failure on that path, and an unconfigured agent, fall back to
 * a fixed mock response built from the derived zone and season and the
 * request's water and maintenance levels.
 */
module DemoApi {
  import opened Wrappers
  import opened JsonValue
  import opened Gateway
  import opened Context
  import opened Extraction

  /** The demo's request: plain strings, with no enum or location validation. */
  datatype DemoRequest = DemoRequest(location: string, direction: string, water: string,
                                     maintenance: string, gardenType: string)

  datatype DemoPlant = DemoPlant(name: string, scientificName: string, sunRequirements: string,
                                 waterNeeds: string, maintenanceLevel: string, plantNow: bool,
                                 spacing: string, companionPlants: string, description: string)

  datatype DemoResponse = DemoResponse(zone: string, season: string, plants: seq<DemoPlant>)

  /** An optional string field of the demo's `Plant`: absent gives the default, present must be a string. */
  function TextField(f: map<string, Json>, key: string, default: string): Option<string> {
    if key in f then AsStr(f[key]) else Some(default)
  }

  /** An optional string field: absent, or present as a string. */
  predicate OptionalText(f: map<string, Json>, key: string) {
    key in f ==> f[key].JStr?
  }

  /** The text under `key`, or `default` when the key is absent. */
  function TextOr(f: map<string, Json>, key: string, default: string): string
    requires OptionalText(f, key)
  {
    if key in f then f[key].s else default
  }

  /**
   * Validation of one plant against the demo's `Plant` model: a dictionary
   * with a string `name`; every other field optional, with its default.
   */
  function DemoPlantFrom(j: Json): (r: Option<DemoPlant>)
    ensures r.Some? <==> && j.JObj? && "name" in j.fields && j.fields["name"].JStr?
                         && OptionalText(j.fields, "scientific_name") && OptionalText(j.fields, "sun_requirements")
                         && OptionalText(j.fields, "water_needs") && OptionalText(j.fields, "maintenance_level")
                         && ("plant_now" in j.fields ==> AsBool(j.fields["plant_now"]).Some?)
                         && OptionalText(j.fields, "spacing") && OptionalText(j.fields, "companion_plants")
                         && OptionalText(j.fields, "description")
    ensures r.Some? ==> && j.fields["name"] == JStr(r.value.name)
                        && r.value.scientificName == TextOr(j.fields, "scientific_name", "")
                        && r.value.sunRequirements == TextOr(j.fields, "sun_requirements", "Partial Sun")
                        && r.value.waterNeeds == TextOr(j.fields, "water_needs", "Medium")
                        && r.value.maintenanceLevel == TextOr(j.fields, "maintenance_level", "Medium")
                        && r.value.spacing == TextOr(j.fields, "spacing", "12-18 inches")
                        && r.value.companionPlants == TextOr(j.fields, "companion_plants", "")
                        && r.value.description == TextOr(j.fields, "description", "")
    ensures r.Some? && "plant_now" !in j.fields ==> !r.value.plantNow
    ensures r.Some? && "plant_now" in j.fields ==> AsBool(j.fields["plant_now"]) == Some(r.value.plantNow)
  {
    if !j.JObj? || "name" !in j.fields || !j.fields["name"].JStr? then None
    else
      var f := j.fields;
      var scientific := TextField(f, "scientific_name", "");
      var sun := TextField(f, "sun_requirements", "Partial Sun");
      var water := TextField(f, "water_needs", "Medium");
      var maintenance := TextField(f, "maintenance_level", "Medium");
      var now := if "plant_now" in f then AsBool(f["plant_now"]) else Some(false);
      var spacing := TextField(f, "spacing", "12-18 inches");
      var companions := TextField(f, "companion_plants", "");
      var description := TextField(f, "description", "");
      if && scientific.Some? && sun.Some? && water.Some? && maintenance.Some? && now.Some?
         && spacing.Some? && companions.Some? && description.Some?
      then Some(DemoPlant(f["name"].s, scientific.value, sun.value, water.value, maintenance.value,
                          now.value, spacing.value, companions.value, description.value))
      else None
  }

  /** A plant as the API serialises it. */
  function DemoPlantJson(p: DemoPlant): Json {
    JObj(map["scientific_name" := JStr(p.scientificName), "sun_requirements" := JStr(p.sunRequirements),
             "water_needs" := JStr(p.waterNeeds), "maintenance_level" := JStr(p.maintenanceLevel),
             "spacing" := JStr(p.spacing), "companion_plants" := JStr(p.companionPlants),
             "description" := JStr(p.description), "plant_now" := JBool(p.plantNow),
             "name" := JStr(p.name)])
  }

  /** Every plant survives its own serialisation. */
  lemma DemoPlantRoundTrip(p: DemoPlant)
    ensures DemoPlantFrom(DemoPlantJson(p)) == Some(p)
  {
  }

  /** `List[Plant]`: the list is accepted only when every element is. */
  function DemoPlantsFrom(items: seq<Json>): (r: Option<seq<DemoPlant>>)
    ensures r.Some? <==> forall i :: 0 <= i < |items| ==> DemoPlantFrom(items[i]).Some?
    ensures r.Some? ==> |r.value| == |items|
                        && forall i :: 0 <= i < |items| ==> DemoPlantFrom(items[i]) == Some(r.value[i])
  {
    if items == [] then Some([])
    else
      match (DemoPlantFrom(items[0]), DemoPlantsFrom(items[1..]))
      case (Some(p), Some(ps)) =>
        assert forall i :: 1 <= i < |items| ==> items[i] == items[1..][i - 1];
        Some([p] + ps)
      case (None, _) => None
      case (_, None) =>
        assert forall i :: 1 <= i < |items| ==> items[i] == items[1..][i - 1];
        None
  }

  /** A list of plants as the API serialises it, element by element. */
  function PlantsJson(plants: seq<DemoPlant>): (items: seq<Json>)
    ensures |items| == |plants| && forall i :: 0 <= i < |plants| ==> items[i] == DemoPlantJson(plants[i])
  {
    if plants == [] then [] else [DemoPlantJson(plants[0])] + PlantsJson(plants[1..])
  }

  /** Every list of plants survives its own serialisation. */
  lemma {:induction false} DemoPlantsRoundTrip(plants: seq<DemoPlant>)
    ensures DemoPlantsFrom(PlantsJson(plants)) == Some(plants)
  {
    var items := PlantsJson(plants);
    forall i | 0 <= i < |items|
      ensures DemoPlantFrom(items[i]) == Some(plants[i])
    {
      DemoPlantRoundTrip(plants[i]);
    }
    var r := DemoPlantsFrom(items);
    assert r.value == plants;
  }

  /**
   * `PlantRecommendationResponse(**recommendations)`: a dictionary with a
   * string `zone`, a string `season` and a list of valid plants.
   */
  function DemoResponseFrom(j: Json): (r: Option<DemoResponse>)
    ensures r.Some? <==> && j.JObj? && "zone" in j.fields && j.fields["zone"].JStr?
                         && "season" in j.fields && j.fields["season"].JStr?
                         && "plants" in j.fields && j.fields["plants"].JArr?
                         && DemoPlantsFrom(j.fields["plants"].items).Some?
    ensures r.Some? ==> r.value == DemoResponse(j.fields["zone"].s, j.fields["season"].s,
                                                DemoPlantsFrom(j.fields["plants"].items).value)
  {
    if !j.JObj? then None
    else
      var f := j.fields;
      if "zone" !in f || !f["zone"].JStr? || "season" !in f || !f["season"].JStr?
         || "plants" !in f || !f["plants"].JArr? then None
      else match DemoPlantsFrom(f["plants"].items)
        case None => None
        case Some(plants) => Some(DemoResponse(f["zone"].s, f["season"].s, plants))
  }

  function DemoResponseJson(r: DemoResponse): Json {
    JObj(map["plants" := JArr(PlantsJson(r.plants)),
             "zone" := JStr(r.zone), "season" := JStr(r.season)])
  }

  /** Every response survives its own serialisation. */
  lemma {:induction false} DemoResponseRoundTrip(r: DemoResponse)
    ensures DemoResponseFrom(DemoResponseJson(r)) == Some(r)
  {
    DemoPlantsRoundTrip(r.plants);
  }

  /**
   * The agent's path: `call_do_agent` succeeds on a 2xx reply whose body
   * decodes, then the completion is parsed and validated.  Any failure along
   * it gives `None`: the handler catches everything there.
   */
  function AgentResponse(reply: Reply, parse: Parser): (r: Option<DemoResponse>)
    ensures r.Some? ==> && reply.Received? && IsSuccess(reply.status) && parse(reply.text).Ok?
                        && ParseAgentResponse(parse(reply.text).value, parse).Ok?
                        && DemoResponseFrom(ParseAgentResponse(parse(reply.text).value, parse).value) == r
    ensures reply.Received? && IsSuccess(reply.status) && parse(reply.text).Ok?
            && ParseAgentResponse(parse(reply.text).value, parse).Ok?
            ==> r == DemoResponseFrom(ParseAgentResponse(parse(reply.text).value, parse).value)
  {
    match reply
    case Received(status, text) =>
      if !IsSuccess(status) then None
      else
        (match parse(text)
         case Err(_) => None
         case Ok(data) =>
           match ParseAgentResponse(data, parse)
           case Err(_) => None
           case Ok(recommendations) => DemoResponseFrom(recommendations))
    case _ => None
  }

  /** The fixed mock plants; the first three take their water and maintenance from the request. */
  const Coneflower := DemoPlant("Purple Coneflower", "Echinacea purpurea", "Full Sun", "", "", true,
    "18-24 inches", "Black-eyed Susan, Bee Balm",
    "Native perennial that attracts butterflies and birds. Drought tolerant once established.")
  const BlackEyedSusan := DemoPlant("Black-eyed Susan", "Rudbeckia fulgida", "Full Sun", "", "", true,
    "12-18 inches", "Purple Coneflower, Bee Balm",
    "Bright yellow flowers bloom from summer to fall. Very low maintenance native plant.")
  const BeeBalm := DemoPlant("Bee Balm", "Monarda fistulosa", "Partial Sun", "", "", false,
    "18-24 inches", "Purple Coneflower, Black-eyed Susan",
    "Fragrant native plant that attracts bees, butterflies, and hummingbirds.")
  const LittleBluestem := DemoPlant("Little Bluestem", "Schizachyrium scoparium", "Full Sun", "Low", "Low", true,
    "12-18 inches", "Buffalo Grass, Blue Grama",
    "Native ornamental grass with beautiful fall color. Extremely drought tolerant.")

  /** The mock plants: the first three take the request's water and maintenance levels. */
  function MockPlants(water: string, maintenance: string): (plants: seq<DemoPlant>)
    ensures |plants| == 4
    ensures forall i :: 0 <= i < 3 ==> plants[i].waterNeeds == water && plants[i].maintenanceLevel == maintenance
    ensures plants[3] == LittleBluestem
  {
    [Coneflower.(waterNeeds := water, maintenanceLevel := maintenance),
     BlackEyedSusan.(waterNeeds := water, maintenanceLevel := maintenance),
     BeeBalm.(waterNeeds := water, maintenanceLevel := maintenance),
     LittleBluestem]
  }

  /**
   * `get_recommendations`: the agent's validated response when the agent is
   * configured and everything on its path succeeds, otherwise the mock
   * response with the derived zone and season.
   */
  function DemoRecommendations(apiKey: Option<string>, baseUrl: Option<string>, request: DemoRequest,
                               month: int, reply: Reply, parse: Parser): (r: DemoResponse)
    requires 1 <= month <= 12
    ensures AgentConfigured(apiKey, baseUrl) && AgentResponse(reply, parse).Some?
            ==> r == AgentResponse(reply, parse).value
    ensures !AgentConfigured(apiKey, baseUrl) || AgentResponse(reply, parse).None?
            ==> && r.zone == HardinessZone(request.location) && r.season == CurrentSeason(month)
                && r.plants == MockPlants(request.water, request.maintenance)
  {
    var zone := HardinessZone(request.location);
    var season := CurrentSeason(month);
    var fromAgent := if AgentConfigured(apiKey, baseUrl) then AgentResponse(reply, parse) else None;
    if fromAgent.Some? then fromAgent.value
    else DemoResponse(zone, season, MockPlants(request.water, request.maintenance))
  }

  /**
   * The handler never fails and never reports a failure: an agent reply that
   * is refused, times out or does not validate gives the same mock as an
   * unconfigured agent, with the request's water and maintenance in its first
   * three plants.
   */
  lemma {:induction false} FailureFallsBackToMock(apiKey: Option<string>, baseUrl: Option<string>,
                                                 request: DemoRequest, month: int, reply: Reply, parse: Parser)
    requires 1 <= month <= 12
    requires AgentResponse(reply, parse).None?
    ensures var r := DemoRecommendations(apiKey, baseUrl, request, month, reply, parse);
            && r == DemoRecommendations(None, None, request, month, reply, parse)
            && r.zone == HardinessZone(request.location) && r.season == CurrentSeason(month)
            && |r.plants| == 4
            && (forall i :: 0 <= i < 3 ==>
                  r.plants[i].waterNeeds == request.water && r.plants[i].maintenanceLevel == request.maintenance)
  {
  }

  /**
   * The agent's response is returned as it validated: its zone is the
   * agent's, not the one derived from the location.
   */
  lemma {:induction false} AgentZoneIsNotChecked(apiKey: Option<string>, baseUrl: Option<string>,
                                                request: DemoRequest, month: int, text: string,
                                                parse: Parser, data: Json, response: DemoResponse)
    requires 1 <= month <= 12 && AgentConfigured(apiKey, baseUrl)
    requires parse(text) == Ok(data) && ParseAgentResponse(data, parse) == Ok(DemoResponseJson(response))
    ensures DemoRecommendations(apiKey, baseUrl, request, month, Received(200, text), parse) == response
  {
    DemoResponseRoundTrip(response);
  }
}
