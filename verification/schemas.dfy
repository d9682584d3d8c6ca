/**
 * The request, plant, response and error schemas: the string-valued enums, the
 * location validator, the field bounds of a plant and of a response, and the
 * defaults of the error body.  Validation is pydantic's: strings must be
 * strings, enum fields must equal one of the enum's values exactly.
 */
module Schemas {
  import opened Wrappers
  import opened Text
  import opened JsonValue

  datatype Direction = N | NE | E | SE | S | SW | W | NW

  /** The yard's direction is one of the 8 compass codes. */
  function DirectionValue(d: Direction): string {
    match d
    case N => "N" case NE => "NE" case E => "E" case SE => "SE"
    case S => "S" case SW => "SW" case W => "W" case NW => "NW"
  }

  const Directions: seq<Direction> := [N, NE, E, SE, S, SW, W, NW]

  function ParseDirection(s: string): (r: Option<Direction>)
    ensures r.Some? ==> DirectionValue(r.value) == s
    ensures r.None? ==> forall d: Direction :: DirectionValue(d) != s
  {
    if s == "N" then Some(N) else if s == "NE" then Some(NE)
    else if s == "E" then Some(E) else if s == "SE" then Some(SE)
    else if s == "S" then Some(S) else if s == "SW" then Some(SW)
    else if s == "W" then Some(W) else if s == "NW" then Some(NW)
    else None
  }

  /** The water and maintenance enums share the values Low, Medium and High. */
  datatype Level = Low | Medium | High

  function LevelValue(l: Level): string {
    match l
    case Low => "Low" case Medium => "Medium" case High => "High"
  }

  function ParseLevel(s: string): (r: Option<Level>)
    ensures r.Some? ==> LevelValue(r.value) == s
    ensures r.None? ==> forall l: Level :: LevelValue(l) != s
  {
    if s == "Low" then Some(Low) else if s == "Medium" then Some(Medium)
    else if s == "High" then Some(High) else None
  }

  datatype GardenType = NativePlants | FlowerGarden | VegetableGarden | MixedGarden

  function GardenTypeValue(g: GardenType): string {
    match g
    case NativePlants => "Native Plants" case FlowerGarden => "Flower Garden"
    case VegetableGarden => "Vegetable Garden" case MixedGarden => "Mixed Garden"
  }

  function ParseGardenType(s: string): (r: Option<GardenType>)
    ensures r.Some? ==> GardenTypeValue(r.value) == s
    ensures r.None? ==> forall g: GardenType :: GardenTypeValue(g) != s
  {
    if s == "Native Plants" then Some(NativePlants)
    else if s == "Flower Garden" then Some(FlowerGarden)
    else if s == "Vegetable Garden" then Some(VegetableGarden)
    else if s == "Mixed Garden" then Some(MixedGarden)
    else None
  }

  datatype SunRequirement = FullSun | PartialSun | PartialShade | Shade

  function SunValue(s: SunRequirement): string {
    match s
    case FullSun => "Full Sun" case PartialSun => "Partial Sun"
    case PartialShade => "Partial Shade" case Shade => "Shade"
  }

  function ParseSun(s: string): (r: Option<SunRequirement>)
    ensures r.Some? ==> SunValue(r.value) == s
    ensures r.None? ==> forall v: SunRequirement :: SunValue(v) != s
  {
    if s == "Full Sun" then Some(FullSun) else if s == "Partial Sun" then Some(PartialSun)
    else if s == "Partial Shade" then Some(PartialShade) else if s == "Shade" then Some(Shade)
    else None
  }

  /** Every enum value parses back to itself, so each enum accepts exactly its listed values. */
  lemma EnumRoundTrips(d: Direction, l: Level, g: GardenType, v: SunRequirement)
    ensures ParseDirection(DirectionValue(d)) == Some(d)
    ensures ParseLevel(LevelValue(l)) == Some(l)
    ensures ParseGardenType(GardenTypeValue(g)) == Some(g)
    ensures ParseSun(SunValue(v)) == Some(v)
  {
  }

  datatype Request = Request(location: string, direction: Direction, water: Level,
                             maintenance: Level, gardenType: GardenType)

  const LocationEmpty := "Location cannot be empty"
  const LocationNeedsRegion := "Location should include city and state (e.g., 'Denver, CO')"
  const LocationTooShort := "String should have at least 3 characters"
  const LocationTooLong := "String should have at most 100 characters"

  /**
   * The `location` field: pydantic's length bounds (3 to 100 characters) first,
   * then the validator, which rejects a blank value and one without a comma and
   * stores the stripped string.
   */
  function ValidateLocation(v: string): (r: Result<string, string>)
    ensures r.Ok? <==> 3 <= |v| <= 100 && (exists k :: 0 <= k < |v| && !IsSpace(v[k])) && ',' in v
    ensures r.Ok? ==> r.value == Strip(v) && r.value != []
  {
    StripEmptyIff(v);
    if |v| < 3 then Err(LocationTooShort)
    else if |v| > 100 then Err(LocationTooLong)
    else if v == [] || Strip(v) == [] then Err(LocationEmpty)
    else if SplitCount(v, ',') < 2 then Err(LocationNeedsRegion)
    else Ok(Strip(v))
  }

  /** The first field error of an invalid request body, in field order. */
  function FieldMissing(key: string): string {
    key + ": Field required"
  }

  const LocationMissing := "location: Field required"
  const LocationNotString := "location: Input should be a valid string"
  const DirectionInvalid := "direction: Input should be 'N', 'NE', 'E', 'SE', 'S', 'SW', 'W' or 'NW'"
  const WaterInvalid := "water: Input should be 'Low', 'Medium' or 'High'"
  const MaintenanceInvalid := "maintenance: Input should be 'Low', 'Medium' or 'High'"
  const GardenTypeInvalid := "garden_type: Input should be 'Native Plants', 'Flower Garden', 'Vegetable Garden' or 'Mixed Garden'"

  /**
   * A request body as FastAPI validates it: every field required, enums exact,
   * the location's bounds and validator applied to the location alone.  The
   * fields are checked in declaration order and the first failure is reported.
   */
  function ValidateRequest(body: map<string, Json>): (r: Result<Request, string>)
    ensures r.Ok? <==> && "location" in body && body["location"].JStr? && ValidateLocation(body["location"].s).Ok?
                       && "direction" in body && body["direction"].JStr? && ParseDirection(body["direction"].s).Some?
                       && "water" in body && body["water"].JStr? && ParseLevel(body["water"].s).Some?
                       && "maintenance" in body && body["maintenance"].JStr? && ParseLevel(body["maintenance"].s).Some?
                       && "garden_type" in body && body["garden_type"].JStr?
                       && ParseGardenType(body["garden_type"].s).Some?
    ensures r.Ok? ==> body["direction"] == JStr(DirectionValue(r.value.direction))
                      && body["water"] == JStr(LevelValue(r.value.water))
                      && body["maintenance"] == JStr(LevelValue(r.value.maintenance))
                      && body["garden_type"] == JStr(GardenTypeValue(r.value.gardenType))
                      && ValidateLocation(body["location"].s) == Ok(r.value.location)
    ensures "location" !in body ==> r == Err(LocationMissing)
    ensures "location" in body && body["location"].JStr? && ValidateLocation(body["location"].s).Err?
            ==> r == Err("location: " + ValidateLocation(body["location"].s).error)
  {
    if "location" !in body then Err(LocationMissing)
    else if !body["location"].JStr? then Err(LocationNotString)
    else match ValidateLocation(body["location"].s)
      case Err(e) => Err("location: " + e)
      case Ok(loc) =>
        if "direction" !in body then Err(FieldMissing("direction"))
        else if !body["direction"].JStr? || ParseDirection(body["direction"].s).None? then Err(DirectionInvalid)
        else if "water" !in body then Err(FieldMissing("water"))
        else if !body["water"].JStr? || ParseLevel(body["water"].s).None? then Err(WaterInvalid)
        else if "maintenance" !in body then Err(FieldMissing("maintenance"))
        else if !body["maintenance"].JStr? || ParseLevel(body["maintenance"].s).None? then Err(MaintenanceInvalid)
        else if "garden_type" !in body then Err(FieldMissing("garden_type"))
        else if !body["garden_type"].JStr? || ParseGardenType(body["garden_type"].s).None? then Err(GardenTypeInvalid)
        else
          Ok(Request(loc, ParseDirection(body["direction"].s).value, ParseLevel(body["water"].s).value,
                     ParseLevel(body["maintenance"].s).value, ParseGardenType(body["garden_type"].s).value))
  }

  /** A bad location is reported even when an enum field is bad too: the location is checked first. */
  lemma LocationErrorComesFirst(body: map<string, Json>)
    requires "location" in body && body["location"] == JStr("ab")
    ensures ValidateRequest(body) == Err("location: " + LocationTooShort)
  {
  }

  datatype Plant = Plant(name: string, scientific: string, sun: SunRequirement, water: Level,
                         maintenance: Level, plantNow: bool, careInstructions: string, notes: string)

  /** The length bounds of a plant's text fields. */
  predicate PlantBounds(p: Plant) {
    && 1 <= |p.name| <= 100
    && 1 <= |p.scientific| <= 150
    && 10 <= |p.careInstructions| <= 500
    && 10 <= |p.notes| <= 500
  }

  /** A string field of `f` that is present, a string, and within the bounds. */
  function BoundedString(f: map<string, Json>, key: string, lo: nat, hi: nat): (r: Option<string>)
    ensures r.Some? ==> key in f && f[key] == JStr(r.value) && lo <= |r.value| <= hi
    ensures r.None? ==> key !in f || !f[key].JStr? || |f[key].s| < lo || |f[key].s| > hi
  {
    if key in f && f[key].JStr? && lo <= |f[key].s| <= hi then Some(f[key].s) else None
  }

  function EnumField<T>(f: map<string, Json>, key: string, parse: string -> Option<T>): Option<T> {
    if key in f && f[key].JStr? then parse(f[key].s) else None
  }

  /** `Plant(**fields)`: every field required and valid; keys the schema does not name are ignored. */
  function PlantFromFields(f: map<string, Json>): (r: Option<Plant>)
    ensures r.Some? <==> && "name" in f && f["name"].JStr? && 1 <= |f["name"].s| <= 100
                         && "scientific" in f && f["scientific"].JStr? && 1 <= |f["scientific"].s| <= 150
                         && "sun" in f && f["sun"].JStr? && ParseSun(f["sun"].s).Some?
                         && "water" in f && f["water"].JStr? && ParseLevel(f["water"].s).Some?
                         && "maintenance" in f && f["maintenance"].JStr? && ParseLevel(f["maintenance"].s).Some?
                         && "plant_now" in f && AsBool(f["plant_now"]).Some?
                         && "care_instructions" in f && f["care_instructions"].JStr?
                         && 10 <= |f["care_instructions"].s| <= 500
                         && "notes" in f && f["notes"].JStr? && 10 <= |f["notes"].s| <= 500
    ensures r.Some? ==> PlantBounds(r.value)
    ensures r.Some? ==> && "name" in f && "scientific" in f && "sun" in f && "water" in f
                        && "maintenance" in f && "plant_now" in f && "care_instructions" in f && "notes" in f
    ensures r.Some? ==> && f["name"] == JStr(r.value.name) && f["scientific"] == JStr(r.value.scientific)
                        && f["sun"] == JStr(SunValue(r.value.sun))
                        && f["water"] == JStr(LevelValue(r.value.water))
                        && f["maintenance"] == JStr(LevelValue(r.value.maintenance))
                        && AsBool(f["plant_now"]) == Some(r.value.plantNow)
                        && f["care_instructions"] == JStr(r.value.careInstructions)
                        && f["notes"] == JStr(r.value.notes)
  {
    var name := BoundedString(f, "name", 1, 100);
    var scientific := BoundedString(f, "scientific", 1, 150);
    var sun := EnumField(f, "sun", ParseSun);
    var water := EnumField(f, "water", ParseLevel);
    var maintenance := EnumField(f, "maintenance", ParseLevel);
    var plantNow := if "plant_now" in f then AsBool(f["plant_now"]) else None;
    var care := BoundedString(f, "care_instructions", 10, 500);
    var notes := BoundedString(f, "notes", 10, 500);
    if name.Some? && scientific.Some? && sun.Some? && water.Some? && maintenance.Some?
       && plantNow.Some? && care.Some? && notes.Some?
    then Some(Plant(name.value, scientific.value, sun.value, water.value, maintenance.value,
                    plantNow.value, care.value, notes.value))
    else None
  }

  /** The fields a plant is serialised to. */
  function PlantFields(p: Plant): map<string, Json> {
    map["name" := JStr(p.name), "scientific" := JStr(p.scientific), "sun" := JStr(SunValue(p.sun)),
        "water" := JStr(LevelValue(p.water)), "maintenance" := JStr(LevelValue(p.maintenance)),
        "plant_now" := JBool(p.plantNow), "care_instructions" := JStr(p.careInstructions),
        "notes" := JStr(p.notes)]
  }

  /** The keys `Plant` declares; any other key of the input is ignored. */
  const PlantKeys: set<string> := {"name", "scientific", "sun", "water", "maintenance", "plant_now",
                                   "care_instructions", "notes"}

  /** Keys the schema does not declare never change the outcome of validation. */
  lemma ExtraKeysIgnored(f: map<string, Json>, key: string, v: Json)
    requires key !in PlantKeys
    ensures PlantFromFields(f[key := v]) == PlantFromFields(f)
  {
    var g := f[key := v];
    assert forall k :: k in PlantKeys ==> (k in g <==> k in f) && (k in f ==> g[k] == f[k]);
  }

  /** `plant_now` is read laxly: the string "yes" and the number 1 both mean true. */
  lemma LaxPlantNow(p: Plant, v: Json)
    requires PlantBounds(p) && (v == JStr("yes") || v == JNum(1))
    ensures PlantFromFields(PlantFields(p)["plant_now" := v]) == Some(p.(plantNow := true))
  {
    assert Lower("yes") == "yes";
    PlantRoundTrip(p.(plantNow := true));
  }

  /** A plant within the bounds validates back to itself from its own fields. */
  lemma PlantRoundTrip(p: Plant)
    requires PlantBounds(p)
    ensures PlantFromFields(PlantFields(p)) == Some(p)
  {
    EnumRoundTrips(N, p.water, NativePlants, p.sun);
    EnumRoundTrips(N, p.maintenance, NativePlants, p.sun);
  }

  datatype Response = Response(location: string, season: string, plants: seq<Plant>, generatedBy: string)

  /** `generated_by` when a caller gives none. */
  const DefaultGeneratedBy := "llm"

  /** The invariant of every response: a season of 5 to 100 characters and 1 to 10 valid plants. */
  predicate ValidResponse(r: Response) {
    && 5 <= |r.season| <= 100
    && 1 <= |r.plants| <= 10
    && forall p :: p in r.plants ==> PlantBounds(p)
  }

  const ResponseValidationError := "validation error for RecommendationResponse"

  /** `RecommendationResponse(location=..., season=..., plants=..., generated_by=...)`. */
  function MakeResponse(location: Json, season: Json, plants: seq<Plant>, generatedBy: string): (r: Result<Response, string>)
    requires forall p :: p in plants ==> PlantBounds(p)
    ensures r.Ok? <==> location.JStr? && season.JStr? && 5 <= |season.s| <= 100 && 1 <= |plants| <= 10
    ensures r.Ok? ==> ValidResponse(r.value)
    ensures r.Ok? ==> r.value == Response(location.s, season.s, plants, generatedBy)
    ensures r.Err? ==> r.error == ResponseValidationError
  {
    if location.JStr? && season.JStr? && 5 <= |season.s| <= 100 && 1 <= |plants| <= 10
    then Ok(Response(location.s, season.s, plants, generatedBy))
    else Err(ResponseValidationError)
  }

  datatype ErrorResponse = ErrorResponse(error: string, message: string, retrySuggested: bool)

  /** `ErrorResponse(error=..., message=...[, retry_suggested=...])`: retry defaults to false. */
  function MakeErrorResponse(error: string, message: string, retry: Option<bool>): (r: ErrorResponse)
    ensures r.error == error && r.message == message
    ensures r.retrySuggested <==> retry == Some(true)
  {
    ErrorResponse(error, message, if retry.Some? then retry.value else false)
  }
}
