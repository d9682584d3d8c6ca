/**
 * Turning the model's `plants` array into validated plants: each entry is
 * converted on its own (directly in the LLM service, through the provider-key
 * remapping in the GenAI-agent route), an entry that fails is skipped, and the
 * survivors keep their order.
 */
module Plants {
  import opened Wrappers
  import opened JsonValue
  import opened Schemas

  /** `Plant(**plant_data)`: only a dictionary can be unpacked into the schema. */
  function DirectPlant(entry: Json): (r: Option<Plant>)
    ensures r.Some? ==> entry.JObj? && PlantBounds(r.value)
    ensures entry.JObj? ==> r == PlantFromFields(entry.fields)
  {
    if entry.JObj? then PlantFromFields(entry.fields) else None
  }

  /** `plant_data.get(key, default)` */
  function Pick(fields: map<string, Json>, key: string, default: Json): Json {
    if key in fields then fields[key] else default
  }

  /**
   * The mapped dictionary the GenAI-agent route builds for each entry: every
   * schema field is read from the provider's own key, or defaulted; both text
   * fields read `description`.
   */
  function Remap(fields: map<string, Json>): (m: map<string, Json>)
    ensures m.Keys == PlantFields(DefaultPlant).Keys
  {
    map["name" := Pick(fields, "name", JStr("Unknown Plant")),
        "scientific" := Pick(fields, "scientific_name", JStr("Unknown species")),
        "sun" := Pick(fields, "sun_requirements", JStr("Partial Sun")),
        "water" := Pick(fields, "water_needs", JStr("Medium")),
        "maintenance" := Pick(fields, "maintenance_level", JStr("Medium")),
        "plant_now" := Pick(fields, "plant_now", JBool(false)),
        "care_instructions" := Pick(fields, "description", JStr("No care instructions available")),
        "notes" := Pick(fields, "description", JStr("No additional notes available"))]
  }

  /** The GenAI-agent route's conversion: remap, then validate; a non-dictionary entry is skipped. */
  function RemappedPlant(entry: Json): (r: Option<Plant>)
    ensures r.Some? ==> entry.JObj? && PlantBounds(r.value)
    ensures entry.JObj? ==> r == PlantFromFields(Remap(entry.fields))
  {
    if entry.JObj? then PlantFromFields(Remap(entry.fields)) else None
  }

  const DefaultPlant := Plant("Unknown Plant", "Unknown species", PartialSun, Medium, Medium, false,
                              "No care instructions available", "No additional notes available")

  /** An entry with no keys at all still yields a valid plant, made of the defaults. */
  lemma {:induction false} EmptyEntryYieldsDefaults()
    ensures RemappedPlant(JObj(map[])) == Some(DefaultPlant)
  {
    assert Remap(map[]) == PlantFields(DefaultPlant);
    PlantRoundTrip(DefaultPlant);
  }

  /**
   * Each schema field of a remapped plant is the value under the provider's
   * key when that key is present, and the route's default when it is absent.
   */
  lemma {:induction false} ProviderKeysLand(fields: map<string, Json>)
    requires RemappedPlant(JObj(fields)).Some?
    ensures var p := RemappedPlant(JObj(fields)).value;
            && ("name" in fields ==> fields["name"] == JStr(p.name))
            && ("name" !in fields ==> p.name == DefaultPlant.name)
            && ("scientific_name" in fields ==> fields["scientific_name"] == JStr(p.scientific))
            && ("scientific_name" !in fields ==> p.scientific == DefaultPlant.scientific)
            && ("sun_requirements" in fields ==> fields["sun_requirements"] == JStr(SunValue(p.sun)))
            && ("sun_requirements" !in fields ==> p.sun == DefaultPlant.sun)
            && ("water_needs" in fields ==> fields["water_needs"] == JStr(LevelValue(p.water)))
            && ("water_needs" !in fields ==> p.water == DefaultPlant.water)
            && ("maintenance_level" in fields ==> fields["maintenance_level"] == JStr(LevelValue(p.maintenance)))
            && ("maintenance_level" !in fields ==> p.maintenance == DefaultPlant.maintenance)
            && ("plant_now" in fields ==> AsBool(fields["plant_now"]) == Some(p.plantNow))
            && ("plant_now" !in fields ==> p.plantNow == DefaultPlant.plantNow)
            && ("description" !in fields ==> p.careInstructions == DefaultPlant.careInstructions
                                             && p.notes == DefaultPlant.notes)
  {
    var p := RemappedPlant(JObj(fields)).value;
    var m := Remap(fields);
    assert PlantFromFields(m) == Some(p);
    if "sun_requirements" !in fields {
      assert m["sun"] == JStr("Partial Sun");
    }
    if "water_needs" !in fields {
      assert m["water"] == JStr("Medium");
    }
    if "maintenance_level" !in fields {
      assert m["maintenance"] == JStr("Medium");
    }
  }

  /** Both text fields of a remapped plant come from the one `description`. */
  lemma {:induction false} DescriptionFillsBoth(fields: map<string, Json>)
    requires "description" in fields
    requires RemappedPlant(JObj(fields)).Some?
    ensures var p := RemappedPlant(JObj(fields)).value;
            p.careInstructions == p.notes && fields["description"] == JStr(p.notes)
  {
  }

  /** The plants the loop keeps: the converted entries that succeed, in order. */
  function ValidPlants(entries: seq<Json>, convert: Json -> Option<Plant>): (plants: seq<Plant>)
    ensures |plants| <= |entries|
    ensures forall p :: p in plants ==> exists i :: 0 <= i < |entries| && convert(entries[i]) == Some(p)
  {
    if entries == [] then []
    else
      var init := entries[..|entries| - 1];
      var last := entries[|entries| - 1];
      var plants := ValidPlants(init, convert) + (if convert(last).Some? then [convert(last).value] else []);
      assert forall i :: 0 <= i < |init| ==> init[i] == entries[i];
      plants
  }

  /**
   * The loop of both services: entries are converted one by one, a failure is
   * logged and skipped, and each success is appended.
   */
  method CollectValidPlants(entries: seq<Json>, convert: Json -> Option<Plant>) returns (plants: seq<Plant>)
    ensures plants == ValidPlants(entries, convert)
  {
    plants := [];
    var i := 0;
    while i < |entries|
      invariant 0 <= i <= |entries|
      invariant plants == ValidPlants(entries[..i], convert)
    {
      assert entries[..i + 1][..i] == entries[..i];
      if convert(entries[i]).Some? {
        plants := plants + [convert(entries[i]).value];
      }
      i := i + 1;
    }
    assert entries[..i] == entries;
  }

  /** The positions of the entries that convert, in ascending order. */
  function KeptIndices(entries: seq<Json>, convert: Json -> Option<Plant>): (idx: seq<nat>)
  {
    if entries == [] then []
    else KeptIndices(entries[..|entries| - 1], convert)
         + (if convert(entries[|entries| - 1]).Some? then [|entries| - 1] else [])
  }

  /**
   * The result is the order-preserving subsequence of converted entries: the
   * k-th plant comes from the k-th converting position, positions ascend, and
   * a position is used exactly when its entry converts.
   */
  lemma {:induction false} ValidPlantsIsSubsequence(entries: seq<Json>, convert: Json -> Option<Plant>)
    ensures var idx := KeptIndices(entries, convert);
            var plants := ValidPlants(entries, convert);
            && |idx| == |plants|
            && (forall k :: 0 <= k < |idx| ==> idx[k] < |entries| && convert(entries[idx[k]]) == Some(plants[k]))
            && (forall k, l :: 0 <= k < l < |idx| ==> idx[k] < idx[l])
            && (forall i :: 0 <= i < |entries| ==> (i in idx <==> convert(entries[i]).Some?))
  {
    if entries != [] {
      var n := |entries| - 1;
      var init := entries[..n];
      ValidPlantsIsSubsequence(init, convert);
      assert forall i :: 0 <= i < n ==> init[i] == entries[i];
      var idx0 := KeptIndices(init, convert);
      assert forall k :: 0 <= k < |idx0| ==> idx0[k] < n;
    }
  }

  /** Nothing survives exactly when no entry converts. */
  lemma {:induction false} ValidPlantsEmptyIff(entries: seq<Json>, convert: Json -> Option<Plant>)
    ensures ValidPlants(entries, convert) == [] <==> forall i :: 0 <= i < |entries| ==> convert(entries[i]).None?
    decreases |entries|
  {
    if entries != [] {
      var n := |entries| - 1;
      ValidPlantsEmptyIff(entries[..n], convert);
      assert forall i :: 0 <= i < n ==> entries[..n][i] == entries[i];
    }
  }

  /** Filtering distributes over concatenation, so a batch is the batches of its parts. */
  lemma {:induction false} ValidPlantsAppend(a: seq<Json>, b: seq<Json>, convert: Json -> Option<Plant>)
    ensures ValidPlants(a + b, convert) == ValidPlants(a, convert) + ValidPlants(b, convert)
    decreases |b|
  {
    if b != [] {
      var n := |b| - 1;
      assert (a + b)[..|a + b| - 1] == a + b[..n];
      ValidPlantsAppend(a, b[..n], convert);
    } else {
      assert a + b == a;
    }
  }

  /** An entry that fails to convert is skipped, never repaired. */
  lemma InvalidEntrySkipped(a: seq<Json>, bad: Json, b: seq<Json>, convert: Json -> Option<Plant>)
    requires convert(bad).None?
    ensures ValidPlants(a + [bad] + b, convert) == ValidPlants(a + b, convert)
  {
    ValidPlantsAppend(a + [bad], b, convert);
    ValidPlantsAppend(a, [bad], convert);
    ValidPlantsAppend(a, b, convert);
    assert ValidPlants([bad], convert) == [] by {
      assert [bad][..0] == [];
    }
  }
}
