/**
 * The context helpers shared, as identical copies, by the demo API and the
 * GenAI-agent route: the hardiness zone from a location, the planting season
 * from the month, and the sun level from the yard's direction.
 */
module Context {
  import opened Text

  /** The city table, in the order its entries are tried. */
  const ZoneTable: seq<(string, string)> := [
    ("denver", "5b"), ("colorado", "5b"), ("seattle", "8b"), ("portland", "8b"),
    ("boston", "6b"), ("new york", "7a"), ("chicago", "6a"), ("atlanta", "8a"),
    ("miami", "10b"), ("los angeles", "10a"), ("phoenix", "9b"), ("austin", "8b"),
    ("dallas", "8a")]

  const DefaultZone := "6b"

  /**
   * The zone of the first entry of `table` whose key occurs in `text`, or the
   * default zone when none does.
   */
  function ZoneLookup(table: seq<(string, string)>, text: string): (zone: string)
    ensures zone == DefaultZone <== forall i :: 0 <= i < |table| ==> !Contains(text, table[i].0)
    ensures (exists i :: 0 <= i < |table| && Contains(text, table[i].0)) ==>
              exists i :: 0 <= i < |table| && Contains(text, table[i].0) && zone == table[i].1
                          && forall j :: 0 <= j < i ==> !Contains(text, table[j].0)
  {
    if table == [] then DefaultZone
    else if Contains(text, table[0].0) then table[0].1
    else
      var zone := ZoneLookup(table[1..], text);
      assert forall i :: 1 <= i < |table| ==> table[i] == table[1..][i - 1];
      zone
  }

  /** `get_hardiness_zone`: the table lookup on the lower-cased location. */
  function HardinessZone(location: string): (zone: string)
    ensures zone == DefaultZone || exists i :: 0 <= i < |ZoneTable| && zone == ZoneTable[i].1
  {
    ZoneLookup(ZoneTable, Lower(location))
  }

  lemma DenverIs5b()
    ensures HardinessZone("Denver, CO") == "5b"
  {
    assert Lower("Denver, CO") == "denver, co";
    assert MatchAt("denver, co", "denver", 0);
  }

  /** A city missing from the table gets the default zone. */
  lemma UnknownCityIsDefault()
    ensures HardinessZone("Reno, NV") == DefaultZone
  {
    var text := Lower("Reno, NV");
    assert text == "reno, nv";
    forall i | 0 <= i < |ZoneTable| ensures !Contains(text, ZoneTable[i].0) {
      // Each key starts with a letter the location lacks, except "new york", whose third one it lacks.
      if i == 5 {
        AbsentChar(text, ZoneTable[i].0, 2);
      } else {
        AbsentChar(text, ZoneTable[i].0, 0);
      }
    }
  }

  const Spring := "Spring Planting Season"
  const Summer := "Summer Growing Season"
  const Fall := "Fall Planting Season"
  const Winter := "Winter Planning Season"

  /** `get_current_season`: the month (1 to 12) decides; the zone argument of the source is unused. */
  function CurrentSeason(month: int): (season: string)
    requires 1 <= month <= 12
    ensures season in {Spring, Summer, Fall, Winter}
    ensures season == Spring <==> 3 <= month <= 5
    ensures season == Summer <==> 6 <= month <= 8
    ensures season == Fall <==> 9 <= month <= 11
    ensures season == Winter <==> month == 12 || month <= 2
  {
    if month in {3, 4, 5} then Spring
    else if month in {6, 7, 8} then Summer
    else if month in {9, 10, 11} then Fall
    else Winter
  }

  const SunLevels: set<string> := {"shade", "partial shade", "partial sun", "full sun"}

  /** `map_direction_to_sun`: the upper-cased code is looked up; unknown codes give "partial sun". */
  function SunLevel(direction: string): (level: string)
    ensures level in SunLevels
    ensures Upper(direction) == "N" ==> level == "shade"
    ensures Upper(direction) == "S" ==> level == "full sun"
    ensures Upper(direction) in {"NE", "NW"} ==> level == "partial shade"
    ensures Upper(direction) !in {"N", "NE", "NW", "S"} ==> level == "partial sun"
  {
    var code := Upper(direction);
    if code == "N" then "shade"
    else if code == "NE" || code == "NW" then "partial shade"
    else if code == "E" || code == "W" || code == "SE" || code == "SW" then "partial sun"
    else if code == "S" then "full sun"
    else "partial sun"
  }

  lemma LowerCaseDirectionsAccepted()
    ensures SunLevel("s") == "full sun" && SunLevel("nw") == "partial shade"
  {
    assert Upper("s") == "S";
    assert Upper("nw") == "NW";
  }
}
