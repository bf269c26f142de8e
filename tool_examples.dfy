/**
 * The accessors and tools on concrete requests, worked out from their
 * contracts and the catalog.
 */
module ToolExamples {
  import opened Wrappers
  import opened Text
  import opened Seqs
  import opened HuarazKnowledge
  import opened Tools
  import opened ExampleNames

  /** `get_attraction` matches keys exactly: neither another case nor the display name finds a record. */
  lemma ExactKeysOnly()
    ensures GetAttraction("laguna_69") == Some(Laguna69)
    ensures GetAttraction("Laguna_69") == None
    ensures GetAttraction("laguna 69") == None
  {
    GetAttractionFinds("laguna_69", Laguna69);
    assert Keys(Attractions) == Keys(GetAllAttractions());
  }

  /** "parón" finds Laguna Parón, the first attraction, by part of its accented name. */
  method DetailsForParon() returns (r: DetailsResult)
    ensures r == Details(Describe(LagunaParon))
  {
    r := GetAttractionDetails("parón");
    assert Lower("parón") == "parón";
    assert MatchesFrom(Lower(LagunaParon.name), "parón", 7, 0);
    assert FuzzyMatches("parón", Catalog()[0]);
  }

  /** The names the string facts are about are those of the catalog, in order. */
  lemma CatalogNames()
    ensures forall k :: 0 <= k < |Catalog()| ==> Catalog()[k].name == AttractionNames[k]
  {
  }

  /** A name that matches no attraction either way round gets the error record. */
  method DetailsForUnknownName() returns (r: DetailsResult)
    ensures r == DetailsError("No se encontraron detalles para xyz-nonexistent")
  {
    r := GetAttractionDetails("xyz-nonexistent");
    CatalogNames();
    UnknownNameMissesAll();
  }

  /** The luxury tier has its two hotels. */
  lemma LuxuryTier()
    ensures SearchAccommodations("luxury", "Huaraz") == [
      Lodging(Accommodation("Gran Hotel Huaraz", "S/. 200-300 noche", "Plaza de Armas")),
      Lodging(Accommodation("Hotel El Tejada", "S/. 180-250 noche", "Centro"))]
  {
    assert Lower("luxury") == "luxury";
    var tier := GetAccommodationsByBudget("luxury");
    assert ("luxury", tier) in Accommodations;
    assert tier == Accommodations[2].1;
  }

  /** An unknown tier gets the one-element message list. */
  lemma UnknownTier()
    ensures SearchAccommodations("unknown-tier", "Huaraz") ==
      [NoLodging("No hay alojamientos disponibles para presupuesto: unknown-tier")]
  {
    var t := Lower("unknown-tier");
    assert t[0] == 'u';
    assert Keys(Accommodations) == ["budget", "mid_range", "luxury"];
    assert t !in Keys(Accommodations);
    assert "No hay alojamientos disponibles para presupuesto: " + "unknown-tier" ==
      "No hay alojamientos disponibles para presupuesto: unknown-tier";
  }

  /** "Laguna 69" is not part of "laguna parón", so the itinerary takes the second attraction. */
  lemma MatchLaguna69()
    ensures ItineraryMatch("Laguna 69") == Some(Laguna69)
  {
    var n := Lower("Laguna 69");
    assert n[7] == '6';
    LowerLacks(LagunaParon.name, '6');
    MissingCharNotContained(Lower(LagunaParon.name), n, '6');
    ContainsSelf(n);
    assert Catalog()[1] == Laguna69;
  }

  /** "Chavín de Huántar" is longer than three names and differs from the fourth. */
  lemma MatchChavin()
    ensures ItineraryMatch("Chavín de Huántar") == Some(ChavinDeHuantar)
  {
    var n := Lower("Chavín de Huántar");
    ShorterNotContained(Lower(LagunaParon.name), n);
    ShorterNotContained(Lower(Laguna69.name), n);
    ShorterNotContained(Lower(NevadoPastoruri.name), n);
    SameLengthContains(Lower(LagunaLlanganuco.name), n);
    assert Lower(LagunaLlanganuco.name)[0] != n[0];
    ContainsSelf(n);
    assert Catalog()[4] == ChavinDeHuantar;
  }

  /** The hour labels of a two-visit day. */
  lemma ClockLabels()
    ensures Clock(6) == "6:00" && Clock(9) == "9:00"
    ensures Clock(12) + " aproximadamente" == "12:00 aproximadamente"
  {
  }

  /** Two names that both match: visits at 6:00 and 9:00 with each attraction's own essentials. */
  method TwoStopItinerary() returns (r: Itinerary)
    ensures r.totalAttractions == |r.daySchedule| == 2
    ensures r.daySchedule[0].time == "6:00" && r.daySchedule[0].essentials == Laguna69.essentials
    ensures r.daySchedule[1].time == "9:00" && r.daySchedule[1].essentials == ChavinDeHuantar.essentials
    ensures r.estimatedCompletion == "12:00 aproximadamente"
  {
    r := CreateDailyItinerary(["Laguna 69", "Chavín de Huántar"], 10);
    MatchLaguna69();
    MatchChavin();
    MapSeqPair("Laguna 69", "Chavín de Huántar", ItineraryMatch);
    SomesPair(Laguna69, ChavinDeHuantar);
    assert Plan([Laguna69, ChavinDeHuantar])[1] == PlannedVisit(ChavinDeHuantar, 9);
    ClockLabels();
  }

  /** Asking twice for the same attraction gives the same answer: the catalog never changes and
      the first match in catalog order is unique. */
  method DetailsAreStable(attractionName: string) returns (r1: DetailsResult, r2: DetailsResult)
    ensures r1 == r2
  {
    r1 := GetAttractionDetails(attractionName);
    r2 := GetAttractionDetails(attractionName);
    if r1.Details? {
      var k1 :| 0 <= k1 < |Catalog()| && FuzzyMatches(attractionName, Catalog()[k1]) &&
        (forall j :: 0 <= j < k1 ==> !FuzzyMatches(attractionName, Catalog()[j])) &&
        r1.details == Describe(Catalog()[k1]);
      var k2 :| 0 <= k2 < |Catalog()| && FuzzyMatches(attractionName, Catalog()[k2]) &&
        (forall j :: 0 <= j < k2 ==> !FuzzyMatches(attractionName, Catalog()[j])) &&
        r2.details == Describe(Catalog()[k2]);
      assert k1 == k2;
    }
  }

  /** Asking twice for the same kind of activity gives the same answer. */
  method RecommendationsAreStable(activityType: string, difficulty: Option<string>)
    returns (r1: ActivityResult, r2: ActivityResult)
    ensures r1 == r2
  {
    r1 := GetActivityRecommendations(activityType, difficulty);
    r2 := GetActivityRecommendations(activityType, difficulty);
    if r1.Recommended? {
      var k1 :| 0 <= k1 < |Activities| && Qualifies(activityType, difficulty, Activities[k1]) &&
        (forall j :: 0 <= j < k1 ==> !Qualifies(activityType, difficulty, Activities[j])) &&
        r1.activity == Activities[k1].1;
      var k2 :| 0 <= k2 < |Activities| && Qualifies(activityType, difficulty, Activities[k2]) &&
        (forall j :: 0 <= j < k2 ==> !Qualifies(activityType, difficulty, Activities[j])) &&
        r2.activity == Activities[k2].1;
      assert k1 == k2;
    }
  }

  /** A request in which no name matches gives an empty day, with no marker message. */
  method UnmatchedItinerary(attractions: seq<string>, durationHours: int) returns (r: Itinerary)
    requires forall i :: 0 <= i < |attractions| ==> ItineraryMatch(attractions[i]).None?
    ensures r.daySchedule == [] && r.totalAttractions == 0
    ensures r.estimatedCompletion == "6:00 aproximadamente" && r.tips == ItineraryTips
  {
    r := CreateDailyItinerary(attractions, durationHours);
    var matched := MatchedAttractions(attractions);
    var found := MapSeq(attractions, ItineraryMatch);
    assert forall i :: 0 <= i < |found| ==> found[i] == None;
    assert |matched| == 0;
    assert Clock(6) == "6:00";
  }

  /** The plan depends only on the names: the requested duration changes nothing. */
  method ItineraryIgnoresDuration(attractions: seq<string>, hours1: int, hours2: int)
    returns (plan1: Itinerary, plan2: Itinerary)
    ensures plan1 == plan2
  {
    plan1 := CreateDailyItinerary(attractions, hours1);
    plan2 := CreateDailyItinerary(attractions, hours2);
  }
}
