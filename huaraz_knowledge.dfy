/**
 * The Huaraz knowledge base: three read-only tables (attractions, activities,
 * accommodations by budget tier) and the accessors that query them. The
 * tables are constants, so no accessor can change them and every accessor
 * gives the same answer each time it is called with the same argument.
 */
module HuarazKnowledge {
  import opened Wrappers
  import opened Text
  import opened Seqs

  /** A tourist attraction (the `Attraction` dataclass; `contactInfo` defaults to ""). */
  datatype Attraction = Attraction(
    name: string,
    description: string,
    location: string,
    altitude: int,
    difficulty: string,
    duration: string,
    bestSeason: seq<string>,
    essentials: seq<string>,
    estimatedCost: string,
    contactInfo: string)

  /** An activity record: every entry of the activity table has these five fields. */
  datatype Activity = Activity(
    name: string,
    types: seq<string>,
    difficulty: string,
    bestFor: string,
    cost: string)

  /** A place to stay; its budget tier is the key it is filed under, not a field. */
  datatype Accommodation = Accommodation(name: string, price: string, location: string)

  // The five attractions, as declared.

  const LagunaParon: Attraction := Attraction(
    "Laguna Parón",
    "Laguna alpina de agua turquesa ubicada en la Cordillera Blanca con vistas espectaculares al Nevado Piramide.",
    "Pariac, Huaraz",
    4185,
    "medio",
    "8-10 horas",
    ["mayo", "junio", "julio", "agosto", "septiembre"],
    ["protector solar", "bloqueador labial", "gafas de sol", "agua", "snacks", "chaqueta"],
    "S/. 50-100 por persona (entrada + transporte)",
    "")

  const Laguna69: Attraction := Attraction(
    "Laguna 69",
    "Laguna de color azul verdoso rodeada de montañas nevadas. Una de las más visitadas de Huaraz.",
    "Quisma, Carhuaz",
    4600,
    "medio",
    "6-8 horas",
    ["mayo", "junio", "julio", "agosto", "septiembre"],
    ["agua abundante", "snacks energéticos", "protector solar", "chaqueta", "zapatos deportivos"],
    "S/. 80-150 por persona",
    "")

  const NevadoPastoruri: Attraction := Attraction(
    "Nevado Pastoruri",
    "Glaciar accesible con vistas panorámicas. Ideal para quienes quieren experimentar nieve sin alpinismo técnico.",
    "Ticapampa",
    5240,
    "medio-alto",
    "10-12 horas",
    ["mayo", "junio", "julio", "agosto"],
    ["ropa térmica", "protector solar fuerte", "bloqueador labial", "agua", "snacks", "gafas de sol oscuras"],
    "S/. 100-200 por persona",
    "")

  const LagunaLlanganuco: Attraction := Attraction(
    "Laguna Llanganuco",
    "Dos lagunas conectadas (Orcon y Ngorongoro) con impresionantes vistas de nevados.",
    "Yungay",
    3850,
    "bajo",
    "6 horas",
    ["todo el año"],
    ["agua", "snacks", "protector solar", "chaqueta", "cámara"],
    "S/. 50-80 por persona",
    "")

  const ChavinDeHuantar: Attraction := Attraction(
    "Chavín de Huántar",
    "Sitio arqueológico importante de la cultura Chavín con túneles subterráneos y plazas ceremoniales.",
    "Chavín de Huántar",
    3180,
    "bajo",
    "4-5 horas",
    ["todo el año"],
    ["cámara", "agua", "linterna o frontal"],
    "S/. 30-50 entrada + transporte",
    "")

  /** The attraction table, keyed by string, in declaration order. */
  const Attractions: seq<(string, Attraction)> := [
    ("laguna_paron", LagunaParon),
    ("laguna_69", Laguna69),
    ("nevado_pastoruri", NevadoPastoruri),
    ("laguna_llanganuco", LagunaLlanganuco),
    ("chavin_de_huantar", ChavinDeHuantar)
  ]

  // The four activities, as declared.

  const TrekkingCordillera: Activity := Activity(
    "Trekking en Cordillera Blanca",
    ["Santa Cruz Trek (4-5 días)", "Alpamayo Trek (7 días)", "Inca Trail alternativo"],
    "medio-alto",
    "aventureros con experiencia",
    "S/. 1500-3000 por persona")

  const MountainBiking: Activity := Activity(
    "Mountain Biking",
    ["Circuito Valle de Huaraz", "Downhill desde Laguna Parón"],
    "medio",
    "ciclistas experimentados",
    "S/. 150-300 por día")

  const RockClimbing: Activity := Activity(
    "Escalada en Roca",
    ["Crags cercanos", "Grandes paredes"],
    "variable",
    "escaladores",
    "S/. 300-500 por día con guía")

  const CulturalTours: Activity := Activity(
    "Tours Culturales",
    ["Mercado tradicional", "Pueblos indígenas", "Artesanías locales"],
    "bajo",
    "todos",
    "S/. 50-150 por persona")

  /** The activity table, keyed by string, in declaration order. */
  const Activities: seq<(string, Activity)> := [
    ("trekking_cordillera", TrekkingCordillera),
    ("mountain_biking", MountainBiking),
    ("rock_climbing", RockClimbing),
    ("cultural_tours", CulturalTours)
  ]

  /** The accommodations, partitioned by budget tier. */
  const Accommodations: seq<(string, seq<Accommodation>)> := [
    ("budget", [
      Accommodation("Casa de Nuestros Amigos", "S/. 30-50 noche", "Centro"),
      Accommodation("Albergue Perla de Los Andes", "S/. 40-60 noche", "Jr. Comercio"),
      Accommodation("Hostel Churup", "S/. 35-55 noche", "Jirón Fitzcarrald")]),
    ("mid_range", [
      Accommodation("Hotel Huaraz", "S/. 100-150 noche", "Plaza de Armas"),
      Accommodation("Hotel Andino", "S/. 80-120 noche", "Centro"),
      Accommodation("Dreamers Hostel", "S/. 90-130 noche", "Jr. Comercio")]),
    ("luxury", [
      Accommodation("Gran Hotel Huaraz", "S/. 200-300 noche", "Plaza de Armas"),
      Accommodation("Hotel El Tejada", "S/. 180-250 noche", "Centro")])
  ]

  /** The three table constants are well-formed dicts: no key is repeated. */
  lemma TablesHaveUniqueKeys()
    ensures UniqueKeys(Attractions)
    ensures UniqueKeys(Activities)
    ensures UniqueKeys(Accommodations)
  {
  }

  // ---------------------------------------------------------------------
  // Accessors
  // ---------------------------------------------------------------------

  /** `get_attraction`: exact-key lookup; any other string, even in another case, gives None. */
  function GetAttraction(attractionKey: string): (r: Option<Attraction>)
    ensures r.Some? <==> attractionKey in Keys(Attractions)
    ensures r.Some? ==> (attractionKey, r.value) in Attractions
  {
    Lookup(Attractions, attractionKey)
  }

  /** `get_attraction` returns the record stored under each catalog key. */
  lemma GetAttractionFinds(attractionKey: string, a: Attraction)
    requires (attractionKey, a) in Attractions
    ensures GetAttraction(attractionKey) == Some(a)
  {
    TablesHaveUniqueKeys();
    LookupFinds(Attractions, attractionKey, a);
  }

  /** `get_all_attractions`: the whole table, in declaration order. */
  function GetAllAttractions(): (r: seq<(string, Attraction)>)
    ensures Keys(r) == ["laguna_paron", "laguna_69", "nevado_pastoruri", "laguna_llanganuco", "chavin_de_huantar"]
    ensures UniqueKeys(r)
  {
    Attractions
  }

  /** `get_all_attractions().values()`: the five attractions in declaration order. */
  function Catalog(): (r: seq<Attraction>)
    ensures r == [LagunaParon, Laguna69, NevadoPastoruri, LagunaLlanganuco, ChavinDeHuantar]
  {
    Values(GetAllAttractions())
  }

  /** `get_activity`: exact-key lookup in the activity table. */
  function GetActivity(activityKey: string): (r: Option<Activity>)
    ensures r.Some? <==> activityKey in Keys(Activities)
    ensures r.Some? ==> (activityKey, r.value) in Activities
  {
    Lookup(Activities, activityKey)
  }

  /** The test `attr.difficulty.lower() == difficulty.lower()`. */
  predicate SameDifficulty(a: Attraction, difficulty: string) {
    Lower(a.difficulty) == Lower(difficulty)
  }

  /** `search_by_difficulty`: exactly the attractions of that difficulty, ignoring case, in catalog order. */
  function SearchByDifficulty(difficulty: string): (r: seq<Attraction>)
    ensures forall i :: 0 <= i < |r| ==> r[i] in Catalog() && SameDifficulty(r[i], difficulty)
    ensures forall i :: 0 <= i < |Catalog()| && SameDifficulty(Catalog()[i], difficulty) ==> Catalog()[i] in r
    ensures IsSubsequence(r, Catalog())
  {
    Filter(Catalog(), (a: Attraction) => SameDifficulty(a, difficulty))
  }

  /** A difficulty no attraction has gives the empty list, not a marker. */
  lemma SearchByDifficultyUnknown(difficulty: string)
    requires Lower(difficulty) !in {"medio", "medio-alto", "bajo"}
    ensures SearchByDifficulty(difficulty) == []
  {
    assert Lower(LagunaParon.difficulty) == Lower(Laguna69.difficulty) == "medio";
    assert Lower(NevadoPastoruri.difficulty) == "medio-alto";
    assert Lower(LagunaLlanganuco.difficulty) == Lower(ChavinDeHuantar.difficulty) == "bajo";
  }

  /** The test `season.lower() in [m.lower() for m in attr.best_season]`. */
  predicate InSeason(a: Attraction, season: string) {
    Lower(season) in MapSeq(a.bestSeason, Lower)
  }

  /** One of the lowered months of `a` is the lowered season. */
  lemma InSeasonIff(a: Attraction, season: string)
    ensures InSeason(a, season) <==> exists m :: m in a.bestSeason && Lower(m) == Lower(season)
  {
    var lowered := MapSeq(a.bestSeason, Lower);
    if InSeason(a, season) {
      var k :| 0 <= k < |lowered| && lowered[k] == Lower(season);
      assert a.bestSeason[k] in a.bestSeason;
    }
    if exists m :: m in a.bestSeason && Lower(m) == Lower(season) {
      var m :| m in a.bestSeason && Lower(m) == Lower(season);
      var k :| 0 <= k < |a.bestSeason| && a.bestSeason[k] == m;
      assert lowered[k] == Lower(season);
    }
  }

  /** `search_by_season`: exactly the attractions one of whose months equals the season, ignoring case. */
  function SearchBySeason(season: string): (r: seq<Attraction>)
    ensures forall i :: 0 <= i < |r| ==>
      (r[i] in Catalog() && exists m :: m in r[i].bestSeason && Lower(m) == Lower(season))
    ensures forall i, m :: 0 <= i < |Catalog()| && m in Catalog()[i].bestSeason && Lower(m) == Lower(season) ==>
      Catalog()[i] in r
    ensures IsSubsequence(r, Catalog())
  {
    assert forall a: Attraction :: InSeason(a, season) <==>
      exists m :: m in a.bestSeason && Lower(m) == Lower(season) by {
      forall a: Attraction {
        InSeasonIff(a, season);
      }
    }
    Filter(Catalog(), (a: Attraction) => InSeason(a, season))
  }

  /** `get_accommodations_by_budget`: the tier stored under the lower-cased name, or [] for any other name. */
  function GetAccommodationsByBudget(budget: string): (r: seq<Accommodation>)
    ensures Lower(budget) in Keys(Accommodations) ==> (Lower(budget), r) in Accommodations
    ensures Lower(budget) !in Keys(Accommodations) ==> r == []
  {
    match Lookup(Accommodations, Lower(budget))
    case Some(tier) => tier
    case None => []
  }

  /** The tier name is matched without regard to case: "LUXURY" gives the "luxury" list. */
  lemma AccommodationsIgnoreCase(budget: string)
    ensures GetAccommodationsByBudget(budget) == GetAccommodationsByBudget(Lower(budget))
  {
    LowerIdempotent(budget);
  }

  /** The tiers have 3, 3 and 2 entries; every other name gives the empty list. */
  lemma TierSizes(budget: string)
    ensures |GetAccommodationsByBudget("budget")| == 3
    ensures |GetAccommodationsByBudget("mid_range")| == 3
    ensures |GetAccommodationsByBudget("luxury")| == 2
    ensures Lower(budget) !in {"budget", "mid_range", "luxury"} ==> GetAccommodationsByBudget(budget) == []
  {
    assert Lower("budget") == "budget";
    assert Lower("mid_range") == "mid_range";
    assert Lower("luxury") == "luxury";
    assert Keys(Accommodations) == ["budget", "mid_range", "luxury"];
  }
}
