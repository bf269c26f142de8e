/**
 * The five query tools of the tourism agent that answer from the knowledge
 * base. None raises. Four of them report "nothing found" with a marker value
 * of their result type; `create_daily_itinerary` has no marker and skips a
 * name that matches nothing. The two tools with fixed answers are in
 * TravelAdvice.
 */
module Tools {
  import opened Wrappers
  import opened Text
  import opened Seqs
  import opened HuarazKnowledge

  /** An optional text argument takes effect only when truthy: present and not empty. */
  predicate Truthy(arg: Option<string>) {
    arg.Some? && arg.value != ""
  }

  // ---------------------------------------------------------------------
  // search_attractions
  // ---------------------------------------------------------------------

  /** One element of the list `search_attractions` returns: a summary, or the no-results marker. */
  datatype SearchItem =
    | Summary(name: string, description: string, altitude: int, duration: string, difficulty: string)
    | NoAttractions(message: string)

  const NoAttractionsMessage: string := "No se encontraron atracciones para tu búsqueda"

  function Summarize(a: Attraction): SearchItem {
    Summary(a.name, a.description, a.altitude, a.duration, a.difficulty)
  }

  /** The lowered query is part of the lowered name or of the lowered description. */
  predicate MatchesQuery(query: string, a: Attraction) {
    Contains(Lower(a.name), Lower(query)) || Contains(Lower(a.description), Lower(query))
  }

  /** Both filters of `search_attractions`: the difficulty, when it is truthy, and the query. */
  predicate Selected(query: string, difficulty: Option<string>, a: Attraction) {
    (Truthy(difficulty) ==> SameDifficulty(a, difficulty.value)) && MatchesQuery(query, a)
  }

  /** The answer `search_attractions` gives for the attractions that passed its filters. */
  function OrNoAttractions(results: seq<SearchItem>): seq<SearchItem> {
    if results == [] then [NoAttractions(NoAttractionsMessage)] else results
  }

  /** For any list and filter, the answer is the marker exactly when nothing passes. */
  lemma MarkerIffNonePass(s: seq<Attraction>, p: Attraction -> bool)
    ensures 1 <= |OrNoAttractions(MapSeq(Filter(s, p), Summarize))|
    ensures OrNoAttractions(MapSeq(Filter(s, p), Summarize)) == [NoAttractions(NoAttractionsMessage)] <==>
      forall k :: 0 <= k < |s| ==> !p(s[k])
  {
    var m := MapSeq(Filter(s, p), Summarize);
    FilterEmptyIff(s, p);
    if m != [] {
      assert m[0].Summary?;
    }
  }

  /** Every summary in the answer is that of an attraction that passes. */
  lemma SummariesPass(s: seq<Attraction>, p: Attraction -> bool)
    ensures var r := OrNoAttractions(MapSeq(Filter(s, p), Summarize));
      forall i :: 0 <= i < |r| && r[i].Summary? ==>
        exists k :: 0 <= k < |s| && p(s[k]) && r[i] == Summarize(s[k])
  {
    var f := Filter(s, p);
    var r := OrNoAttractions(MapSeq(f, Summarize));
    forall i | 0 <= i < |r| && r[i].Summary?
      ensures exists k :: 0 <= k < |s| && p(s[k]) && r[i] == Summarize(s[k])
    {
      assert r[i] == Summarize(f[i]);
      var k :| 0 <= k < |s| && s[k] == f[i];
    }
  }

  /** Every attraction that passes has its summary in the answer. */
  lemma PassingAreSummarized(s: seq<Attraction>, p: Attraction -> bool)
    ensures var r := OrNoAttractions(MapSeq(Filter(s, p), Summarize));
      forall k :: 0 <= k < |s| && p(s[k]) ==> Summarize(s[k]) in r
  {
    var f := Filter(s, p);
    var m := MapSeq(f, Summarize);
    forall k | 0 <= k < |s| && p(s[k])
      ensures Summarize(s[k]) in OrNoAttractions(m)
    {
      var i :| 0 <= i < |f| && f[i] == s[k];
      assert m[i] == Summarize(s[k]);
      assert OrNoAttractions(m) == m;
    }
  }

  /** `search_attractions`: summaries of the selected attractions in catalog order, or one marker. */
  function SearchAttractions(query: string, difficulty: Option<string>): (r: seq<SearchItem>)
    ensures 1 <= |r|
    ensures r == [NoAttractions(NoAttractionsMessage)] <==>
      forall k :: 0 <= k < |Catalog()| ==> !Selected(query, difficulty, Catalog()[k])
    ensures r == OrNoAttractions(
      MapSeq(Filter(Catalog(), (a: Attraction) => Selected(query, difficulty, a)), Summarize))
  {
    var matches := (a: Attraction) => MatchesQuery(query, a);
    var selected := (a: Attraction) => Selected(query, difficulty, a);
    var attractions :=
      if Truthy(difficulty) then SearchByDifficulty(difficulty.value) else Values(GetAllAttractions());
    assert Filter(attractions, matches) == Filter(Catalog(), selected) by {
      if Truthy(difficulty) {
        FilterTwice(Catalog(), (a: Attraction) => SameDifficulty(a, difficulty.value), matches, selected);
      } else {
        FilterEquivalent(Catalog(), matches, selected);
      }
    }
    MarkerIffNonePass(Catalog(), selected);
    OrNoAttractions(MapSeq(Filter(attractions, matches), Summarize))
  }

  /** Every summary `search_attractions` returns is that of an attraction that passes both filters. */
  lemma SearchAttractionsSound(query: string, difficulty: Option<string>)
    ensures var r := SearchAttractions(query, difficulty);
      forall i :: 0 <= i < |r| && r[i].Summary? ==>
        exists k :: 0 <= k < |Catalog()| && Selected(query, difficulty, Catalog()[k]) && r[i] == Summarize(Catalog()[k])
  {
    SummariesPass(Catalog(), (a: Attraction) => Selected(query, difficulty, a));
  }

  /** Every attraction that passes both filters has its summary in the answer. */
  lemma SearchAttractionsComplete(query: string, difficulty: Option<string>)
    ensures var r := SearchAttractions(query, difficulty);
      forall k :: 0 <= k < |Catalog()| && Selected(query, difficulty, Catalog()[k]) ==> Summarize(Catalog()[k]) in r
  {
    PassingAreSummarized(Catalog(), (a: Attraction) => Selected(query, difficulty, a));
  }

  // ---------------------------------------------------------------------
  // get_attraction_details
  // ---------------------------------------------------------------------

  /** The detail record: altitude and best season are rendered as text. */
  datatype AttractionDetails = AttractionDetails(
    name: string,
    description: string,
    location: string,
    altitude: string,
    difficulty: string,
    duration: string,
    bestSeason: string,
    essentials: seq<string>,
    cost: string)

  datatype DetailsResult = Details(details: AttractionDetails) | DetailsError(error: string)

  /** The record built for a matching attraction: `f"{altitude}m"` and `", ".join(best_season)`.
      It loses nothing: the other fields are copied, the altitude text is a decimal integer
      without leading zeros followed by "m" that reads back as the altitude, and splitting the
      season text at ", " gives the month list back whenever there is at least one month and
      no month name holds a comma. */
  function Describe(a: Attraction): (d: AttractionDetails)
    ensures d.name == a.name && d.description == a.description && d.location == a.location &&
      d.difficulty == a.difficulty && d.duration == a.duration && d.essentials == a.essentials &&
      d.cost == a.estimatedCost
    ensures 2 <= |d.altitude| && d.altitude[|d.altitude| - 1] == 'm'
    ensures IsCanonicalIntLiteral(d.altitude[..|d.altitude| - 1]) && IntValue(d.altitude[..|d.altitude| - 1]) == a.altitude
    ensures 1 <= |a.bestSeason| && (forall i :: 0 <= i < |a.bestSeason| ==> ',' !in a.bestSeason[i]) ==>
      SplitComma(d.bestSeason) == a.bestSeason
  {
    var alt := IntToString(a.altitude);
    IntToStringRoundTrip(a.altitude);
    assert (alt + "m")[..|alt|] == alt;
    var noCommas := 1 <= |a.bestSeason| && forall i :: 0 <= i < |a.bestSeason| ==> ',' !in a.bestSeason[i];
    assert noCommas ==> SplitComma(JoinComma(a.bestSeason)) == a.bestSeason by {
      if noCommas {
        SplitJoinRoundTrip(a.bestSeason);
      }
    }
    AttractionDetails(
      a.name, a.description, a.location, alt + "m", a.difficulty,
      a.duration, JoinComma(a.bestSeason), a.essentials, a.estimatedCost)
  }

  /** Two-way containment of the lowered strings, as `get_attraction_details` tests it. */
  predicate FuzzyMatches(attractionName: string, a: Attraction) {
    Contains(Lower(a.name), Lower(attractionName)) || Contains(Lower(attractionName), Lower(a.name))
  }

  /** `get_attraction_details`: the details of the first attraction, in catalog order, that matches
      either way round; an error record when none does. */
  method GetAttractionDetails(attractionName: string) returns (r: DetailsResult)
    ensures r.Details? <==> exists k :: 0 <= k < |Catalog()| && FuzzyMatches(attractionName, Catalog()[k])
    ensures r.Details? ==> exists k :: (0 <= k < |Catalog()| && FuzzyMatches(attractionName, Catalog()[k]) &&
      (forall j :: 0 <= j < k ==> !FuzzyMatches(attractionName, Catalog()[j])) &&
      r.details == Describe(Catalog()[k]))
    ensures r.DetailsError? ==> r.error == "No se encontraron detalles para " + attractionName
  {
    var attractions := GetAllAttractions();
    for i := 0 to |attractions|
      invariant forall j :: 0 <= j < i ==> !FuzzyMatches(attractionName, Catalog()[j])
    {
      var attr := attractions[i].1;
      assert attr == Catalog()[i];
      if Contains(Lower(attr.name), Lower(attractionName)) || Contains(Lower(attractionName), Lower(attr.name)) {
        return Details(Describe(attr));
      }
    }
    return DetailsError("No se encontraron detalles para " + attractionName);
  }

  // ---------------------------------------------------------------------
  // get_activity_recommendations
  // ---------------------------------------------------------------------

  datatype ActivityResult = Recommended(activity: Activity) | ActivityError(error: string)

  /** The lowered type is part of the lowered key or of the lowered name. */
  predicate TypeMatches(activityType: string, entry: (string, Activity)) {
    Contains(Lower(entry.0), Lower(activityType)) || Contains(Lower(entry.1.name), Lower(activityType))
  }

  /** An entry is returned when its type matches and, if a difficulty is truthy, its difficulty too. */
  predicate Qualifies(activityType: string, difficulty: Option<string>, entry: (string, Activity)) {
    && TypeMatches(activityType, entry)
    && (Truthy(difficulty) ==> Lower(entry.1.difficulty) == Lower(difficulty.value))
  }

  /** `get_activity_recommendations`: the first qualifying activity in table order; a type match of
      the wrong difficulty is skipped, not returned. An error record when none qualifies. */
  method GetActivityRecommendations(activityType: string, difficulty: Option<string>) returns (r: ActivityResult)
    ensures r.Recommended? <==>
      exists k :: 0 <= k < |Activities| && Qualifies(activityType, difficulty, Activities[k])
    ensures r.Recommended? ==> exists k :: (0 <= k < |Activities| &&
      Qualifies(activityType, difficulty, Activities[k]) &&
      (forall j :: 0 <= j < k ==> !Qualifies(activityType, difficulty, Activities[j])) &&
      r.activity == Activities[k].1)
    ensures r.Recommended? && Truthy(difficulty) ==>
      Lower(r.activity.difficulty) == Lower(difficulty.value)
    ensures r.ActivityError? ==> r.error == "No se encontraron actividades del tipo " + activityType
  {
    var activities := Activities;
    for i := 0 to |activities|
      invariant forall j :: 0 <= j < i ==> !Qualifies(activityType, difficulty, activities[j])
    {
      var key := activities[i].0;
      var activity := activities[i].1;
      if Contains(Lower(key), Lower(activityType)) || Contains(Lower(activity.name), Lower(activityType)) {
        if Truthy(difficulty) && Lower(activity.difficulty) != Lower(difficulty.value) {
          continue;
        }
        return Recommended(activity);
      }
    }
    return ActivityError("No se encontraron actividades del tipo " + activityType);
  }

  // ---------------------------------------------------------------------
  // search_accommodations
  // ---------------------------------------------------------------------

  /** One element of the list `search_accommodations` returns. */
  datatype LodgingItem = Lodging(accommodation: Accommodation) | NoLodging(message: string)

  /** `search_accommodations`: the tier's entries, or one marker for a tier that is unknown.
      The location argument is accepted and not used. */
  function SearchAccommodations(budget: string, location: string): (r: seq<LodgingItem>)
    ensures 1 <= |r|
    ensures r[0].NoLodging? <==> Lower(budget) !in Keys(Accommodations)
    ensures r[0].NoLodging? ==> r == [NoLodging("No hay alojamientos disponibles para presupuesto: " + budget)]
    ensures r[0].Lodging? ==> exists tier :: ((Lower(budget), tier) in Accommodations &&
      |r| == |tier| && forall i :: 0 <= i < |r| ==> r[i] == Lodging(tier[i]))
  {
    var accommodations := GetAccommodationsByBudget(budget);
    if accommodations == [] then
      [NoLodging("No hay alojamientos disponibles para presupuesto: " + budget)]
    else
      MapSeq(accommodations, (a: Accommodation) => Lodging(a))
  }

  // ---------------------------------------------------------------------
  // create_daily_itinerary
  // ---------------------------------------------------------------------

  datatype Visit = Visit(time: string, activity: string, duration: string, essentials: seq<string>)

  datatype Itinerary = Itinerary(
    daySchedule: seq<Visit>,
    totalAttractions: int,
    estimatedCompletion: string,
    tips: seq<string>)

  const ItineraryTips: seq<string> := ["Llevar suficiente agua", "Usar protector solar", "Llevar snacks energéticos"]

  /** The `f"{hour}:00"` label of an hour of the day. */
  function Clock(hour: int): string {
    IntToString(hour) + ":00"
  }

  /** The first attraction of `s` whose lowered name contains `loweredName`. */
  function FirstNamedIn(s: seq<Attraction>, loweredName: string): (r: Option<Attraction>)
    ensures r.None? <==> forall i :: 0 <= i < |s| ==> !Contains(Lower(s[i].name), loweredName)
    ensures r.Some? ==> exists i :: (0 <= i < |s| && s[i] == r.value &&
      Contains(Lower(s[i].name), loweredName) &&
      forall j :: 0 <= j < i ==> !Contains(Lower(s[j].name), loweredName))
  {
    if s == [] then None
    else if Contains(Lower(s[0].name), loweredName) then Some(s[0])
    else
      var r := FirstNamedIn(s[1..], loweredName);
      assert forall i :: 1 <= i < |s| ==> s[i] == s[1..][i - 1];
      r
  }

  /** One step of the scan: the first match from position j is the one at j or one further on. */
  lemma FirstNamedInStep(s: seq<Attraction>, j: nat, loweredName: string)
    requires j < |s|
    ensures FirstNamedIn(s[j..], loweredName) ==
      if Contains(Lower(s[j].name), loweredName) then Some(s[j]) else FirstNamedIn(s[j + 1..], loweredName)
  {
    assert s[j..][0] == s[j];
    assert s[j..][1..] == s[j + 1..];
  }

  /** What the scan finds is an element of the scanned list whose lowered name holds the name. */
  lemma FirstNamedInFound(s: seq<Attraction>, loweredName: string)
    ensures FirstNamedIn(s, loweredName).Some? ==>
      FirstNamedIn(s, loweredName).value in s && Contains(Lower(FirstNamedIn(s, loweredName).value.name), loweredName)
  {
  }

  /** The attraction a requested name stands for in an itinerary: one-way containment, first match. */
  function ItineraryMatch(attractionName: string): Option<Attraction> {
    FirstNamedIn(Catalog(), Lower(attractionName))
  }

  /** The attractions an itinerary visits: the matches of the requested names, in the order asked,
      with the names that match nothing left out. */
  function MatchedAttractions(names: seq<string>): (r: seq<Attraction>)
    ensures |r| <= |names|
    ensures forall i :: 0 <= i < |names| && ItineraryMatch(names[i]).Some? ==> ItineraryMatch(names[i]).value in r
    ensures (forall i :: 0 <= i < |names| ==> ItineraryMatch(names[i]).Some?) ==> |r| == |names|
  {
    var found := MapSeq(names, ItineraryMatch);
    assert forall i :: 0 <= i < |names| ==> found[i] == ItineraryMatch(names[i]);
    Somes(found)
  }

  /** Every attraction an itinerary visits is a catalog attraction whose lowered name contains
      one of the lowered requested names. */
  lemma MatchedAttractionsSound(names: seq<string>)
    ensures forall a :: a in MatchedAttractions(names) ==>
      a in Catalog() && exists i :: 0 <= i < |names| && Contains(Lower(a.name), Lower(names[i]))
  {
    var found := MapSeq(names, ItineraryMatch);
    forall a | a in MatchedAttractions(names)
      ensures a in Catalog() && exists i :: 0 <= i < |names| && Contains(Lower(a.name), Lower(names[i]))
    {
      var k :| 0 <= k < |MatchedAttractions(names)| && MatchedAttractions(names)[k] == a;
      assert Some(a) in found;
      var i :| 0 <= i < |found| && found[i] == Some(a);
      assert ItineraryMatch(names[i]) == Some(a);
      FirstNamedInFound(Catalog(), Lower(names[i]));
    }
  }

  /** Asking for one more name adds its match, if it has one, at the end. */
  lemma MatchedAttractionsStep(names: seq<string>, k: nat)
    requires k < |names|
    ensures var m := ItineraryMatch(names[k]);
      MatchedAttractions(names[..k + 1]) ==
        if m.Some? then MatchedAttractions(names[..k]) + [m.value] else MatchedAttractions(names[..k])
  {
    MapSeqPrefixStep(names, k, ItineraryMatch);
    SomesStep(MapSeq(names[..k], ItineraryMatch), ItineraryMatch(names[k]));
  }

  /** The visit to `a` starting at `hour` o'clock. */
  function PlannedVisit(a: Attraction, hour: int): Visit {
    Visit(Clock(hour), "Visita a " + a.name, a.duration, a.essentials)
  }

  /** The day's schedule for the attractions `visits`, built as the loop builds it: each visit
      starts three hours after the one before, the first at 6 o'clock. So the i-th one starts
      at 6+3*i o'clock. */
  function Plan(visits: seq<Attraction>): (schedule: seq<Visit>)
    ensures |schedule| == |visits|
    ensures forall i :: 0 <= i < |visits| ==> schedule[i] == PlannedVisit(visits[i], 6 + 3 * i)
  {
    if visits == [] then []
    else
      var n := |visits| - 1;
      Plan(visits[..n]) + [PlannedVisit(visits[n], 6 + 3 * n)]
  }

  /** One more attraction adds one visit, three hours after the previous one. */
  lemma PlanStep(visits: seq<Attraction>, a: Attraction, hour: int)
    requires hour == 6 + 3 * |visits|
    ensures Plan(visits + [a]) == Plan(visits) + [PlannedVisit(a, hour)]
  {
    assert (visits + [a])[..|visits|] == visits;
  }

  /** The inner scan of `create_daily_itinerary`: the catalog in order, stopping at the first
      attraction whose lowered name contains the lowered requested name. */
  method FindAttractionNamed(attractionName: string) returns (attraction: Option<Attraction>)
    ensures attraction == ItineraryMatch(attractionName)
  {
    attraction := None;
    var candidates := Values(GetAllAttractions());
    for j := 0 to |candidates|
      invariant attraction.None?
      invariant FirstNamedIn(candidates[j..], Lower(attractionName)) == ItineraryMatch(attractionName)
    {
      FirstNamedInStep(candidates, j, Lower(attractionName));
      if Contains(Lower(candidates[j].name), Lower(attractionName)) {
        attraction := Some(candidates[j]);
        break;
      }
    }
  }

  /** `create_daily_itinerary`: the i-th matched attraction is visited at 6+3*i o'clock; the
      requested duration plays no part. */
  method CreateDailyItinerary(attractions: seq<string>, durationHours: int) returns (r: Itinerary)
    ensures r.daySchedule == Plan(MatchedAttractions(attractions))
    ensures r.totalAttractions == |r.daySchedule| <= |attractions|
    ensures r.estimatedCompletion == Clock(6 + 3 * |r.daySchedule|) + " aproximadamente"
    ensures r.tips == ItineraryTips
  {
    var schedule: seq<Visit> := [];
    var startTime := 6;
    for k := 0 to |attractions|
      invariant schedule == Plan(MatchedAttractions(attractions[..k]))
      invariant startTime == 6 + 3 * |schedule|
    {
      var attraction := FindAttractionNamed(attractions[k]);
      MatchedAttractionsStep(attractions, k);
      if attraction.Some? {
        var a := attraction.value;
        PlanStep(MatchedAttractions(attractions[..k]), a, startTime);
        schedule := schedule + [PlannedVisit(a, startTime)];
        startTime := startTime + 3;
      }
    }
    WholePrefix(attractions);
    r := Itinerary(schedule, |schedule|, Clock(startTime) + " aproximadamente", ItineraryTips);
  }
}
