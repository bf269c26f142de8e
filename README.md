# Huaraz tourism assistant: knowledge base and tools

The Huaraz tourism assistant answers visitors' questions through seven tools. The tools read a small knowledge base of the Huaraz region. The knowledge base holds five attractions, four activities and three budget tiers of accommodation. An LLM agent calls the tools; the agent is not modelled.

This project models the knowledge base and the seven tools, and proves what they return. Nothing raises. Five tools report "not found" with a value shaped like a result that carries a marker message: `search_attractions`, `get_attraction_details`, `get_activity_recommendations`, `search_accommodations` and `get_best_season`. The model writes each such answer as a datatype with a marker variant. `create_daily_itinerary` has no marker: it skips a name that matches nothing, so a request where no name matches gets an empty schedule, a total of 0 and completion at "6:00 aproximadamente" (UnmatchedItinerary). `get_altitude_advice` has no "not found" case. The knowledge-base accessors have no marker: `get_attraction` and `get_activity` return None, and `search_by_difficulty`, `search_by_season` and `get_accommodations_by_budget` return the empty list.

Modules, one file each:

- `Wrappers`: `Option`.
- `Text`: the Python string behaviour the tools rely on.
  - `str.lower()`, modelled as `Lower`.
  - Substring `in`, modelled as `Contains`, with the proof that it is the slice relation.
  - `str(i)`, modelled as `IntToString`, with the round trip back to the integer.
  - `", ".join`, modelled as `JoinComma`, with the round trip through splitting.
- `Seqs`: the comprehension with an `if` (`Filter`), the plain comprehension (`MapSeq`), and dicts as association lists in insertion order (`Keys`, `Values`, `Lookup`).
- `HuarazKnowledge` (`data/knowledge/huaraz_knowledge.py`): the `Attraction` record, the three constant tables and the six accessors.
- `Tools` (`src/handlers/tools.py`): the five tools that query the knowledge base.
  - The two early-return scans and the itinerary builder are methods with loops, as in the source.
  - The other two tools are functions.
  - The inner `break` scan of `create_daily_itinerary` is its own method, `FindAttractionNamed`. The outer loop calls it.
- `TravelAdvice` (`src/handlers/tools.py`): the two tools whose answers are fixed tables, `get_best_season` and `get_altitude_advice`.
- `ExampleNames`, `ToolExamples`: the tools on concrete requests, such as "parón", "xyz-nonexistent" and a two-stop itinerary. `ExampleNames` holds the facts about the strings alone; `ToolExamples` ties them to the catalog.

Lower-casing. `Lower` folds a character by adding 32 when the character is one of these:
- an ASCII capital A–Z;
- a Latin-1 capital from U+00C0 to U+00DE, except U+00D7.

Every other character is kept as it is. This covers every letter in the data, including the accented names ("Laguna Parón", "Chavín de Huántar"). Python's full Unicode lower-casing is not modelled.

The itinerary's first hour is written `"6:00"`, as `f"{start_time}:00"` prints it.

## Model

| member | source | states |
|---|---|---|
| HuarazKnowledge.TablesHaveUniqueKeys | data/knowledge/huaraz_knowledge.py:26-130 | no key is repeated in the attraction, activity or accommodation table |
| HuarazKnowledge.GetAttraction | data/knowledge/huaraz_knowledge.py:133-135 | a record is returned exactly when the key is one of the catalog keys, matched exactly; the record is the one stored under that key; any other string gives None |
| HuarazKnowledge.GetAttractionFinds | data/knowledge/huaraz_knowledge.py:133-135 | for every stored key, `get_attraction` returns the record stored under it |
| HuarazKnowledge.GetAllAttractions | data/knowledge/huaraz_knowledge.py:137-140 | the keys are laguna_paron, laguna_69, nevado_pastoruri, laguna_llanganuco and chavin_de_huantar, in that order, with none repeated |
| HuarazKnowledge.Catalog | data/knowledge/huaraz_knowledge.py:26-82 | the values of the attraction table, in declaration order, are the five declared attractions |
| HuarazKnowledge.GetActivity | data/knowledge/huaraz_knowledge.py:143-145 | an activity is returned exactly when the key is an activity key; it is the one stored under that key |
| HuarazKnowledge.SearchByDifficulty | data/knowledge/huaraz_knowledge.py:148-153 | every result is a catalog attraction whose lowered difficulty equals the lowered argument; every such attraction is in the result; the result is a subsequence of the catalog, so catalog order is kept |
| HuarazKnowledge.SearchByDifficultyUnknown | data/knowledge/huaraz_knowledge.py:148-153 | a difficulty that lowers to none of medio, medio-alto and bajo gives the empty list, not a marker |
| HuarazKnowledge.InSeasonIff | data/knowledge/huaraz_knowledge.py:160 | the season is in the lowered month list exactly when some month lowers to the lowered season |
| HuarazKnowledge.SearchBySeason | data/knowledge/huaraz_knowledge.py:156-161 | every result has a month that equals the season ignoring case; every catalog attraction with such a month is in the result; catalog order is kept |
| HuarazKnowledge.GetAccommodationsByBudget | data/knowledge/huaraz_knowledge.py:164-166 | a known lowered tier name gives the list stored under it; any other name gives [] |
| HuarazKnowledge.AccommodationsIgnoreCase | data/knowledge/huaraz_knowledge.py:164-166 | a tier name and its lower-cased form give the same list, so "LUXURY" answers like "luxury" |
| HuarazKnowledge.TierSizes | data/knowledge/huaraz_knowledge.py:115-130 | budget has 3 entries, mid_range 3 and luxury 2; a name that lowers to anything else gives [] |
| Tools.SearchAttractions | src/handlers/tools.py:21-42 | the answer is never empty; it is the one-element marker exactly when no catalog attraction passes both filters; otherwise it is the summaries of the passing attractions in catalog order, and the difficulty pre-filter followed by the query filter equals one filter by their conjunction. A difficulty that is None or "" filters nothing |
| Tools.SearchAttractionsSound | src/handlers/tools.py:29-40 | every summary returned is that of a catalog attraction that passes the difficulty filter and whose lowered name or description contains the lowered query |
| Tools.SearchAttractionsComplete | src/handlers/tools.py:29-40 | every catalog attraction that passes both filters has its summary in the answer |
| Tools.Describe | src/handlers/tools.py:62-72 | the detail record loses nothing: the name, description, location, difficulty, duration, essentials and cost are copied; the altitude text is a decimal integer written as `str` writes it (no leading zero, no "-0") followed by "m", and reads back as the altitude; splitting the season text at ", " gives the month list back whenever there is at least one month and no month name holds a comma |
| Tools.GetAttractionDetails | src/handlers/tools.py:56-74 | details are returned exactly when some attraction matches either way round (lowered query in lowered name, or the reverse); they describe the first such attraction in catalog order; otherwise the error names the query |
| Tools.GetActivityRecommendations | src/handlers/tools.py:89-99 | an activity is returned exactly when one qualifies: its lowered key or name contains the lowered type, and, when the difficulty is truthy, its difficulty equals the requested one ignoring case; it is the first qualifying entry in table order, so a type match of the wrong difficulty is skipped; otherwise the error names the type |
| Tools.SearchAccommodations | src/handlers/tools.py:114-120 | the answer is never empty; it is the one-element marker naming the budget exactly when the lowered budget is not a tier; otherwise it is that tier's entries, one for one; the location plays no part |
| Tools.FirstNamedIn | src/handlers/tools.py:213-216 | None exactly when no lowered name contains the lowered request; otherwise the first attraction, in order, whose lowered name contains it |
| Tools.FindAttractionNamed | src/handlers/tools.py:212-216 | the loop with `break` returns the first catalog attraction whose lowered name contains the lowered request, or None |
| Tools.MatchedAttractions | src/handlers/tools.py:211-218 | the outer loop's matches: there are at most as many as names; every requested name that matches has its match among them; when every name matches there is one per name. Its exact order, one step of the loop at a time, is MatchedAttractionsStep |
| Tools.MatchedAttractionsSound | src/handlers/tools.py:211-216 | every attraction the itinerary visits is a catalog attraction whose lowered name contains one of the lowered requested names |
| Tools.MatchedAttractionsStep | src/handlers/tools.py:211-218 | one more requested name adds its match at the end when it has one; a name that matches nothing adds nothing |
| Tools.Plan | src/handlers/tools.py:209-226 | defined the way the loop appends, each visit three hours after the previous one from 6 o'clock; its contract is the closed form, proved from the recursion: one visit per matched attraction, the i-th at 6+3*i o'clock, named "Visita a " plus the attraction's name, with its duration and essentials |
| Tools.PlanStep | src/handlers/tools.py:219-226 | one more matched attraction adds one visit three hours after the previous one |
| Tools.CreateDailyItinerary | src/handlers/tools.py:206-233 | the schedule is the plan of the matched attractions in the order asked, with unmatched names skipped; the total equals the schedule length and is at most the number of names; completion is at 6+3*total o'clock; the tips are the three fixed ones |
| TravelAdvice.GetBestSeason | src/handlers/tools.py:134-160 | an entry is returned exactly when the lowered style is trekking, casual, photography or cultural; it is the table entry for that style; otherwise the message names the style |
| TravelAdvice.BestSeasonIgnoresCase | src/handlers/tools.py:157-158 | a style and its lower-cased form are both known or both unknown, and a known style gets the same entry as its lower-cased form |
| TravelAdvice.GetAltitudeAdvice | src/handlers/tools.py:171-191 | the advisory has 4 symptoms, 5 prevention steps, 4 treatment steps and 3 reasons to seek help, and tells the visitor to descend if the symptoms get worse |
| Text.Lower | data/knowledge/huaraz_knowledge.py:152 | no capital is left in the result, and a string without capitals is its own lower-cased form |
| Text.LowerIdempotent | data/knowledge/huaraz_knowledge.py:166 | lower-casing twice is lower-casing once |
| Text.ContainsIff | src/handlers/tools.py:39 | `needle in hay` holds exactly when some slice of hay equals needle |
| Text.IntToStringRoundTrip | src/handlers/tools.py:66 | `str(i)` is an integer literal without leading zeros or "-0" that reads back as i |
| Text.SplitJoinRoundTrip | src/handlers/tools.py:69 | splitting a ", "-joined non-empty list at ", " gives the list back when no part holds a comma (the empty list joins to "", which splits to [""]) |
| Seqs.Filter | data/knowledge/huaraz_knowledge.py:150-153 | a comprehension with an `if` keeps only elements that pass, keeps every element that passes, and keeps their order (the result is a subsequence of the input); how many copies survive is FilterKeepsCopies |
| Seqs.FilterKeepsCopies | data/knowledge/huaraz_knowledge.py:150-153 | each passing element occurs in the result as often as in the input, and a failing one not at all |
| Seqs.FilterTwice | src/handlers/tools.py:23-40 | filtering twice is filtering once by the conjunction |
| Seqs.Lookup | data/knowledge/huaraz_knowledge.py:135 | `dict.get` finds a value exactly when the key is present, and the value is stored under it |
| Seqs.LookupFinds | data/knowledge/huaraz_knowledge.py:135 | with unique keys, `dict.get` returns the value stored under the key |
| ToolExamples.ExactKeysOnly | data/knowledge/huaraz_knowledge.py:133-135 | "laguna_69" finds Laguna 69; "Laguna_69" and "laguna 69" find nothing |
| ToolExamples.DetailsForParon | src/handlers/tools.py:60-72 | "parón" gets the full record of Laguna Parón |
| ToolExamples.DetailsForUnknownName | src/handlers/tools.py:60-74 | "xyz-nonexistent" gets the error record "No se encontraron detalles para xyz-nonexistent" |
| ExampleNames.UnknownNameMissesAll | src/handlers/tools.py:61 | "xyz-nonexistent" and no attraction name, both lowered, contain one another either way round |
| ToolExamples.LuxuryTier | src/handlers/tools.py:114-120 | "luxury" gets exactly Gran Hotel Huaraz and Hotel El Tejada |
| ToolExamples.UnknownTier | src/handlers/tools.py:114-118 | "unknown-tier" gets the one-element message list |
| ToolExamples.MatchLaguna69 | src/handlers/tools.py:213-216 | the itinerary takes "Laguna 69" to be Laguna 69, not the first lagoon |
| ToolExamples.MatchChavin | src/handlers/tools.py:213-216 | the itinerary takes "Chavín de Huántar" to be the archaeological site |
| ToolExamples.TwoStopItinerary | src/handlers/tools.py:206-233 | ["Laguna 69", "Chavín de Huántar"] with 10 hours gives two visits, at 6:00 and 9:00, each carrying its attraction's essentials, and completion at "12:00 aproximadamente" |
| ToolExamples.DetailsAreStable | src/handlers/tools.py:56-74 | asking twice for the same attraction gives the same answer |
| ToolExamples.RecommendationsAreStable | src/handlers/tools.py:89-99 | asking twice for the same kind of activity and difficulty gives the same answer |
| ToolExamples.UnmatchedItinerary | src/handlers/tools.py:211-233 | when no requested name matches an attraction, the itinerary has an empty schedule, a total of 0, completion at "6:00 aproximadamente" and the three tips; there is no marker message |
| ToolExamples.ItineraryIgnoresDuration | src/handlers/tools.py:195-233 | two requests that differ only in the available hours get the same itinerary |

## Left out

- The LangChain agent, its prompt templates and memory, the LLM client factory, the YAML configuration loader and the smoke-test scripts are not part of this model. They are framework wiring, foreign SDK calls and I/O.
- The `@tool` decorator, tool names and docstrings are registration metadata, not behaviour.
- Python's full Unicode `str.lower()` is not modelled. `Lower` folds ASCII and the Latin-1 capitals, which covers every letter in the data. Requests with capitals from other scripts are lower-cased differently by Python.
- The tools return dicts in the source; the model returns datatypes whose fields are the dict keys. `Option` stands for a dict lookup that returns None.
- The activity table's `.get("name", "")` default and `.get("difficulty")` behave as plain fields in the model. Every activity has both, so the default never applies and `.lower()` on a missing difficulty never happens.
- The model returns the table entries as values. Callers of the source get the table's own list and dict objects, which they could mutate. That aliasing is not modelled.
- Calling an accessor twice gives the same answer. For the accessors and tools that are functions this holds by construction, since the tables are Dafny constants. The three tools that are methods have postconditions that fix their results uniquely; DetailsAreStable, RecommendationsAreStable and ItineraryIgnoresDuration prove this for two calls.
- TravelAdvice.GetAltitudeAdvice: its contract states the size of each section and the instruction to descend, not every advisory string; the whole text is in the function body.
- `search_attractions` on a query that matches nothing is not worked out as a concrete example lemma. Its general contract (marker exactly when nothing passes) covers that case, but showing that none of the five long descriptions contains a given query is beyond what the solver proves within its resource limit.
