# Nearby points of interest and their story, in Dafny

This project models how the travel-guide application finds points of interest (POIs) near the user and turns them into a story.

**Discovery** (`src/services/openStreetMapService.ts`):
- The Overpass API is queried around a location. The search radius starts at 500 m by default and grows by 900 m after every empty or failed query, up to 5000 m.
- Each OpenStreetMap element of a reply becomes a POI:
  - its coordinates are its own or its `center`'s;
  - its type is the first non-empty tag of shop, tourism, amenity, historic, leisure, natural, man_made, memorial;
  - its name is `name`, else `operator`, else "type at Nm";
  - its distance is the rounded great-circle distance.
- The POIs pass a five-rule filter, are stably sorted by distance, and are capped at 30.

**Story** (`src/services/storyGenerationService.ts`):
- From more than three POIs, a language model is asked to pick three by their 1-based index. The reply's indices are resolved against the list. A short pick is topped up from the POIs not yet picked, in list order, and the first three are kept. Any failure falls back to the first three POIs.
- A story prompt is built from the selection and the conversation so far, and sent to the model.
- If that fails, a templated story in Antwerp dialect is returned instead.

The model follows the code as written, including three quirks:
- A coordinate of exactly 0 counts as missing (JavaScript truthiness).
- The "valuable amenity" rule compares the derived type with the allow-list. It therefore rejects exactly the POIs whose type is the literal string "amenity".
- The residential-building check looks at the first element whose id string matches the POI's id.

Two places where one might expect other behaviour than the code gives:
- One might expect a duplicate-free selection. The code keeps repeated indices, so a reply `[2, 2, 2]` selects the second POI three times (`Selection.RepeatedIndicesPassThrough`).
- One might expect the repair to fill from the closest POIs. The code fills in list order. Discovery's output is sorted by distance, so the two agree on that input. The model states the list-order rule.

External services are function parameters:
- the Overpass provider: radius → elements or failure;
- the distance formula;
- the selection model: prompt → indices or failure;
- the story model: prompt → text or failure.

The radius loop (`Discovery.GetNearbyPointsOfInterest`) and the selector (`Selection.SelectInterestingPois` and its helper methods) are imperative methods with loops. Each is proved equal to a specification function (`Discovery.Discover` and `Discovery.Attempts` for the loop, `Selection.Select` for the selector), and the lemmas beside those functions state what the source promises.

Modules, one per file:
- `JsText` (`js_text.dfy`): the JavaScript string operations the core uses.
- `Types` (`types.dfy`): the shared records.
- `PoiClassifier` (`poi_classifier.dfy`): element → POI, and the filter.
- `DistanceSort` (`distance_sort.dfy`): the stable sort and the cap.
- `Discovery` (`discovery.dfy`): one query's pipeline and the radius loop.
- `Prompts` (`prompts.dfy`): the prompt texts.
- `Selection` (`selection.dfy`): picking three POIs.
- `Story` (`story.dfy`): the story response.

## Model

| member | source | states |
|---|---|---|
| `JsText.TrimStart` | src/services/openStreetMapService.ts:216 | the result is what remains after removing the leading whitespace: a suffix of the input, all of whose removed characters are whitespace, that is empty or starts with a non-whitespace character |
| `JsText.TrimEnd` | src/services/openStreetMapService.ts:241 | the result is what remains after removing the trailing whitespace: a prefix of the input, all of whose removed characters are whitespace, that is empty or ends with a non-whitespace character |
| `JsText.RemoveDigits` | src/services/openStreetMapService.ts:241 | the result is no longer than the input and holds no ASCII digit |
| `JsText.RemoveDigitsOne` | src/services/openStreetMapService.ts:241 | a single character is dropped exactly when it is an ASCII digit, and kept otherwise |
| `JsText.RemoveDigitsAppend` | src/services/openStreetMapService.ts:241 | removing digits works piece by piece: the result for `a + b` is the result for `a` followed by the result for `b`, so every non-digit is kept, in order |
| `JsText.IntToString` | src/services/openStreetMapService.ts:199 | the decimal text is non-empty and starts with a digit exactly when the number is non-negative |
| `JsText.NatToStringValue` | src/services/openStreetMapService.ts:199 | the digits of a non-negative integer read back, in base ten, to that integer |
| `JsText.IntToStringDenotes` | src/services/openStreetMapService.ts:199 | the text of an integer is its canonical decimal numeral: an optional minus sign, digits with no leading zero, whose value is the magnitude |
| `JsText.IntToStringInjective` | src/services/openStreetMapService.ts:199 | two integers with the same text are equal, so the id string identifies the element |
| `JsText.SplitAtSeparator` | src/services/storyGenerationService.ts:154-156 | splitting at any occurrence of the separator splits each side on its own |
| `JsText.SplitAfterPrefix` | src/services/storyGenerationService.ts:155 | a prefix without the separator joins the first part of what follows it |
| `JsText.SplitJoinEach` | src/services/storyGenerationService.ts:154-156 | splitting a join on its own separator gives the parts of every joined string in turn, whether or not they contain the separator |
| `JsText.SplitJoin` | src/services/storyGenerationService.ts:150-152 | joining lines with a separator none of them contains, then splitting on it, gives the lines back |
| `Types.Take` | src/services/storyGenerationService.ts:187 | `slice(0, k)` is the prefix of length min(k, length) |
| `PoiClassifier.Round` | src/services/openStreetMapService.ts:207 | `Math.round` gives the integer n with n - 0.5 <= x < n + 0.5 (halves round up) |
| `PoiClassifier.FirstTruthyTag` | src/services/openStreetMapService.ts:186-196 | the result is the value of the first key with a non-empty tag, all earlier tags being empty, or "unknown" when every tag is empty |
| `PoiClassifier.ClassifyByPriority` | src/services/openStreetMapService.ts:186-196 | the if-chain over the eight keys equals the first-non-empty-tag rule over the priority list |
| `PoiClassifier.PoiName` | src/services/openStreetMapService.ts:200-203 | the name is the `name` tag if non-empty, else the `operator` tag if non-empty, else "type at Nm" |
| `PoiClassifier.ToPoi` | src/services/openStreetMapService.ts:165-208 | an element yields a POI exactly when both coordinates resolve to non-zero values (its own, else its centre's); the POI carries those coordinates, the id's decimal text, the priority type, the rounded oracle distance and the name rule |
| `PoiClassifier.MapElements` | src/services/openStreetMapService.ts:164-210 | mapping and dropping nulls never gives more POIs than elements |
| `PoiClassifier.MapElementsOne` | src/services/openStreetMapService.ts:164-210 | one element maps to its POI, or to nothing when it has no coordinates |
| `PoiClassifier.MapElementsAppend` | src/services/openStreetMapService.ts:164-210 | mapping works element by element: the POIs of `u + v` are those of `u` followed by those of `v`, so order and repetitions are kept |
| `PoiClassifier.MappedFromElements` | src/services/openStreetMapService.ts:164-210 | every mapped POI is the POI of some element of the reply |
| `PoiClassifier.MappedKeepsEvery` | src/services/openStreetMapService.ts:164-210 | every element that yields a POI has that POI in the mapped list |
| `PoiClassifier.FindById` | src/services/openStreetMapService.ts:225-227 | the result is None exactly when no element's id text matches; otherwise it is the first matching element |
| `PoiClassifier.FilterPois` | src/services/openStreetMapService.ts:213-245 | the filtered list holds exactly the input POIs that pass the filter, and is no longer than the input |
| `PoiClassifier.FilterPoisOne` | src/services/openStreetMapService.ts:213-245 | one POI is kept exactly when it passes the filter |
| `PoiClassifier.FilterPoisAppend` | src/services/openStreetMapService.ts:213-245 | filtering works POI by POI: the result for `u + v` is the result for `u` followed by the result for `v`, so order and repetitions are kept |
| `PoiClassifier.Keep` | src/services/openStreetMapService.ts:214-245 | a POI passes exactly when its trimmed name is non-empty, its type is not excluded, its element is not marked residential, its type is not "amenity", and its name without digits, trimmed, is longer than two characters |
| `PoiClassifier.AmenityRuleRejectsExactlyAmenity` | src/services/openStreetMapService.ts:237-238 | the amenity rule rejects a type exactly when the type is "amenity" |
| `PoiClassifier.StrippedSynthesisedName` | src/services/openStreetMapService.ts:203 | removing digits from "type at Nm" removes them only from the type and the number |
| `PoiClassifier.SynthesisedNamePassesNameRules` | src/services/openStreetMapService.ts:216-242 | a synthesised "type at Nm" name always passes both name rules |
| `PoiClassifier.MappedDistancesNonNegative` | src/services/openStreetMapService.ts:178-207 | if the distance formula is non-negative, every mapped POI has a distance, and it is a non-negative whole number |
| `DistanceSort.Insert` | src/services/openStreetMapService.ts:246 | inserting adds exactly one occurrence of the POI |
| `DistanceSort.InsertSorted` | src/services/openStreetMapService.ts:246 | inserting into a sorted list keeps it sorted and keeps every lower bound the POI meets |
| `DistanceSort.SortByDistance` | src/services/openStreetMapService.ts:246 | the result is sorted by distance (absent counting as 0) and is a permutation of the input |
| `DistanceSort.SortByDistanceMembers` | src/services/openStreetMapService.ts:246 | sorting keeps exactly the POIs it was given |
| `DistanceSort.SortByDistanceIsStable` | src/services/openStreetMapService.ts:246 | the sort is stable: POIs with equal keys keep their input order |
| `DistanceSort.SortedSameKeysEqual` | src/services/openStreetMapService.ts:246 | two sorted lists that agree on the POIs of every key, in order, are equal |
| `DistanceSort.StableSortIsUnique` | src/services/openStreetMapService.ts:246 | any stable sort of the input equals `SortByDistance` of it |
| `DistanceSort.CapResults` | src/services/openStreetMapService.ts:247 | the result is the prefix of length min(n, 30): all of a list of 30 or fewer, and sorted when the input is |
| `Discovery.PipelineSound` | src/services/openStreetMapService.ts:164-247 | one reply gives at most 30 sorted POIs, each passing the filter and built from an element; the result is the first 30 of any stable sort of the passing POIs |
| `Discovery.FetchPointsOfInterest` | src/services/openStreetMapService.ts:122-254 | a query fails exactly when the provider fails |
| `Discovery.Radii` | src/services/openStreetMapService.ts:87-93 | the candidate radii are r, r + 900, ... while at most 5000, and how many there are |
| `Discovery.Discover` | src/services/openStreetMapService.ts:93-116 | a non-empty result is the reply of the provider at some radius between the start and 5000 m |
| `Discovery.Attempts` | src/services/openStreetMapService.ts:93-114 | the loop makes no more calls than there are candidate radii |
| `Discovery.GetNearbyPointsOfInterest` | src/services/openStreetMapService.ts:82-117 | the loop returns the first non-empty result over the radii, or an empty list, and calls the provider at exactly the radii `Attempts` lists |
| `Discovery.AttemptsArePrefixOfRadii` | src/services/openStreetMapService.ts:93-114 | the radii queried are a prefix of the candidate radii |
| `Discovery.DefaultRadii` | src/services/openStreetMapService.ts:84-88 | from the default 500 m the candidate radii are 500, 1400, 2300, 3200, 4100 and 5000 |
| `Discovery.DefaultRadiusAtMostSixCalls` | src/services/openStreetMapService.ts:84-114 | from the default start the loop makes at most six provider calls |
| `Discovery.EarlierCallsFoundNothing` | src/services/openStreetMapService.ts:93-114 | every call before the last one failed or came back empty |
| `Discovery.FirstNonEmptyWins` | src/services/openStreetMapService.ts:96-104 | the result is non-empty exactly when the last call found something, and is then that call's reply |
| `Discovery.NothingFoundTriesAll` | src/services/openStreetMapService.ts:93-116 | an empty result means every candidate radius was tried and none found anything |
| `Discovery.ProviderErrorAdvances` | src/services/openStreetMapService.ts:109-113 | a provider error is swallowed: the loop moves on to the next radius with no result kept |
| `Discovery.ThirdRadiusScenario` | src/services/openStreetMapService.ts:93-114 | empty at 500 and 1400 m and non-empty at 2300 m gives three calls and the 2300 m reply |
| `Discovery.DiscoverComesFromOneRadius` | src/services/openStreetMapService.ts:93-116 | a non-empty result is the reply of one of the candidate radii |
| `Discovery.DiscoverIsFilteredSortedCapped` | src/services/openStreetMapService.ts:82-254 | whatever the provider does, discovery returns at most 30 sorted POIs, and a non-empty result is the pipeline of one candidate radius's reply |
| `Prompts.DistanceText` | src/services/storyGenerationService.ts:85 | the printed distance holds no line break |
| `Prompts.SummaryIsSingleLine` | src/services/storyGenerationService.ts:85 | a POI summary is one line when the name and type are |
| `Prompts.SelectionLines` | src/services/storyGenerationService.ts:82-87 | there is one numbered line per POI |
| `Prompts.SelectionListNumbersPois` | src/services/storyGenerationService.ts:82-87 | when no name or type holds a line break, the list read back line by line has one line per POI, the i-th reading "i. name (type, Nm away)" |
| `Prompts.SelectionPromptParts` | src/services/storyGenerationService.ts:77-92 | the selection prompt is the fixed introduction, then the numbered list joined by line breaks, then the fixed instructions |
| `Prompts.ContextBlock` | src/services/storyGenerationService.ts:162-167 | the block is empty exactly when there is no history; otherwise it is the context header followed by the conversation context |
| `Prompts.StoryPromptParts` | src/services/storyGenerationService.ts:158-176 | the story prompt is the fixed opening with the POI list, then the context block, then the fixed instructions |
| `Prompts.PromptWithoutHistory` | src/services/storyGenerationService.ts:162-167 | without history the POI list and the instructions meet with no context block between them |
| `Prompts.StoryListOneLinePerPoi` | src/services/storyGenerationService.ts:150-152 | when no name or type holds a line break, the story prompt's list read back line by line has one "- name (type, Nm away)" line per selected POI, in order |
| `Prompts.ContextLinesPerMessage` | src/services/storyGenerationService.ts:154-156 | for any history, the context read back line by line is the lines of each "role: content" entry in turn, in message order |
| `Prompts.MessageLineSplit` | src/services/storyGenerationService.ts:155 | one entry spans the lines of its content, the first prefixed with "role: ", so a multi-line story gives several lines |
| `Prompts.ContextOneLinePerMessage` | src/services/storyGenerationService.ts:154-156 | when no message content holds a line break, the context read back line by line has one "role: content" line per message, in order |
| `Selection.ResolveIndices` | src/services/storyGenerationService.ts:122-125 | the resolved positions are no more than the indices, and all are inside the list |
| `Selection.ResolveIndicesOne` | src/services/storyGenerationService.ts:122-125 | one index k resolves to position k - 1 when 1 <= k <= n, and to nothing otherwise |
| `Selection.ResolveIndicesAppend` | src/services/storyGenerationService.ts:122-125 | resolving works index by index: the positions for `a + b` are those for `a` followed by those for `b`, so reply order and repeated indices are kept |
| `Selection.ResolvedMembers` | src/services/storyGenerationService.ts:122-125 | position j is resolved exactly when j + 1 is in the reply and names a POI |
| `Selection.Unpicked` | src/services/storyGenerationService.ts:129 | the remaining positions are inside the list |
| `Selection.UnpickedMembers` | src/services/storyGenerationService.ts:129 | the remaining positions are exactly those not picked |
| `Selection.UnpickedAscending` | src/services/storyGenerationService.ts:129 | the remaining positions come in list order |
| `Selection.UnpickedAtLeast` | src/services/storyGenerationService.ts:128-130 | at least n minus the number of picks remain to top up from |
| `Selection.At` | src/services/storyGenerationService.ts:124 | the POIs at the given positions, one per position, in order |
| `Selection.Select` | src/services/storyGenerationService.ts:66-141 | the selection has exactly min(n, 3) POIs, three or fewer POIs come back unchanged, and every selected POI is an input POI, whatever the model answers |
| `Selection.SelectInterestingPois` | src/services/storyGenerationService.ts:66-141 | the method returns `Select` of its input, and asks the model with the selection prompt exactly when there are more than three POIs |
| `Selection.PickFromReply` | src/services/storyGenerationService.ts:122-135 | the parse-and-repair path returns the POIs at the first three repaired positions |
| `Selection.ResolvePicks` | src/services/storyGenerationService.ts:122-125 | the loop over the indices computes `ResolveIndices` |
| `Selection.RemainingPositions` | src/services/storyGenerationService.ts:129 | the loop over the list computes `Unpicked` |
| `Selection.AtAppend` | src/services/storyGenerationService.ts:130 | picking two position lists one after the other picks their POIs one after the other |
| `Selection.LongPickIsKept` | src/services/storyGenerationService.ts:135 | three or more resolved picks give the first three, in reply order |
| `Selection.ShortPickIsToppedUp` | src/services/storyGenerationService.ts:128-135 | fewer than three picks come first, followed by the first unpicked POIs in list order, none of them already picked |
| `Selection.FailureFallsBackToFirstThree` | src/services/storyGenerationService.ts:136-140 | a failed model call selects the first three POIs |
| `Selection.ThreeValidIndices` | src/services/storyGenerationService.ts:122-135 | the reply [2, 5, 9] for ten POIs selects the second, fifth and ninth |
| `Selection.RepeatedIndicesPassThrough` | src/services/storyGenerationService.ts:122-135 | the reply [2, 2, 2] for five POIs selects the second POI three times |
| `Selection.NoUsableIndexFillsFromStart` | src/services/storyGenerationService.ts:122-131 | a reply with no index in 1..n selects the first three POIs |
| `Selection.NothingResolved` | src/services/storyGenerationService.ts:123-125 | indices all outside 1..n resolve to nothing |
| `Selection.UnpickedIsRange` | src/services/storyGenerationService.ts:129 | with nothing picked, the remaining positions are 0, 1, ..., n - 1 |
| `Story.FirstOf` | src/services/storyGenerationService.ts:21 | `selectedPOIs[0]` is defined exactly when the selection is non-empty, and is then its first POI |
| `Story.SimulatedStoryResponse` | src/services/storyGenerationService.ts:182-214 | the templated response fails (a read of `undefined`) exactly when there are neither POIs nor history; otherwise it selects the first three POIs, and the story is empty exactly when there is history |
| `Story.SimulatedStoryNamesFirstPoi` | src/services/storyGenerationService.ts:202-206 | on a first interaction the story gives the summaries and then recommends the first POI by name |
| `Story.GenerateStory` | src/services/storyGenerationService.ts:6-61 | the model's story goes with the selection and its first POI, and a failed story call gives the templated response for the whole input; with any POIs the result is a response; more than three POIs give exactly three selected, all taken from the input |

## Left out

- The great-circle formula (`calculateDistance`, the haversine) is a parameter of the model. It involves floating-point trigonometry. Non-negativity is only a hypothesis of `PoiClassifier.MappedDistancesNonNegative`.
- The Overpass query text, the HTTP request and the JSON decoding of the reply are left out. The provider is a function from radius to elements or failure, with the location fixed.
- `Discovery.FetchPointsOfInterest`: the error message text is not modelled. Only the fact that the error is thrown is kept, because the loop discards it.
- The language model calls (`/api/llm`), the non-OK status check, the regular expression that finds the first bracketed array, and `JSON.parse` are left out. They are folded into the reply types: indices or failure for selection, text or failure for the story.
- `Story.GenerateStory`: a reply whose `text` field is missing (which would give an `undefined` story) is not modelled. The story reply is text or failure.
- Logging (`console.log`, `console.warn`, `console.error`) is left out, because it has no effect on results.
- Wikipedia lookups, narration and `helper.ts` are not part of this model. Neither are the React components, hooks and pages.
- NaN coordinates and NaN distances are not modelled. A coordinate is a real number or absent.
- Discovery radii, distances and reply indices are integers. Non-integer radii and non-integer indices from the model reply are not modelled.
- `JsText.IntToString`: integer-valued numbers are rendered in plain decimal. The exponent notation JavaScript uses from 1e21 up is not modelled.
- String lengths count characters, not UTF-16 code units. For characters outside the Basic Multilingual Plane the name-length rule could therefore differ.
- The optional `description` field of a POI is not modelled, because the core never sets or reads it.
- `Prompts.StoryPrompt` and `Prompts.SelectionPrompt`: their layout is stated by the lemmas `Prompts.StoryPromptParts` and `Prompts.SelectionPromptParts`, not by the functions' own contracts, so that callers do not reason about the long fixed texts.
- Selection uses a POI's position in the list where the code uses JavaScript object identity (`includes` at src/services/storyGenerationService.ts:129). An input holding the same object twice is therefore not modelled. The code never builds one: POIs are fresh object literals built in `.map` (src/services/openStreetMapService.ts:198-207) or from decoded JSON.
