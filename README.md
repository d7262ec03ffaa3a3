# LaMontagne journey log — a Dafny model of its core

LaMontagne is a web application for logging mountain outings ("journeys").
Each journey records:

- a date and a season;
- the members and the pictures;
- an itinerary between two points;
- the altitudes;
- a weather snapshot;
- the climbing protections carried.

This project models the core of that application and proves properties of the model:

- **The value objects** (modules `Topo`, `Protection`, `MeteoModel`, `JourneyModel`).
  - Each constructor turns a partial record into a total one. An absent or falsy field (JavaScript `x || default`) gets its default.
  - The small queries on these objects are modelled too.
  - Every constructor is shown idempotent on its own output. The point, itinerary and altitude constructors have their own lemma. The wind, temperature, freezing-level and rope constructors are covered inside `MeteoIdempotent` and `ProtectionsIdempotent`.
- **The serialisation adapter** (`JourneyAdapter`).
  - `toJSON` turns a date into an ISO-8601 string; `fromJSON` rebuilds a journey.
  - Proved: serialising and reading back gives the same journey, provided ISO decoding inverts encoding.
- **The three store slices** (`JourneySlice`, `FiltersSlice`, `AuthSlice`).
  - Each is a reducer function plus a class whose methods update the store's fields in place.
  - The auth store keeps the browser's local storage in step with its token.
- **Token expiry** (`Token`). The JWT decoder is a parameter.
- **The journey list filter** (`JourneysPage`).
- **The editor page** (`EditJourney`):
  - create or update;
  - the journey selector;
  - the forecast button;
  - the dotted-path setter shared by `handleNestedInputChange` and `handleSelectChange`, written as a loop and proved against a recursive specification;
  - the comma-separated list handler.
- **The form components** (`ProtectionsForm`, `PhotosForm`, `MeteoForm`, `ItineraryForm`, `AltitudesForm`). Each handler rebuilds its record with one field changed.
  - The cam-size text field is a class holding the field's text.
  - The photo selection is a class holding the selected files and their preview URLs.
  - The weather form's fetch state is a class too.

Outside effects become parameters:

- the clock is `now`, in milliseconds;
- `new Date(string)` and `toISOString` are `decode`/`encode` functions;
- `parseFloat`, `parseInt` and `Number` are partial parsers returning `None` where JavaScript gives `NaN`;
- `URL.createObjectURL` is a function from files to strings;
- the JWT decoder is a function;
- the weather server's answer is a value handed to the fetch method.

Form data on the editor page is a JavaScript object. It is modelled as a map from property names to `Json` values.

The path setter splits names only on '.'. The rope inputs, named `protections.ropes[0].diameter`, therefore write a property literally called `ropes[0]` inside `protections`, and the rope list itself is not changed (see "## Findings").

## Model

| member | source | states |
|---|---|---|
| Topo.NewGeoPoint | src/types/Topo.ts:5-8 | a missing coordinate becomes 0; a provided one is kept |
| Topo.NewItinerary | src/types/Topo.ts:20-24 | both points are repaired through the point constructor; a missing track becomes "" |
| Topo.Itinerary.HasValidCoordinates | src/types/Topo.ts:26-31 | true only when neither point is the (0, 0) default; defined as all four coordinates non-zero |
| Topo.Itinerary.HasGpxTrack | src/types/Topo.ts:33-35 | true exactly when the track name is non-empty |
| Topo.NewAltitudes | src/types/Topo.ts:43-47 | each missing altitude becomes 0 |
| Topo.Altitudes.Denivele | src/types/Topo.ts:49-51 | the height difference, which added to the lowest point gives the highest, and is positive exactly when the highest point is above the lowest |
| Topo.Altitudes.IsValid | src/types/Topo.ts:53-55 | a valid record has a positive height difference and a positive elevation gain |
| Topo.ConstructorsIdempotent | src/types/Topo.ts:5-47 | re-running the point, itinerary and altitude constructors on their own output changes nothing |
| Topo.DefaultItineraryIsEmpty | src/types/Topo.ts:20-35 | the default itinerary has neither valid coordinates nor a track; any 0 coordinate makes `hasValidCoordinates` false |
| Topo.ValidAltitudesClimb | src/types/Topo.ts:43-55 | a valid altitude record has a positive height difference; the all-zero default is invalid |
| Protection.NewRope | src/types/Protection.ts:5-8 | a missing diameter or length becomes 0 |
| Protection.NewRopes | src/types/Protection.ts:18 | mapping the rope constructor keeps the length and repairs each rope at its index |
| Protection.NewProtections | src/types/Protection.ts:17-22 | absent ropes give one default rope; a given list, even empty, keeps its length and order; absent cams give [0]; a given cam list is kept; nuts and screws default to 0 |
| Protection.ProtectionsIdempotent | src/types/Protection.ts:17-22 | constructing from an existing inventory reproduces it |
| MeteoModel.NewTemperature | src/types/Meteo.ts:49-52 | missing bounds become 0 |
| MeteoModel.NewIso | src/types/Meteo.ts:59-62 | missing freezing levels become 0 |
| MeteoModel.NewWind | src/types/Meteo.ts:69-72 | the direction defaults to north and the speed to 0 |
| MeteoModel.Wind.Rotation | src/types/Meteo.ts:74-80 | the bearing is a multiple of 45 in 0..315 whose position in the compass rose N, NE, …, NW is the direction |
| MeteoModel.RotationInjective | src/types/Meteo.ts:74-80 | different directions have different bearings |
| MeteoModel.Meteo.DisplayName | src/types/Meteo.ts:18-37 | a label is non-empty exactly for the seven known sky conditions |
| MeteoModel.DisplayNamesDistinct | src/types/Meteo.ts:18-37 | the seven known conditions have pairwise different labels |
| MeteoModel.NewMeteo | src/types/Meteo.ts:10-16 | the sky defaults to SUNNY and the BERA index to 0; the nested records go through their constructors; the sky is never empty |
| MeteoModel.MeteoIdempotent | src/types/Meteo.ts:10-16 | constructing from a record with a non-empty sky reproduces every field |
| MeteoModel.Meteo.ShouldUpdateMeteo | src/types/Meteo.ts:39-42 | a refresh is due only for a journey in the future; defined as a whole-day difference in 1..7 |
| MeteoModel.ShouldUpdateWindow | src/types/Meteo.ts:39-42 | `shouldUpdateMeteo` holds exactly when the journey is at least one whole day and less than eight days ahead; today and past dates give false |
| JourneyModel.NewJourneyItinerary | src/types/Journey.ts:40-44 | an absent start or end is replaced wholesale by (0, 0); a provided point is kept unrepaired; the track id defaults to "" |
| JourneyModel.NewJourneyAltitudes | src/types/Journey.ts:45-49 | each missing altitude becomes 0 |
| JourneyModel.NewJourneyMeteo | src/types/Journey.ts:50-65 | the sky defaults to SUNNY, the wind to north, the numbers to 0, and the BERA index to 1, so 0 is replaced by 1 |
| JourneyModel.NewJourneyProtections | src/types/Journey.ts:66-71 | ropes and cams default to [], nuts and screws to 0 |
| JourneyModel.NewJourney | src/types/Journey.ts:33-73 | strings default to "", lists to [], the season to summer; a missing or falsy date becomes the clock and a given one is converted; the result is normalised |
| JourneyModel.NewJourneyIdempotent | src/types/Journey.ts:33-73 | re-running the constructor on a constructed journey gives the same journey, whatever the clock |
| JourneyModel.EmptyJourneyDefaults | src/types/Journey.ts:33-73 | the defaults of a journey built from nothing |
| JourneyModel.ToJson | src/types/Journey.ts:75-80 | every field is kept except the date, which becomes its ISO string |
| JourneyAdapter.ToJson | src/adapters/journeyAdapter.ts:4-8 | a date value becomes its ISO string, a string date passes through, and the other fields are untouched |
| JourneyAdapter.ToJsonIdempotent | src/adapters/journeyAdapter.ts:7 | applying `toJSON` to its own output changes nothing |
| JourneyAdapter.ToJsonAgreesWithJourney | src/adapters/journeyAdapter.ts:4-8 | on a journey holding a date value, the adapter agrees with the journey's own `toJSON` |
| JourneyAdapter.FromJson | src/adapters/journeyAdapter.ts:11-15 | never null: the result is exactly what the journey constructor makes of the data, so every default holds |
| JourneyAdapter.RoundTrip | src/adapters/journeyAdapter.ts:4-15 | `fromJSON(toJSON(j))` gives back any constructed journey, provided ISO decoding inverts encoding |
| JourneyAdapter.BeraZeroBecomesOne | src/types/Journey.ts:64 | a BERA index of 0 read from the wire comes back as 1 |
| JourneySlice.Reduce | src/store/features/journeySlice.ts:22-41 | each action's written fields (list and succeeded, error and failed, status, selection, resets), and every other field kept: only `setError` writes the error |
| JourneySlice.ReducerFrames | src/store/features/journeySlice.ts:22-41 | each reducer changes only its own fields; a new list or status keeps an earlier error |
| JourneySlice.AnyStatusReachable | src/store/features/journeySlice.ts:26-28 | any status can follow any other |
| JourneySlice.ResetCurrentJourneyIdempotent | src/store/features/journeySlice.ts:39-41 | clearing the selection twice is clearing it once |
| JourneySlice.ErrorIsSticky | src/store/features/journeySlice.ts:22-41 | after any sequence of actions the error is the last message set, or the earlier one; no action clears an error |
| JourneySlice.JourneyStore.constructor | src/store/features/journeySlice.ts:11-16 | no list, no selection, idle, no error |
| JourneySlice.JourneyStore.SetJourneys | src/store/features/journeySlice.ts:22-25 | stores the list and marks success; the selection and error are kept |
| JourneySlice.JourneyStore.SetStatus | src/store/features/journeySlice.ts:26-28 | changes only the status |
| JourneySlice.JourneyStore.SetError | src/store/features/journeySlice.ts:29-32 | stores the message and marks failure; the list and selection are kept |
| JourneySlice.JourneyStore.ResetJourneys | src/store/features/journeySlice.ts:33-35 | clears only the list; the status is not reset |
| JourneySlice.JourneyStore.SetCurrentJourney | src/store/features/journeySlice.ts:36-38 | changes only the selection |
| JourneySlice.JourneyStore.ResetCurrentJourney | src/store/features/journeySlice.ts:39-41 | clears only the selection |
| FiltersSlice.Reduce | src/store/features/filtersSlice.ts:24-36 | the range action stores its payload and keeps the season, the season action the reverse, and reset clears both |
| FiltersSlice.FilterReducerProperties | src/store/features/filtersSlice.ts:24-36 | setting the range stores it and keeps the season; setting the season keeps the range; reset gives the initial filters and is idempotent |
| FiltersSlice.FiltersStore.constructor | src/store/features/filtersSlice.ts:15-18 | no range and no season |
| FiltersSlice.FiltersStore.SetDateRange | src/store/features/filtersSlice.ts:24-29 | stores a copy of the range, or none, and keeps the season |
| FiltersSlice.FiltersStore.SetSeason | src/store/features/filtersSlice.ts:30-32 | changes only the season |
| FiltersSlice.FiltersStore.ResetFilters | src/store/features/filtersSlice.ts:33-36 | back to the initial filters |
| AuthSlice.InitialAuth | src/store/auth/authSlice.ts:13-17 | the token is the stored one; authenticated exactly when a non-empty token is stored; no user |
| AuthSlice.AuthenticatedHasToken | src/store/auth/authSlice.ts:23-34 | after login the store is authenticated with the given token; after logout it is not and has no token |
| AuthSlice.LoginReducer | src/store/auth/authSlice.ts:23-28 | logged in with the payload's token and user, whatever the token and the previous state |
| AuthSlice.LogoutReducer | src/store/auth/authSlice.ts:29-34 | logged out, with no token and no user, from any state |
| AuthSlice.ReloadAfterLoginLogout | src/store/auth/authSlice.ts:13-34 | a reload after login sees the same token, authenticated only when it is non-empty, and no user; a reload after logout is the logged-out state; logout is idempotent on the store and on the storage |
| AuthSlice.AuthStore.constructor | src/store/auth/authSlice.ts:13-17 | the initial state read from storage, in step with the storage |
| AuthSlice.AuthStore.Login | src/store/auth/authSlice.ts:23-28 | from any state, including one where storage already holds the new token, sets the token, the user and the flag, writes the token to storage, and leaves store and storage in step |
| AuthSlice.AuthStore.Logout | src/store/auth/authSlice.ts:29-34 | from any state, clears the token, the user and the flag, removes the stored token, and leaves store and storage in step |
| Token.IsTokenExpired | src/utils/token.ts:3-14 | a null or empty token, an undecodable one, a failing decoder and a missing or zero `exp` are expired; otherwise expired exactly when exp × 1000 < now |
| Token.ExpiryIsMonotone | src/utils/token.ts:10 | a token expired at some time is expired at every later time |
| Token.ExpiryBoundary | src/utils/token.ts:10 | at exactly exp × 1000 the token is still valid, and one millisecond later it is expired |
| ProtectionsForm.Rebuild | src/components/form/ProtectionsForm.tsx:31-34 | rebuilding an inventory from its own fields changes nothing |
| ProtectionsForm.HandleRopeDiameterChange | src/components/form/ProtectionsForm.tsx:23-37 | only the rope at the index changes, to the parsed diameter (0 when not a number); the other ropes, nuts, cams and screws are kept |
| ProtectionsForm.HandleRopeLengthChange | src/components/form/ProtectionsForm.tsx:39-53 | only the rope at the index changes, to the parsed integer length (0 when not a number); everything else is kept |
| ProtectionsForm.HandleAddRope | src/components/form/ProtectionsForm.tsx:55-62 | exactly one default rope is appended |
| ProtectionsForm.HandleRemoveRope | src/components/form/ProtectionsForm.tsx:64-76 | with at most one rope nothing is emitted; otherwise the rope at the index is spliced out, an index past the end removes nothing, and at least one rope remains |
| ProtectionsForm.HandleNutsChange | src/components/form/ProtectionsForm.tsx:78-87 | only the nut count changes, to the parsed integer or 0 |
| ProtectionsForm.HandleScrewsChange | src/components/form/ProtectionsForm.tsx:121-130 | only the screw count changes, to the parsed integer or 0 |
| ProtectionsForm.CamToken | src/components/form/ProtectionsForm.tsx:95-102 | a word's size, when there is one, is what `parseFloat` reads from the trimmed word; while typing a word ending in '.' has none; on blur every word is read by `parseFloat` |
| ProtectionsForm.ReadCams | src/components/form/ProtectionsForm.tsx:94-102 | one reading per word, in order |
| ProtectionsForm.Numbers | src/components/form/ProtectionsForm.tsx:103 | dropping the non-numbers never lengthens the list |
| ProtectionsForm.NumbersAppend | src/components/form/ProtectionsForm.tsx:103 | filtering distributes over concatenation |
| ProtectionsForm.ReadCamsAppend | src/components/form/ProtectionsForm.tsx:94-102 | reading distributes over concatenation |
| ProtectionsForm.CamValues | src/components/form/ProtectionsForm.tsx:94-103 | at most one size per word, and exactly the words' sizes in order when every word reads as a number |
| ProtectionsForm.CamValuesAppend | src/components/form/ProtectionsForm.tsx:94-103 | the sizes of two runs of words are the sizes of each run, in order |
| ProtectionsForm.CamWord | src/components/form/ProtectionsForm.tsx:98-101 | a word of the split is read as is; while typing, a word ending in '.' is dropped |
| ProtectionsForm.PartialNumberOnlyCountsOnBlur | src/components/form/ProtectionsForm.tsx:94-119 | a word ending in '.' is skipped while typing and read by `parseFloat` on blur; the blur only rewrites the field's text and emits nothing, so such a word reaches the displayed text but never the inventory |
| ProtectionsForm.NumbersAllDefined | src/components/form/ProtectionsForm.tsx:103 | when every reading is a number, all are kept in order |
| ProtectionsForm.CamValuesShown | src/components/form/ProtectionsForm.tsx:113-117 | reading back the written sizes gives the sizes |
| ProtectionsForm.CamsTextRoundTrip | src/components/form/ProtectionsForm.tsx:113-119 | the space-joined text of a list of sizes reads back as that list |
| ProtectionsForm.BlurIdempotent | src/components/form/ProtectionsForm.tsx:113-119 | leaving the cam field a second time changes nothing |
| ProtectionsForm.CamsField.constructor | src/components/form/ProtectionsForm.tsx:19-21 | the field starts as the sizes joined by spaces |
| ProtectionsForm.CamsField.HandleCamsChange | src/components/form/ProtectionsForm.tsx:89-111 | the field keeps the raw text; the cams become the numeric words, in order, skipping words that end in '.'; the rest of the inventory is kept |
| ProtectionsForm.CamsField.HandleCamsBlur | src/components/form/ProtectionsForm.tsx:113-119 | the field becomes the parsed sizes joined by single spaces |
| PhotosForm.HandleRemoveExistingPhoto | src/components/form/PhotosForm.tsx:51-54 | the photo at the index goes, the others keep their order, an index out of range removes nothing, and a missing list reads as empty |
| PhotosForm.RemoveExistingTwice | src/components/form/PhotosForm.tsx:51-54 | removing the same index twice removes two neighbouring photos |
| PhotosForm.PhotoSelection.constructor | src/components/form/PhotosForm.tsx:17-18 | no files and no previews |
| PhotosForm.PhotoSelection.HandleFileChange | src/components/form/PhotosForm.tsx:21-39 | an empty choice changes nothing; otherwise the new files are appended in order with one preview each, and the whole selection is emitted |
| PhotosForm.PhotoSelection.HandleRemoveSelectedFile | src/components/form/PhotosForm.tsx:41-49 | the file and its preview at the index leave both lists, which keep equal length and order |
| JourneysPage.Selected | src/pages/Journeys.tsx:30-43 | the two filter callbacks together: with no active range and no season every journey is selected; with a season, only journeys of that season |
| JourneysPage.FilteredJourneys | src/pages/Journeys.tsx:26-45 | no list gives []; a journey is in the result exactly when it is in the list, on or after `from` when both ends are set, and of the chosen season |
| JourneysPage.FilteredJourneysCounts | src/pages/Journeys.tsx:28-44 | every copy of a selected journey is kept and no copy of another, so with `FilteredIsSubsequence` the result is exactly the selected journeys in list order |
| Seqs.FilterCounts | src/pages/Journeys.tsx:30-43 | `Array.prototype.filter` keeps every occurrence of an accepted element and none of a rejected one |
| JourneysPage.FilteredIsSubsequence | src/pages/Journeys.tsx:28-44 | the result is a subsequence of the list |
| JourneysPage.NoFilterShowsAll | src/pages/Journeys.tsx:26-45 | with no range and no season the whole list is shown |
| JourneysPage.HalfRangeIgnored | src/pages/Journeys.tsx:30 | with only one end of the range the dates are not looked at |
| JourneysPage.AfterRangeStillListed | src/pages/Journeys.tsx:30-38 | as written, a journey after the end of the range is listed |
| JourneysPage.FilteredJourneysWithin | src/pages/Journeys.tsx:30-38 | corrected filter: a journey is listed exactly when it lies between both ends and has the season |
| JourneysPage.FilteredWithinCounts | src/pages/Journeys.tsx:30-38 | the corrected filter keeps every copy of a journey within the range and of the season, and no copy of another |
| JourneysPage.AfterRangeNotListedWithin | src/pages/Journeys.tsx:30-38 | with the corrected filter, a journey after the range is not listed |
| EditJourney.IsNewJourney | src/pages/EditJourney.tsx:45 | not new exactly when the route holds a non-empty id |
| EditJourney.SubmitChoice | src/pages/EditJourney.tsx:276-282 | create exactly when the route has no id; an update carries the form's own id |
| EditJourney.UpdateTargetsRouteJourney | src/pages/EditJourney.tsx:276-282 | once the loaded journey is in the form, the update goes to the route's journey |
| EditJourney.ConstructJourney | src/types/Journey.ts:33-34 | `new Journey(data)` throws exactly when `data` is undefined; otherwise it builds a normalised journey with the given id or "" |
| EditJourney.InitialFormDataAsWritten | src/pages/EditJourney.tsx:37 | as written, `new Journey()` throws on every render, whatever the route and the clock |
| EditJourney.InitialFormData | src/pages/EditJourney.tsx:37 | corrected initial state `new Journey({})`: built without throwing, the empty journey dated now |
| EditJourney.SelectJourneyAsWritten | src/pages/EditJourney.tsx:47-49 | no journey without an id; with an id and nothing loaded, the selector throws |
| EditJourney.SelectorThrowsBeforeLoad | src/pages/EditJourney.tsx:47-49 | opening the editor on a journey that is not loaded yet throws |
| EditJourney.SelectJourney | src/pages/EditJourney.tsx:47-49 | corrected selector: a journey exactly when there is an id and a loaded journey, and then the loaded journey itself; it agrees with the selector as written wherever that does not throw |
| EditJourney.CanRequestMeteo | src/pages/EditJourney.tsx:51-57 | false without a date; otherwise true exactly when the date is at most one week ahead |
| EditJourney.PastDatesMayRequest | src/pages/EditJourney.tsx:51-57 | past dates qualify |
| EditJourney.DecimalString | src/pages/EditJourney.tsx:161 | an index's key is its decimal spelling, which reads back to the index, so different indices give different keys |
| EditJourney.Indexed | src/pages/EditJourney.tsx:161 | spreading an array gives exactly its index keys, each holding the element at that index |
| EditJourney.SetPath | src/pages/EditJourney.tsx:153-168 | writing at a path adds its first key and keeps every other key at that level |
| EditJourney.SetPathReadBack | src/pages/EditJourney.tsx:153-168 | the written value is read back at the path |
| EditJourney.SetPathElsewhere | src/pages/EditJourney.tsx:153-168 | any other path that leaves the written one below existing objects reads the same before and after |
| EditJourney.SetPathCreatesMissing | src/pages/EditJourney.tsx:160-161 | a missing or falsy intermediate property becomes a new object holding only the rest of the path |
| EditJourney.SetPathBelowObject | src/pages/EditJourney.tsx:158-166 | a three-part write below an existing object adds the middle key holding only the leaf and keeps the object's other properties |
| EditJourney.HandleNestedInputChange | src/pages/EditJourney.tsx:137-170 | the copy-and-descend loop yields exactly the path write of the value at the dot-split name, one-part names included |
| EditJourney.HandleSelectChange | src/pages/EditJourney.tsx:173-201 | the same update as `handleNestedInputChange` |
| EditJourney.RopeIndexIsLiteralKey | src/pages/EditJourney.tsx:811-820 | as written, the input named `protections.ropes[0].diameter` adds a property literally called `ropes[0]` holding the typed text, keeps every other property of `protections`, and leaves the displayed first-rope diameter as it was |
| EditJourney.SetFirstRopeField | src/pages/EditJourney.tsx:811-820 | corrected rope write: the displayed field of the first rope reads back as the value; other form properties, other `protections` properties, the other ropes and the first rope's other fields are kept; a missing object, list or rope is created |
| EditJourney.ListItems | src/pages/EditJourney.tsx:205 | one more item than commas, each the trimmed piece |
| EditJourney.HandleArrayChange | src/pages/EditJourney.tsx:204-210 | the named property becomes the trimmed pieces, one more than commas; no other property changes |
| EditJourney.MembersTextRoundTrip | src/pages/EditJourney.tsx:375-381 | the ", "-joined members read back as the same members, when none has a comma or surrounding white space |
| EditJourney.EmptyTextGivesOneItem | src/pages/EditJourney.tsx:205 | an empty field gives one empty member |
| EditJourney.CamsWrittenToDottedKey | src/pages/EditJourney.tsx:869-873 | as written, the cam sizes land in a top-level property named "protections.cams" and the protections are unchanged |
| EditJourney.HandleArrayChangeAtPath | src/pages/EditJourney.tsx:869-873 | corrected handler: the items are read back at the dot-split path |
| EditJourney.CamsWrittenAtPath | src/pages/EditJourney.tsx:869-873 | with the path read, the cams land inside the protections and their other properties are kept |
| EditJourney.AtPathAgreesWithoutDot | src/pages/EditJourney.tsx:204-210 | for a name without a dot the corrected handler is the one as written |
| MeteoForm.DirectionOptionsAreCompass | src/components/form/MeteoForm.tsx:35 | the direction choices are the compass rose's names, in order |
| MeteoForm.CanRequestMeteo | src/components/form/MeteoForm.tsx:40-46 | true exactly when a date is set and lies strictly ahead by at most one week |
| MeteoForm.ButtonWindows | src/components/form/MeteoForm.tsx:40-46 | the form's window lies inside the editor's; a past date gets only the editor's button |
| MeteoForm.ButtonAndRefreshDisagree | src/components/form/MeteoForm.tsx:40-46 | a journey half a day ahead shows the button but is not due a refresh; one seven and a half days ahead is due a refresh but shows no button |
| MeteoForm.HandleSkyChange | src/components/form/MeteoForm.tsx:48-54 | only the sky changes, to the choice or SUNNY for an empty one |
| MeteoForm.HandleTempMaxChange | src/components/form/MeteoForm.tsx:56-66 | only the maximum temperature changes, to the number or 0 |
| MeteoForm.HandleTempMinChange | src/components/form/MeteoForm.tsx:68-78 | only the minimum temperature changes, to the number or 0 |
| MeteoForm.HandleIsoDayChange | src/components/form/MeteoForm.tsx:80-90 | only the day freezing level changes, to the number or 0 |
| MeteoForm.HandleIsoNightChange | src/components/form/MeteoForm.tsx:92-102 | only the night freezing level changes, to the number or 0 |
| MeteoForm.HandleWindDirectionChange | src/components/form/MeteoForm.tsx:104-113 | only the wind direction changes |
| MeteoForm.HandleWindSpeedChange | src/components/form/MeteoForm.tsx:115-125 | only the wind speed changes, to the number or 0 |
| MeteoForm.HandleBeraChange | src/components/form/MeteoForm.tsx:127-134 | only the BERA index changes, to the parsed integer or 0 |
| MeteoForm.BeraOptionStored | src/components/form/MeteoForm.tsx:127-134 | choosing the i-th option "0".."5" stores i, shown again as that option |
| MeteoForm.FieldEditsCommute | src/components/form/MeteoForm.tsx:56-125 | edits of different fields commute |
| MeteoForm.RequestDay | src/components/form/MeteoForm.tsx:145-148 | the request's day is the prefix of the ISO timestamp before its first 'T' |
| MeteoForm.RequestDayOfTimestamp | src/components/form/MeteoForm.tsx:145-148 | a timestamp "date T time" gives its date |
| MeteoForm.MeteoPanel.constructor | src/components/form/MeteoForm.tsx:37-38 | not loading, no error |
| MeteoForm.MeteoPanel.GetMeteo | src/components/form/MeteoForm.tsx:136-168 | without both coordinates no request is sent, the error is kept and only loading ends; otherwise the request for the journey's day is sent, an answer without error becomes the new record, any failure sets the message, and loading ends; loading is over on every path, as the `finally` runs after the early return too |
| MeteoForm.ZeroCoordinateNeverFetched | src/components/form/MeteoForm.tsx:138-140 | a 0 latitude or longitude never gets a forecast |
| ItineraryForm.HandleStartLatChange | src/components/form/ItineraryForm.tsx:18-28 | only the start latitude changes, to the number or 0; the result is a constructed itinerary |
| ItineraryForm.HandleStartLongChange | src/components/form/ItineraryForm.tsx:30-40 | only the start longitude changes |
| ItineraryForm.HandleEndLatChange | src/components/form/ItineraryForm.tsx:42-52 | only the end latitude changes |
| ItineraryForm.HandleEndLongChange | src/components/form/ItineraryForm.tsx:54-64 | only the end longitude changes |
| ItineraryForm.HandleGpxFileChange | src/components/form/ItineraryForm.tsx:66-79 | no file, no change; otherwise only the track changes, to the first file's preview URL |
| ItineraryForm.ClearedCoordinateInvalidates | src/components/form/ItineraryForm.tsx:18-64 | clearing any coordinate loses the valid coordinates |
| ItineraryForm.CoordinateEditsCommute | src/components/form/ItineraryForm.tsx:18-64 | edits of different coordinates commute and keep the track |
| AltitudesForm.HandleMaxChange | src/components/form/AltitudesForm.tsx:17-24 | only the maximum changes, to the number or 0 |
| AltitudesForm.HandleMinChange | src/components/form/AltitudesForm.tsx:26-33 | only the minimum changes, to the number or 0 |
| AltitudesForm.HandleTotalChange | src/components/form/AltitudesForm.tsx:35-42 | only the total changes, to the number or 0 |
| AltitudesForm.EditedDenivele | src/components/form/AltitudesForm.tsx:17-42 | the height difference follows the edited bounds; a non-numeric total makes the record invalid |
| AltitudesForm.AltitudeEditsCommute | src/components/form/AltitudesForm.tsx:17-42 | edits of different fields commute |

## Left out

- Rendering, routing, the map, animations and the other display-only components: they produce markup only.
- Network requests (`src/services/api.ts` and the fetch effects) are not modelled. The weather answer is a parameter of `MeteoForm.MeteoPanel.GetMeteo`. The editor's own `getMeteo`, the load effect and `handleSubmit`'s number coercion and dispatch are not part of this model; only its create-or-update choice is.
- Floating point: numbers are reals. `NaN` appears only as a parser returning `None`, and `Infinity` and rounding are not modelled.
- `Invalid Date` is not modelled: `decode` is total, so comparisons with an unparsable date are not represented.
- Time zones and daylight saving are not modelled. `differenceInDays` counts fixed blocks of 86 400 000 ms, and its calendar-day adjustment across a daylight-saving change is not modelled.
- `URL.revokeObjectURL` and the file input reset in the photo form are not modelled, because they have no effect on the lists.
- React batching and re-rendering are not modelled: each handler is applied to the state it reads.
- `decodeToken` (src/utils/jwt.ts) is a parameter. Base64 and JSON parsing are not part of this model.
- Prototype-chain properties of JavaScript objects, and keys other than strings, are not modelled in the editor's form data.
- Object identity is not modelled. The path setter's shared references are modelled by rebuilding the chain of copies from the bottom up.
- White space is the fixed list of ECMAScript WhiteSpace and LineTerminator code points in `Strings.IsSpace`. No Unicode character database is consulted.
- ProtectionsForm.HandleRopeDiameterChange: requires an index of an existing rope, as the form only passes those. A write past the end, which JavaScript would turn into a sparse array, is not modelled.
- ProtectionsForm.HandleRopeLengthChange: requires an index of an existing rope, for the same reason.
- ProtectionsForm.Numbers: states only that filtering never lengthens the list. Which numbers are kept is stated through `NumbersAppend` and `NumbersAllDefined`.
- MeteoForm.HandleWindDirectionChange: takes a direction rather than the select's string. The select offers exactly the eight names (`DirectionOptionsAreCompass`), so the unchecked cast never sees anything else.
- The login page (src/pages/Login.tsx) is not part of this model. It writes the token to storage before dispatching `login`, which `AuthStore.Login` allows. It also passes a bare string where the reducer reads `action.payload.token`; the model takes the token itself.
- PhotosForm.PhotoSelection.HandleFileChange: previews come from `objectUrl`, a fixed function. `URL.createObjectURL` returns a fresh URL on every call, so the same file chosen twice gets two different previews; the model gives it equal ones. No contract depends on the URLs being distinct.
- MeteoModel.NewWind: the direction is the eight-value `WindDirection`. A server answer with any other direction string cannot be represented, so the model does not capture `getRotation` returning `undefined` for it. An empty direction string, which `|| 'N'` turns into north, is represented as an absent direction.
- Token.IsTokenExpired: follows the code, under which a token is still valid at exactly exp × 1000 ms. Section 4.1.4 of RFC 7519 requires the current time to be before the expiry, so `ExpiryBoundary` states this one-millisecond difference.

## Findings

| source | as written | input that shows it | evidently intended | confidence | as-written member | corrected member |
|---|---|---|---|---|---|---|
| src/pages/Journeys.tsx:30-38 | the end of the date range is only tested for presence (`&& new Date(dateRange.to!)`) | a journey dated after `to`, with `from` before it | keep journeys whose date lies between `from` and `to` | high, not executed | JourneysPage.AfterRangeStillListed | JourneysPage.FilteredJourneysWithin |
| src/pages/EditJourney.tsx:37 | the form state is initialised with `new Journey()`, and the constructor reads `data.id` from the undefined argument | any render of the editor, with or without a route id | initialise with `new Journey({})` | high, not executed | EditJourney.InitialFormDataAsWritten | EditJourney.InitialFormData |
| src/pages/EditJourney.tsx:47-49 | with a route id the selector calls `fromJSON` on `currentJourney`, which is null until the journey is loaded, and `fromJSON` reads `data.date`; as written, line 37 throws earlier on the same render, so this is reached only once line 37 is corrected | route id "abc" on first render, before the fetch completes, with line 37 corrected | return null while nothing is loaded | high, not executed | EditJourney.SelectorThrowsBeforeLoad | EditJourney.SelectJourney |
| src/pages/EditJourney.tsx:811-820 | the rope diameter input is named `protections.ropes[0].diameter`, which the path setter splits only on '.', so the value goes to a property `ropes[0]` while the input shows `protections.ropes[0].diameter` | typing 9.5 in the rope diameter field of a journey with one rope of diameter 8.4: the field still shows 8.4 | write the diameter of the first rope | high, not executed | EditJourney.RopeIndexIsLiteralKey | EditJourney.SetFirstRopeField |
| src/pages/EditJourney.tsx:869-873 | the cam input calls `handleArrayChange('protections.cams', …)`, which writes a top-level property of that literal name | typing "1, 2" in the cam field | set `protections.cams` | high, not executed | EditJourney.CamsWrittenToDottedKey | EditJourney.HandleArrayChangeAtPath |
