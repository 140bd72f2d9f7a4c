# Italian address client — a Dafny model

This project models `ItalianAddressClient`, a browser and server library for Italian addresses. It offers data methods that build PostgREST-style queries against an address service. Its `attachAutocomplete` method wires four cascading form fields, region, province, municipality and street, so that a selection at one level clears and refetches the levels below it.

The model is split into six modules:

- `Records`: the service's record with its optional attributes, and the JavaScript conventions the client relies on: truthiness, `||` and the string form of `undefined`.
- `Queries`: the data methods as pure functions from their arguments to an endpoint and an ordered parameter list. The `eq.` and `ilike.*q*` filter encodings round-trip. The fetch helper keeps exactly the parameters that are present, in order, and turns any transport failure into the empty result. The transport is a function parameter, `Request -> Response`.
- `Debounce`: the debouncer. It is a class with one pending slot, specified against a pure step function. A lemma shows that a burst of calls runs only its last call, once, after the 300 ms delay.
- `Hierarchy`: the selection state (one optional record per level), what a selection does to it, and the output slots. Selecting a municipality writes `istat_code`, while a reset blanks `municipality_code`. So a reset never clears the ISTAT code, and the model reproduces that as written.
- `Fields`: a bound select (its option list and the selected option) and a text input (its text, its suggestion panel's visibility and rows). It includes the option list rebuilt by `_refreshSelect` and the loops of `_refreshSelect` and `_setElementValue`.
- `AddressClient`: the `Client` class, whose `state` is updated in place, and the `Form` class, whose methods are the page events:
  - a select changing;
  - typing;
  - the debounce timer firing;
  - a click on a suggestion or on the document.

  The source functions each field is bound to are function values built from the transport (`Wired`, `WiredDownstream`). Each reads the state at the moment it is called, as the closures in the JavaScript do.

The loops of `_resetDownstream`, the initial binding and the document-click listeners are methods with loop invariants. The invariants are stated against recursive functions that take the loop one level at a time. Lemmas then connect those functions to closed-form descriptions of the result (`ResetFields`, `ResetOutputs`, `FirstLists`, `Dismissed`).

The client does not keep the state consistent ("an unset level has only unset levels after it"). A province can be chosen with no region, and a street with no municipality. The model states this as a lemma instead of assuming the invariant. Picking a select's first option ("-- Seleziona --") is ignored: the state keeps the earlier selection.

## Model

| member | source | states |
|---|---|---|
| Queries.DecodeEncode | italian-address-client.js:48-49 | the `eq.` and `ilike.*q*` text encodings are injective: each reads back as the filter written |
| Queries.Encode | italian-address-client.js:44-64 | the `eq.${x}` and `ilike.*${q}*` texts of the filter values; DecodeEncode states that they read back as the filter written |
| Queries.PresentMembers | italian-address-client.js:26-28 | a parameter is sent with value v exactly when it was given with the present value v |
| Queries.Present | italian-address-client.js:26-28 | the parameters that reach the service; what it keeps and in which order is stated by PresentMembers and PresentAppend |
| Queries.PresentAppend | italian-address-client.js:26-28 | dropping absent parameters distributes over concatenation, so the original order is kept |
| Queries.Fetch | italian-address-client.js:29-36 | the result is the transport's records, or the empty sequence when the transport fails |
| Queries.RegionsQuery | italian-address-client.js:41 | endpoint `regions`, parameters exactly `order=name.asc` |
| Queries.ProvincesQuery | italian-address-client.js:42-46 | endpoint `provinces`, `order=name.asc` always, and `region_code=eq.<code>` exactly when the code is truthy, in that order |
| Queries.MunicipalitiesQuery | italian-address-client.js:47-51 | `name=ilike.*q*`, `limit` = the option when truthy else 50, `order=name.asc`, then `province_code=eq.<code>` exactly when the code is truthy |
| Queries.StreetsQuery | italian-address-client.js:52-62 | with a truthy ISTAT code: endpoint `streets`, `istat_code=eq.<code>`, `order=name.asc`; otherwise `streets_full` with `municipality.asc,name.asc`; `name=ilike.*q*` and `limit` defaulting to 100 in both |
| Queries.AddressDetailsQuery | italian-address-client.js:64 | endpoint `address_details`, parameters exactly `id=eq.<id>` |
| Queries.AddressDetails | italian-address-client.js:63-66 | none exactly when the fetch yields nothing, otherwise the first record fetched |
| Debounce.BurstRunsLastOnly | italian-address-client.js:187-190 | in a burst of calls each within the delay of the previous one, nothing runs before the last call's deadline; at it, exactly the last call runs, once, with its own argument, and nothing stays pending |
| Debounce.TypingBurst | italian-address-client.js:157 | typing at 0, 50 and 100 ms with the 300 ms delay: nothing has run at 399 ms; one run at 400 ms with the last text |
| Debounce.Debouncer.constructor | italian-address-client.js:188 | a new debouncer has the given delay and no pending call |
| Debounce.Debouncer.Call | italian-address-client.js:189 | a call cancels what was pending and schedules itself for now plus the delay |
| Debounce.Debouncer.Elapse | italian-address-client.js:189 | the pending call runs exactly when it is due, returning its argument and leaving nothing pending; otherwise nothing changes |
| Debounce.Step | italian-address-client.js:189 | one event of the debouncer, a call (clearTimeout then setTimeout) or time passing (the timer firing); Debouncer.Call and Debouncer.Elapse are proved against it, and BurstRunsLastOnly states what a burst of steps runs |
| Hierarchy.Index | italian-address-client.js:162-163 | the position of a level in the fixed order region, province, municipality, street |
| Hierarchy.EmptyComplete | italian-address-client.js:18 | a new client's state has all four levels, each null |
| Hierarchy.ClearFrom | italian-address-client.js:164-166 | clearing from position i sets exactly the levels at or after i to null |
| Hierarchy.ClearAfter | italian-address-client.js:161-166 | the state after `_resetDownstream`; ClearFrom states which levels it nulls and AfterSelect what a selection leaves |
| Hierarchy.AfterSelect | italian-address-client.js:161-166 | a selection stores the record at its level, leaves earlier levels unchanged and sets every later level to null |
| Hierarchy.SelectOverwrites | italian-address-client.js:161-166 | selecting twice at one level equals selecting the second record |
| Hierarchy.UpstreamSelectionSupersedes | italian-address-client.js:161-166 | a selection at an earlier level erases any selection made below it |
| Hierarchy.SelectConsistency | italian-address-client.js:161-166 | from a consistent state, a selection stays consistent exactly when it is at the region level or its parent level is set |
| Hierarchy.SelectionWithoutUpstream | italian-address-client.js:82-98 | selecting a province, or a street, in the new state leaves it inconsistent: the client does not enforce the cascade invariant |
| Hierarchy.SlotNamesDistinct | italian-address-client.js:171 | two slots have the same key exactly when they are the same slot |
| Hierarchy.SelectSlot | italian-address-client.js:78-96 | the output slot a selection writes (`region_code`, `province_code`, `istat_code`, `street_id`); SlotsDifferOnlyForMunicipality and SelectKeepsIdentifier state it |
| Hierarchy.Identifier | italian-address-client.js:78-96 | the attribute a selection writes (`code`, `code`, `istat_code`, `id`); SelectKeepsIdentifier and StaleIstatCode state what the slot then holds |
| Hierarchy.ResetSlot | italian-address-client.js:171 | the output slot a reset of a level blanks; ResetSlotSpelling states its key and ResetLevel its inverse |
| Hierarchy.ResetSlotSpelling | italian-address-client.js:171 | the slot a reset blanks is the level's name plus `_id` for the street and `_code` otherwise |
| Hierarchy.SlotsDifferOnlyForMunicipality | italian-address-client.js:171 | the key a reset blanks equals the key the selection writes exactly at every level but the municipality |
| Hierarchy.ResetLevel | italian-address-client.js:171 | the level whose reset blanks a slot, the inverse of the reset slot; none for `istat_code` |
| Hierarchy.BlankedByReset | italian-address-client.js:164-172 | a reset after l blanks a slot exactly when it is the reset slot of a later level |
| Hierarchy.IstatSlotNeverReset | italian-address-client.js:164-172 | no reset, from any level, blanks the `istat_code` slot |
| Hierarchy.ResetOutputs | italian-address-client.js:171 | `_resetDownstream` on the output slots; BlankedByReset and IstatSlotNeverReset state which slots it empties |
| Hierarchy.OutputsStep | italian-address-client.js:171 | one iteration of the reset loop blanks the present slot of its level, extending the outputs reset so far by that level |
| Fields.ChoiceFor | italian-address-client.js:118-121 | an option's value is `code`, else `istat_code`, else `id` (by truthiness); its text is `name`, else `display_name`; it carries the record |
| Fields.Rendered | italian-address-client.js:116-123 | the rebuilt list has one option more than the records, the sentinel first carrying none, option i+1 the option ChoiceFor builds from record i |
| Fields.RenderChoices | italian-address-client.js:116-123 | the appending loop builds exactly the rebuilt list |
| Fields.FindByText | italian-address-client.js:183 | the search loop finds the first option whose text equals the value, or none |
| Fields.SelectByValue | italian-address-client.js:183 | assigning an option's value selects the first option having that value |
| Fields.Displayed | italian-address-client.js:181-185 | a text input takes the value's string form; a select keeps its options and moves to the first option with the value of the first option whose text matches (no earlier option has that value), or stays as it was |
| Fields.Label | italian-address-client.js:147 | a suggestion's label, `name || display_name`; its use in the clicked text is stated by SuggestionTextParts |
| Fields.SuggestionText | italian-address-client.js:150 | the text a clicked suggestion puts in its input; SuggestionTextParts states its prefix and suffix |
| Fields.Searched | italian-address-client.js:138-143 | the input handler once its records are known; ShortInputHidesPanel and LongInputListsMatches state both branches |
| Fields.Blanked | italian-address-client.js:167-169 | a field after a reset; SelectBlanksDownstream states what it shows |
| Fields.SuggestionTextParts | italian-address-client.js:147-150 | a clicked suggestion's text ends with the label and starts with the street type and a space when there is one |
| AddressClient.BoundQuery | italian-address-client.js:82-94 | the query each level's source function issues; StreetSearchScope and SourcesReadUpstream state what it reads from the state |
| AddressClient.Wired | italian-address-client.js:76-94 | the four source functions over the transport; SourcesReadUpstream and LongInputListsMatches state what they return |
| AddressClient.WiredDownstream | italian-address-client.js:168 | the list source passed to `_refreshSelect` during a reset; DownstreamIsBoundSource and SourcesReadUpstream state what it returns and reads |
| AddressClient.DownstreamRecords | italian-address-client.js:175-179 | `_getDownstreamSource`; DownstreamIsBoundSource states its relation to the bound sources |
| AddressClient.ResetFields | italian-address-client.js:164-170 | `_resetDownstream` on the fields; ResetReadsFinalState and SelectBlanksDownstream state what each later field becomes |
| AddressClient.OutputsAfterSelect | italian-address-client.js:76-98 | the output slots after a selection callback; SelectKeepsIdentifier states the slot written, StaleIstatCode the `istat_code` slot that survives a reset |
| AddressClient.FieldsAfterSelect | italian-address-client.js:76-98 | the fields after a selection callback; SelectBlanksDownstream, RegionSelectionRefreshes, ProvinceSelectionRefreshes and StreetSelectionFields state it level by level |
| AddressClient.InputHandled | italian-address-client.js:136-143 | the debounced handler run with the text and state of the moment; ShortInputHidesPanel and LongInputListsMatches state it |
| AddressClient.Dismissed | italian-address-client.js:158 | the fields after a document click; DismissedWalk proves the listener loop reaches it |
| AddressClient.DownstreamIsBoundSource | italian-address-client.js:175-179 | the downstream list of province and municipality is what the bound source gives for the empty input; region and street get none |
| AddressClient.SourcesReadUpstream | italian-address-client.js:82-94 | a source's records depend only on the selections above its own level, read when it is called |
| AddressClient.ResetReadsFinalState | italian-address-client.js:164-177 | after a reset each later select lists what its downstream source gives in the fully cleared state; earlier fields are untouched |
| AddressClient.SelectBlanksDownstream | italian-address-client.js:161-170 | after a selection above the street, later text inputs are emptied and later selects show the sentinel, matching the null state |
| AddressClient.RegionSelectionRefreshes | italian-address-client.js:161-179 | selecting a region refetches the province list for that region's code and the municipality list unscoped |
| AddressClient.ProvinceSelectionRefreshes | italian-address-client.js:161-179 | selecting a province refetches the municipality list for that province's code |
| AddressClient.StreetSelectionFields | italian-address-client.js:94-98 | a street selection changes only the municipality field, and only when no municipality is selected, to show the street's municipality |
| AddressClient.PickKeepsAgreement | italian-address-client.js:104-107 | picking an option that carries a record at a level above the street keeps every select showing what the state holds |
| AddressClient.StreetPickCanShowUnselectedMunicipality | italian-address-client.js:94-98 | a street pick made with no municipality selected moves the municipality select to the first option named after the street's municipality; when that option carries a record and no earlier option shares its value, the select shows it while the state's municipality stays null, so the selects no longer agree with the state |
| AddressClient.SentinelKeepsSelection | italian-address-client.js:104-107 | picking the sentinel leaves the state unchanged, so a select whose level holds a record no longer shows it |
| AddressClient.BoundAgrees | italian-address-client.js:113-116 | right after binding every select shows nothing selected, as the new state holds |
| AddressClient.StaleIstatCode | italian-address-client.js:88-92 | after a municipality selection and then a selection above it, the state's municipality is null but the `istat_code` slot still holds the municipality's code |
| AddressClient.SelectKeepsIdentifier | italian-address-client.js:76-98 | after a selection, the level's output slot, when present, holds the string form of the record's identifier: the reset never blanks it |
| AddressClient.ShortInputHidesPanel | italian-address-client.js:138 | an input shorter than two characters issues no search: whatever the source, the handler only hides the panel |
| AddressClient.LongInputListsMatches | italian-address-client.js:139-143 | a long enough input's rows are exactly the records fetched for its text, and the panel is shown when there is at least one |
| AddressClient.StreetSearchScope | italian-address-client.js:94 | the street search uses `streets` exactly when the selected municipality has a truthy ISTAT code, and filters on that code |
| AddressClient.BoundFromUnbound | italian-address-client.js:113-116 | rebuilding the selects of freshly bound fields gives the bound fields |
| AddressClient.Bound | italian-address-client.js:101-116 | the fields right after binding; BoundFromUnbound states it is reached from the placeholders, and BoundAgrees that it agrees with the new state |
| AddressClient.Unbound | italian-address-client.js:114 | a select before its first list shows the "..." placeholder; BoundFromUnbound states that the binding replaces it |
| AddressClient.FirstListsWalk | italian-address-client.js:76-94 | the binding walk over the levels gives every select its first list |
| AddressClient.DismissedWalk | italian-address-client.js:158 | running every document-click listener hides every panel but the clicked input's |
| AddressClient.WalkResult | italian-address-client.js:164-172 | the reset walk after l ends with the state cleared after l, the later fields blanked and the later slots emptied |
| AddressClient.ClearLevel | italian-address-client.js:165-171 | one iteration of the reset loop; Form.ClearAt is proved against it, and WalkResult states where the walk of these iterations ends |
| AddressClient.NewTimers | italian-address-client.js:136 | one fresh, distinct debouncer with the 300 ms delay per text input, and none for selects |
| AddressClient.Client.constructor | italian-address-client.js:16-19 | the base URL is the option when truthy, otherwise the public service; every level is null |
| AddressClient.Client.Attach | italian-address-client.js:70-99 | outside a browser it fails with the error message; otherwise it binds the configured fields to the sources over the transport, each select listing its first records, with a fresh idle debouncer per text input |
| AddressClient.Form.constructor | italian-address-client.js:74-99 | the fields bound, the output slots kept, a fresh idle debouncer per text input, no two inputs sharing one |
| AddressClient.Form.BindSelects | italian-address-client.js:101-116 | every select's list is rebuilt from its source with the empty input; other fields and the outputs unchanged |
| AddressClient.Form.RefreshSelect | italian-address-client.js:113-124 | the select's list is rebuilt from the records with the sentinel selected; nothing else changes |
| AddressClient.Form.SetElementValue | italian-address-client.js:181-185 | the field becomes what `Displayed` gives for the value; nothing else changes |
| AddressClient.Form.ResetDownstream | italian-address-client.js:161-173 | the state is cleared after the level, the fields become `ResetFields` and the outputs `ResetOutputs` of the old ones |
| AddressClient.Form.ClearAt | italian-address-client.js:165-171 | one loop iteration: the level nulled, its field blanked with the records read after that, its slot emptied |
| AddressClient.Form.OnSelect | italian-address-client.js:76-98 | the state becomes `AfterSelect`, the outputs `OutputsAfterSelect` and the fields `FieldsAfterSelect` of the old ones |
| AddressClient.Form.ChangeSelect | italian-address-client.js:104-107 | the option is selected; a sentinel changes nothing else, any other option runs the selection with its record |
| AddressClient.Form.Type | italian-address-client.js:136 | the input takes the text and its search is rescheduled for now plus 300 ms; every other input's pending search is untouched |
| AddressClient.Form.Elapse | italian-address-client.js:136-143 | a due search runs with the input's text of that moment and the current state; otherwise nothing changes; other inputs' timers are untouched |
| AddressClient.Form.ClickSuggestion | italian-address-client.js:149-153 | the input takes the suggestion's text and hides its panel, the selection runs with its record, then the document click hides every panel |
| AddressClient.Form.ClickDocument | italian-address-client.js:158 | every panel but the clicked input's is hidden; nothing else changes |

## Left out

- A `change` event for the option already selected: a browser sends none, but `Form.ChangeSelect` accepts that call and runs the selection callback again.
- The real `fetch`, URL construction, HTTP status and JSON decoding (lines 25, 30-32) are not modelled. The transport is a function from the request (base URL, endpoint, present parameters in order) to records or a failure.
- `console.error` on a failed request (line 34) is output only.
- Async interleaving is not modelled. Every request completes when it is issued, so the order in which responses land, and the "..." placeholder shown meanwhile (line 114), are left out. The client has no stale-response guard.
- JSON `null` and `undefined` are both modelled as an absent attribute. So a `null` written to an input's value is modelled as the text "undefined", not as the empty text.
- `id` and the other numeric record attributes are carried as text. The `limit` option is an integer, and its truthiness is "non-zero". A non-numeric `limit` is not modelled.
- The `dataset.raw` JSON round trip (lines 106, 121) is modelled as carrying the record unchanged.
- DOM creation, CSS text, positioning and the HTML markup of a suggestion (lines 127-134, 145-148) are rendering only. The model keeps the panel's visibility and its rows.
- The UMD wrapper (lines 1-9, 193) is not modelled. The `window` check is a boolean parameter of `Attach`.
- Output elements other than the five slots the client reads or writes are not modelled. An output is present exactly when its key is in the outputs map.
- String lengths are counted in characters, not in UTF-16 code units.
- Wall-clock time is abstract integer ticks.
- AddressClient.Client.Attach: the transport is fixed when the form is attached. Calling `attachAutocomplete` twice on the same page, which binds a second set of listeners, is not modelled.
