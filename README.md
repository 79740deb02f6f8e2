# Cargo-order wizard: a Dafny model

The system is a React front end for ordering cargo shipments to marketplace warehouses
(Wildberries, Ozon). A four-step wizard collects:

- the destination;
- the cargo: boxes and/or pallets, with quantities, box sizes and pallet weight classes;
- additional services, some of which need a pickup address;
- the client's contacts.

While the user fills it in, the wizard asks the server for a price. At the end it posts the
order. The repository has two builds, the main application and a chat-bot build, whose copies
of the services step and of the API client have drifted apart.

This project models, in Dafny:

- **`Calculator`.** The wizard controller as a class with the controller's state fields:
  - step navigation;
  - the submit-time required-field check and the routing of submission errors;
  - the precondition for asking for a price;
  - the shallow merge of step updates into the form record;
  - the reset for a new order;
  - the adapter that passes the services step's updates on.
- **`CargoStep`.** The chat-bot build's cargo step:
  - the validator, as a method with a loop, specified key by key by `ErrorsFor` and proved equivalent to the rule `CargoValid`;
  - the derivation of the older scalar fields, as a method with a loop, specified by the function `Derivation`;
  - the checkbox and radio handlers.
- **`WbClient` and `SrcClient`.** The request bodies the two API clients build, and the error message each picks.
- **`ServicesStep` and `WbServicesStep`.** The two copies of the additional-services step, as classes over the loaded catalog (`Catalog`), the local address and the error map.
- **Support modules:**
  - `Form`: the form record, update patches and their merge;
  - `Payload`: the JSON bodies as values;
  - `Js`: the JavaScript built-ins the code relies on, which are `trim`, `toLowerCase`, `includes`, `filter`, `String(n)` and `parseInt`.
- **`Scenarios`.** Concrete runs, including a whole order placed through the controller.

Network calls are not modelled. Their outcomes are parameters: a method that would call the
API receives the call's result and returns the body it would have posted. `parseFloat` is a
parameter as well (`Js.FloatParser`).

Two behaviours of the code are worth knowing:

- In the main application, deselecting a service that needs a location does not clear the
  stored pickup address while anything stays selected: the controller's adapter puts the
  stored address back whenever the new selection is not empty and the emitted address is blank
  (`src/components/Calculator.tsx:518-520`). The stored address is cleared only once nothing is
  selected. `Calculator.StoredAddressAfterToggle` and `Scenarios.DeselectPickup` state this.
- The cargo step's two pallet-weight bounds are modelled as written. The validator uses
  500..1000 kg and the derivation uses 1..1000 kg. `CargoStep.WeightBoundsDisagree` shows the
  two disagree on 100 kg.

## Model

| member | source | states |
|---|---|---|
| Calculator.MissingFields | src/components/Calculator.tsx:264-272 | each of cargo type (the first selected kind), phone and client name is reported exactly when it is empty or whitespace only, in declaration order |
| Calculator.NothingMissingIffFilled | src/components/Calculator.tsx:264-274 | nothing is missing iff a kind is selected, the first one is not blank, and phone and name are not blank |
| Calculator.Join | src/components/Calculator.tsx:281-283 | `join(', ')` read left to right: empty for no elements, the element itself for one, and otherwise the join of all but the last, the separator, then the last element (the body computes it from the front) |
| Calculator.MissingMessage | src/components/Calculator.tsx:275-289 | the notification starts with the fixed prefix; with no names it is the prefix alone, with one name the prefix followed by that name |
| Calculator.MissingContactsMessage | src/components/Calculator.tsx:275-289 | the notification names missing phone and name as "номер телефона, имя клиента" after the fixed prefix |
| Calculator.IsAddressError | src/components/Calculator.tsx:312-313 | no ensures of its own; `CapitalisedAddressMessageRecognised` and `NonCyrillicMessageIsNotAddressError` state which messages it accepts |
| Calculator.SubmitErrorMessage | src/components/Calculator.tsx:308-312 | a rejection yields the client's non-empty error text; a transport failure yields its own message |
| Calculator.CapitalisedAddressMessageRecognised | src/components/Calculator.tsx:312-313 | the lower-cased match finds "адрес" and "не указан" in a capitalised server message |
| Calculator.NonCyrillicMessageIsNotAddressError | src/components/Calculator.tsx:312-321 | a message without Cyrillic letters never triggers the rollback to the services step |
| Calculator.SilentRejectionIsGeneric | src/components/Calculator.tsx:312-327 | a rejection without message or error yields the client's fallback text, which gets the generic notification |
| Calculator.CanCalculate | src/components/Calculator.tsx:364-376 | no ensures of its own; specified by the lemmas `InitialCannotCalculate`, `LegacyFieldsPassPriceCheck`, `PricedCargoCarriesCount` and `CountedCargoCanBePriced` |
| Calculator.PricedCargoCarriesCount | src/components/Calculator.tsx:364-376 | with the older scalar fields empty, a record that may be priced posts the truthy quantity of a selected box or pallet as its count |
| Calculator.CountedCargoCanBePriced | src/components/Calculator.tsx:364-376 | with marketplace and warehouse set, a selected box or pallet with a truthy quantity is enough to ask for a price |
| Calculator.InitialCannotCalculate | src/components/Calculator.tsx:364-376 | the record the wizard starts from never passes `canCalculate` |
| Calculator.LegacyFieldsPassPriceCheck | src/components/Calculator.tsx:364-376 | `canCalculate` accepts the older `cargoType`/`boxCount` with nothing selected, while the price body then carries zero boxes |
| Calculator.ServicesPatch | src/components/Calculator.tsx:512-541 | adapter: no update for an object without either key; the services default to the stored ones; a non-empty list with a blank or absent address keeps the stored address; the array form keeps the address iff the list is non-empty; only the two keys are touched |
| Calculator.StoredAddressAfterToggle | src/components/Calculator.tsx:515-527 | after a services-step toggle, the stored address is the local one when needed and filled in, the old stored one when the selection is non-empty, and `''` when the selection is empty |
| Calculator.Controller.constructor | src/components/Calculator.tsx:150-191 | the initial state: step 0, valid, validating, no errors shown, no price, the initial record |
| Calculator.Controller.ActiveStepChanged | src/components/Calculator.tsx:218-221 | after a step change, the step validates and hides its errors |
| Calculator.Controller.HandleNext | src/components/Calculator.tsx:238-252 | valid step: the index grows by exactly 1 and errors are hidden; invalid step: the index stays, errors are shown, the error notification opens; the index stays in 0..3 |
| Calculator.Controller.HandleBack | src/components/Calculator.tsx:254-257 | the index drops by exactly 1 (callable only above 0, as the button is disabled at 0) and errors are hidden |
| Calculator.Controller.HandleSubmit | src/components/Calculator.tsx:259-331 | an order is posted iff the step is valid and nothing is missing, and the body is the one the main client builds; otherwise the missing-fields notification opens and the step stays; on success the response is stored; on failure the wizard goes back to step 2 iff the message is an address error, else the generic notification opens |
| Calculator.Controller.HandleFormDataChange | src/components/Calculator.tsx:337-350 | the new record is the old one with exactly the update's keys overwritten |
| Calculator.Controller.CalculateOrderPrice | src/components/Calculator.tsx:363-400 | a price body is posted iff `canCalculate`; otherwise the price and details are cleared; on success the price is stored and the details only when present; on failure both are cleared |
| Calculator.Controller.HandleNewOrder | src/components/Calculator.tsx:402-429 | back to step 0, no success view, and the record equals the initial one |
| Calculator.Controller.HandleValidationChange | src/components/Calculator.tsx:431-433 | the step's reported validity is stored |
| Calculator.Controller.ServicesStepUpdate | src/components/Calculator.tsx:512-541 | the adapter's update, if any, is merged into the record; otherwise the record is unchanged |
| CargoStep.QuantityKey | wb-bot-vite/src/components/calculator-steps/CargoTypeStep.jsx:67 | `quantity_<kind>`, which never collides with a fixed error key |
| CargoStep.FixedKeysAreNotQuantityKeys | wb-bot-vite/src/components/calculator-steps/CargoTypeStep.jsx:60-93 | the five fixed error keys are pairwise distinct and none is a quantity key |
| CargoStep.RecordFixedKey | wb-bot-vite/src/components/calculator-steps/CargoTypeStep.jsx:73-95 | recording a box or pallet error leaves the quantity errors as they are |
| CargoStep.ErrorsForIffValid | wb-bot-vite/src/components/calculator-steps/CargoTypeStep.jsx:98-100 | the error map is empty exactly when the step's rule holds (a kind selected, quantities of at least 1, box size and custom dimensions that are non-empty and not read as below 1 cm, weight class and a custom weight that is non-empty and not read as below 500 or above 1000; text `parseFloat` cannot read passes) |
| CargoStep.ErrorsForUnique | wb-bot-vite/src/components/calculator-steps/CargoTypeStep.jsx:55-101 | the key-by-key description determines the error map |
| CargoStep.Step.constructor | wb-bot-vite/src/components/calculator-steps/CargoTypeStep.jsx:50-52 | empty local custom size, custom weight and errors |
| CargoStep.Step.CollectErrors | wb-bot-vite/src/components/calculator-steps/CargoTypeStep.jsx:56-97 | the loop over the selected kinds and the box and pallet checks build exactly the map `ErrorsFor` describes |
| CargoStep.Step.KindErrors | wb-bot-vite/src/components/calculator-steps/CargoTypeStep.jsx:59-70 | the type error is recorded iff nothing is selected, and a quantity error iff that kind is selected with a quantity that is absent, `NaN` or below 1 |
| CargoStep.Step.AddBoxErrors | wb-bot-vite/src/components/calculator-steps/CargoTypeStep.jsx:73-84 | the box-size error iff a box is selected without a size; the custom-size error iff "other size" is chosen and a dimension is empty or read by `parseFloat` as below 1 cm; non-numeric text records no error |
| CargoStep.Step.AddPalletErrors | wb-bot-vite/src/components/calculator-steps/CargoTypeStep.jsx:87-95 | the weight-class error iff a pallet is selected without a class; the custom-weight error iff "other weight" is chosen and the weight is empty or read by `parseFloat` as below 500 or above 1000 kg; non-numeric text records no error |
| CargoStep.Step.Validate | wb-bot-vite/src/components/calculator-steps/CargoTypeStep.jsx:55-101 | stores that map and returns true iff it is empty, iff the rule holds |
| CargoStep.Step.UpdateDerivedValues | wb-bot-vite/src/components/calculator-steps/CargoTypeStep.jsx:104-168 | the update handed to the form is `Derivation`, or none when it carries no key |
| CargoStep.Derivation | wb-bot-vite/src/components/calculator-steps/CargoTypeStep.jsx:104-168 | the derived update sets only the older scalar fields (`cargoType`, the two counts, `containerType`, the three dimensions and `weight`) |
| CargoStep.CargoTypePrecedence | wb-bot-vite/src/components/calculator-steps/CargoTypeStep.jsx:108-112 | `'box'` iff a box is selected, `'pallet'` iff pallets only, untouched iff neither |
| CargoStep.DerivedCountsReadBack | wb-bot-vite/src/components/calculator-steps/CargoTypeStep.jsx:115-125 | a derived count is written only for a quantity of at least 1 and reads back with `parseInt` as that quantity |
| CargoStep.CustomWeightPropagation | wb-bot-vite/src/components/calculator-steps/CargoTypeStep.jsx:152-157 | a custom pallet weight is propagated iff it lies in 1..1000, and then the container type is cleared |
| CargoStep.WeightBoundsDisagree | wb-bot-vite/src/components/calculator-steps/CargoTypeStep.jsx:87-157 | a 100 kg custom weight is propagated although the validator rejects it |
| CargoStep.NonNumericWeightPasses | wb-bot-vite/src/components/calculator-steps/CargoTypeStep.jsx:90-92 | a non-empty custom weight that `parseFloat` reads as `NaN` is not rejected, since both comparisons are false |
| CargoStep.NonNumericDimensionsPass | wb-bot-vite/src/components/calculator-steps/CargoTypeStep.jsx:76-80 | non-empty custom dimensions that `parseFloat` reads as `NaN` are not rejected |
| CargoStep.PalletOverridesContainerType | wb-bot-vite/src/components/calculator-steps/CargoTypeStep.jsx:128-162 | with a box and a pallet both chosen, a standard pallet class wins the container type |
| CargoStep.DerivationStable | wb-bot-vite/src/components/calculator-steps/CargoTypeStep.jsx:104-168 | after merging the derived update, deriving again proposes the same update |
| CargoStep.TypeToggled | wb-bot-vite/src/components/calculator-steps/CargoTypeStep.jsx:188-196 | checked appends the kind; unchecked yields exactly `Without(selection, kind)`, the other kinds in their order; no other key is set |
| CargoStep.QuantityChanged | wb-bot-vite/src/components/calculator-steps/CargoTypeStep.jsx:198-206 | the kind's quantity becomes `parseInt(text, 10)`, other kinds keep theirs, nothing else is set |
| CargoStep.QuantityOfTypedNumber | wb-bot-vite/src/components/calculator-steps/CargoTypeStep.jsx:198-206 | a typed decimal number is stored as that number |
| CargoStep.BoxSizePatch | wb-bot-vite/src/components/calculator-steps/CargoTypeStep.jsx:208-232 | the radio's update sets only the box choice, the container type and the three dimensions; the choice is the single size; a standard size is the container type and clears the dimensions, "other size" sends `''` |
| CargoStep.PalletWeightPatch | wb-bot-vite/src/components/calculator-steps/CargoTypeStep.jsx:234-254 | the radio's update sets only the weight choice, the container type and the weight; a standard class is the container type and clears the weight, "other weight" sends `''` and the custom weight |
| CargoStep.Step.HandleBoxSizeChange | wb-bot-vite/src/components/calculator-steps/CargoTypeStep.jsx:208-232 | a standard size becomes the single choice and the container type, and clears the local and form dimensions; "other size" sends `''` and the local dimensions |
| CargoStep.Step.HandlePalletWeightChange | wb-bot-vite/src/components/calculator-steps/CargoTypeStep.jsx:234-254 | a standard class becomes the choice and the container type, and clears the weights; "other weight" sends `''` and the local weight |
| CargoStep.BoxSizeChoiceAgreesWithDerivation | wb-bot-vite/src/components/calculator-steps/CargoTypeStep.jsx:208-232 | for boxes only, after the radio's update the derivation rewrites the box fields with the values they already have |
| CargoStep.PalletWeightChoiceAgreesWithDerivation | wb-bot-vite/src/components/calculator-steps/CargoTypeStep.jsx:234-254 | for pallets only, after the radio's update the derivation leaves the container type and weight as the radio wrote them |
| CargoStep.Step.HandleCustomBoxSizeChange | wb-bot-vite/src/components/calculator-steps/CargoTypeStep.jsx:256-270 | one local dimension changes; all three are sent with the first box size as container type |
| CargoStep.Step.HandleCustomPalletWeightChange | wb-bot-vite/src/components/calculator-steps/CargoTypeStep.jsx:272-281 | the local weight changes and is sent with an empty container type |
| WbClient.CargoType | wb-bot-vite/src/api/client.ts:122-127 | `'pallet'` iff pallet without box, `'both'` iff both, `'box'` otherwise, the empty selection included |
| WbClient.CargoTypeIgnoresOrder | wb-bot-vite/src/api/client.ts:122-127 | the discriminator depends only on membership |
| WbClient.ContainerTypeFor | wb-bot-vite/src/api/client.ts:137-142 | `''` unless the kind is selected, then the first choice or `''` |
| WbClient.CountFor | wb-bot-vite/src/api/client.ts:143-148 | 0 unless the kind is selected; then the truthy quantity, else `parseInt` of the older count, else 0 |
| WbClient.CountText | wb-bot-vite/src/api/client.ts:143-148 | a truthy quantity's text reads back with `parseInt` as that quantity; otherwise the older count when non-empty, else text that reads as 0 |
| WbClient.DimensionsOf | wb-bot-vite/src/api/client.ts:149-154 | dimensions only for the "other size" sentinel, weight only for the "other weight" sentinel, `''` otherwise |
| WbClient.CargoOf | wb-bot-vite/src/api/client.ts:135-154 | an unselected box or pallet is sent with an empty container type and a zero count; the dimensions are `DimensionsOf` |
| WbClient.PriceRequestOf | wb-bot-vite/src/api/client.ts:188-222 | the price body carries the warehouse and marketplace, the services in their selection order and the stored address |
| WbClient.OrderRequestOf | wb-bot-vite/src/api/client.ts:130-164 | the order body agrees with the price body on delivery, cargo, services and address, adds the client, and has no `telegram_data` |
| WbClient.OrderErrorMessage | wb-bot-vite/src/api/client.ts:177 | `message`, else `error`, else the fixed default |
| WbClient.PriceErrorMessage | wb-bot-vite/src/api/client.ts:235 | `error`, else the fixed default |
| SrcClient.CargoType | src/api/client.tsx:93-98 | the same three-way rule as the chat-bot client |
| SrcClient.CountFor | src/api/client.tsx:114-119 | `parseInt` of the number itself yields the same counts as the chat-bot client's `parseInt(String(...))` |
| SrcClient.CargoOf | src/api/client.tsx:106-126 | the cargo object equals the chat-bot client's |
| SrcClient.TelegramDataOf | src/api/client.tsx:135-138 | user id and username are sent as `null` when absent or falsy |
| SrcClient.PriceRequestOf | src/api/client.tsx:171-199 | the price body equals the chat-bot client's |
| SrcClient.OrderRequestOf | src/api/client.tsx:101-139 | the order body is the chat-bot client's plus `telegram_data`, and agrees with the price body |
| SrcClient.OrderErrorMessage | src/api/client.tsx:154 | the same precedence as the chat-bot client |
| SrcClient.PriceErrorMessage | src/api/client.tsx:212 | the same precedence as the chat-bot client |
| Catalog.Flatten | src/components/calculator-steps/AdditionalServicesStep.jsx:95-96 | a service is in the flattened list iff some group lists it |
| Catalog.Find | src/components/calculator-steps/AdditionalServicesStep.jsx:95-97 | none iff no service has the id; otherwise the first one that has it |
| Catalog.RequiresLocation | src/components/calculator-steps/AdditionalServicesStep.jsx:94-98 | no ensures of its own; `UnknownIdsNeedNoLocation` and `FirstListingDecides` state it |
| Catalog.AnyRequiresLocation | src/components/calculator-steps/AdditionalServicesStep.jsx:94-99 | no ensures of its own; `AnyRequiresLocationIff` states it |
| Catalog.AnyRequiresLocationIff | src/components/calculator-steps/AdditionalServicesStep.jsx:94-99 | `some` holds iff some selected id resolves to a service requiring a location |
| Catalog.UnknownIdsNeedNoLocation | src/components/calculator-steps/AdditionalServicesStep.jsx:94-98 | ids missing from the catalog never require a location |
| Catalog.FirstListingDecides | src/components/calculator-steps/AdditionalServicesStep.jsx:95-98 | with duplicate ids, the first listing decides |
| Catalog.AddressSatisfied | src/components/calculator-steps/AdditionalServicesStep.jsx:90-109 | no ensures of its own; `AddressSatisfiedIff` states it |
| Catalog.AddressSatisfiedIff | src/components/calculator-steps/AdditionalServicesStep.jsx:90-109 | the step fails iff a selected service requires a location and the address is whitespace only |
| ServicesStep.AddressErrors | src/components/calculator-steps/AdditionalServicesStep.jsx:90-109 | the error map is empty iff the address rule holds, and otherwise has the single address entry |
| ServicesStep.EmptySelectionValid | src/components/calculator-steps/AdditionalServicesStep.jsx:94-102 | with nothing selected the step is valid whatever the address |
| ServicesStep.ToggleUpdate | src/components/calculator-steps/AdditionalServicesStep.jsx:121-139 | checked appends; unchecked yields exactly `Without(selection, id)`, the other ids in their order; the emitted address is the local one iff the new selection needs a location, else `''` |
| ServicesStep.ToggleKeepsValidity | src/components/calculator-steps/AdditionalServicesStep.jsx:128-139 | the emitted address passes the rule exactly when the local address does |
| ServicesStep.Step.constructor | src/components/calculator-steps/AdditionalServicesStep.jsx:65-68 | no catalog, the controller's address, no errors |
| ServicesStep.Step.CatalogLoaded | src/components/calculator-steps/AdditionalServicesStep.jsx:71-87 | the loaded catalog is stored |
| ServicesStep.Step.Validate | src/components/calculator-steps/AdditionalServicesStep.jsx:90-109 | stores `AddressErrors` and returns the address rule |
| ServicesStep.Step.HandleServiceChange | src/components/calculator-steps/AdditionalServicesStep.jsx:121-140 | emits `ToggleUpdate`; the local address is not changed |
| ServicesStep.Step.HandleAddressChange | src/components/calculator-steps/AdditionalServicesStep.jsx:142-149 | stores the new address and emits it with the selection unchanged |
| ServicesStep.Step.NeedsLocationInput | src/components/calculator-steps/AdditionalServicesStep.jsx:162-167 | the address field is shown iff some selected id requires a location |
| WbServicesStep.Step.constructor | wb-bot-vite/src/components/calculator-steps/AdditionalServicesStep.jsx:68-71 | no catalog, the controller's address, no errors |
| WbServicesStep.Step.CatalogLoaded | wb-bot-vite/src/components/calculator-steps/AdditionalServicesStep.jsx:74-86 | the loaded catalog is stored |
| WbServicesStep.Step.Validate | wb-bot-vite/src/components/calculator-steps/AdditionalServicesStep.jsx:89-107 | the same error map and rule as the main copy |
| WbServicesStep.Step.HandleServiceChange | wb-bot-vite/src/components/calculator-steps/AdditionalServicesStep.jsx:119-141 | emits the main copy's update; the local address becomes `''` when no selected service needs a location and is kept otherwise, and it is the address emitted |
| WbServicesStep.Step.HandleAddressChange | wb-bot-vite/src/components/calculator-steps/AdditionalServicesStep.jsx:143-150 | stores the new address and emits it with the selection unchanged |
| WbServicesStep.CopiesDivergeAfterClearing | wb-bot-vite/src/components/calculator-steps/AdditionalServicesStep.jsx:133-135 | after clearing, re-selecting a location service emits the old address from the main copy and `''` from the chat-bot copy |
| Form.Merge | src/components/Calculator.tsx:340 | no ensures of its own; `MergeAt`, `MergeOverwritesExactly`, `MergeEmpty`, `MergeThen` and `MergeIdempotent` state it |
| Form.MergeAt | src/components/Calculator.tsx:340 | key by key: the update's value where it has one, the old value elsewhere |
| Form.MergeOverwritesExactly | src/components/Calculator.tsx:337-350 | exactly the update's keys are overwritten; every other key keeps its value |
| Form.MergeEmpty | src/components/Calculator.tsx:340 | an update without keys leaves the record unchanged |
| Form.MergeThen | src/components/Calculator.tsx:337-360 | two merges in a row are one merge of the combined update, the later value winning |
| Form.MergeIdempotent | src/components/Calculator.tsx:340 | merging the same update twice is merging it once |
| Js.TrimStart | src/components/Calculator.tsx:271 | the suffix left after the leading whitespace, starting with a non-blank |
| Js.TrimEnd | src/components/Calculator.tsx:271 | the prefix left before the trailing whitespace, ending with a non-blank |
| Js.IsBlank | src/components/Calculator.tsx:271 | no ensures of its own; `BlankIffAllWhitespace` and `BlankIffTrimEmpty` state it |
| Js.BlankIffAllWhitespace | src/components/Calculator.tsx:271 | blank iff every character is whitespace |
| Js.BlankIffTrimEmpty | src/components/Calculator.tsx:271 | blank iff `trim()` leaves the empty string |
| Js.ToLower | src/components/Calculator.tsx:313 | same length, each character lower-cased |
| Js.ToLowerIdempotent | src/components/Calculator.tsx:313 | lower-casing twice is lower-casing once |
| Js.Includes | src/components/Calculator.tsx:313 | no ensures of its own; `IncludesIff` states it |
| Js.IncludesIff | src/components/Calculator.tsx:313 | `includes` holds iff the part is a contiguous slice |
| Js.Without | wb-bot-vite/src/components/calculator-steps/CargoTypeStep.jsx:191 | `filter(t => t !== x)`: no copy of `x` is left and every other element is kept; order and multiplicity are stated by `WithoutIsFilter` and `FilterUnique` |
| Js.WithoutIsFilter | wb-bot-vite/src/components/calculator-steps/CargoTypeStep.jsx:191 | the result is a subsequence of the input (the order is kept) and holds every other element as often as the input does |
| Js.FilterUnique | src/components/calculator-steps/AdditionalServicesStep.jsx:125 | any subsequence with those multiplicities is the filter's result, so the two facts above pin `filter` down |
| Js.SubsequenceMultiset | wb-bot-vite/src/components/calculator-steps/CargoTypeStep.jsx:191 | a subsequence never holds an element more often than the list it comes from |
| Js.FirstSurvivesWithout | src/components/Calculator.tsx:264 | unchecking something other than the first selected kind keeps that kind first, so the submit check's cargo type is unchanged |
| Js.WithoutConcat | wb-bot-vite/src/components/calculator-steps/CargoTypeStep.jsx:191 | filtering distributes over concatenation |
| Js.Toggled | wb-bot-vite/src/components/calculator-steps/CargoTypeStep.jsx:189-191 | checked appends; unchecked is exactly `Without(xs, x)`; membership follows |
| Js.CheckThenUncheck | wb-bot-vite/src/components/calculator-steps/CargoTypeStep.jsx:189-191 | checking then unchecking removes every copy, and restores a list that lacked the value |
| Js.NatToString | wb-bot-vite/src/components/calculator-steps/CargoTypeStep.jsx:119 | decimal digits without a leading zero |
| Js.DigitPrefix | wb-bot-vite/src/api/client.ts:144 | the longest prefix of digits of the radix |
| Js.NatToStringValue | wb-bot-vite/src/components/calculator-steps/CargoTypeStep.jsx:119 | the digits denote the number |
| Js.ParseInt | wb-bot-vite/src/api/client.ts:144 | no ensures of its own; `ParseOfNumberToString` and `DigitPrefix` state it |
| Js.ParseInt10 | wb-bot-vite/src/components/calculator-steps/CargoTypeStep.jsx:199 | no ensures of its own; `ParseOfNumberToString` and `CargoStep.QuantityOfTypedNumber` state it |
| Js.ParseOfNumberToString | wb-bot-vite/src/api/client.ts:144 | `parseInt(String(n))` and `parseInt(String(n), 10)` give `n` back |
| Scenarios.CargoTypeExamples | wb-bot-vite/src/api/client.ts:122-127 | {box} gives box, {pallet} gives pallet, both give both, {} gives box |
| Scenarios.QuantityExamples | wb-bot-vite/src/components/calculator-steps/CargoTypeStep.jsx:64-70 | a quantity fails iff below 1, `NaN` or absent |
| Scenarios.CustomBoxExamples | wb-bot-vite/src/components/calculator-steps/CargoTypeStep.jsx:76-82 | 60x40x40 passes; a zero or an empty dimension fails |
| Scenarios.CustomWeightExamples | wb-bot-vite/src/components/calculator-steps/CargoTypeStep.jsx:90-95 | 500 and 1000 pass, 499 and 1001 fail; the derivation accepts 499 |
| Scenarios.NonNumericCustomExamples | wb-bot-vite/src/components/calculator-steps/CargoTypeStep.jsx:76-92 | "abc" passes both the custom-weight and the custom-size checks |
| Scenarios.PriceNeedsWarehouse | src/components/Calculator.tsx:364-382 | a marketplace without a warehouse is never priced |
| Scenarios.OzonOrderPayload | src/api/client.tsx:101-139 | the Ozon example passes the cargo step, can be priced, passes the submit check, and posts 3 boxes of "40x40x60" |
| Scenarios.OzonOrderComplete | src/components/Calculator.tsx:264-274 | the Ozon example has every field the submit-time check requires |
| Scenarios.EnterOzonOrder | src/components/Calculator.tsx:238-252 | three valid steps advance the wizard to the contact step with the Ozon record |
| Scenarios.PlaceOzonOrder | src/components/Calculator.tsx:259-307 | submitting the Ozon order posts its body and opens the confirmation with the response |
| Scenarios.BlockedStep | src/components/Calculator.tsx:238-252 | advancing from an invalid step keeps step 0 and shows the errors |
| Scenarios.AddressRequirementExamples | src/components/calculator-steps/AdditionalServicesStep.jsx:90-109 | pickup without an address fails, with one passes; wrapping alone or an unknown id needs none |
| Scenarios.GroupsLookups | src/components/calculator-steps/AdditionalServicesStep.jsx:95-97 | in the example catalog, id 1 finds the pickup service and id 2 finds wrapping |
| Scenarios.DeselectPickupUpdate | src/components/calculator-steps/AdditionalServicesStep.jsx:121-139 | unchecking pickup next to wrapping emits the remaining selection with an empty address |
| Scenarios.DeselectPickup | wb-bot-vite/src/components/calculator-steps/AdditionalServicesStep.jsx:119-141 | deselecting pickup empties the chat-bot copy's address, keeps the main copy's, and the controller keeps its stored one |

## Left out

- Network calls are not modelled: `fetch`, JSON (de)serialisation, `async`/`await`, the catalog, warehouse and container-type wrappers, and `wb-bot-vite/src/api/orders.ts`. Their results are method parameters.
- Scheduling is not modelled: the `useEffect` dependency triggering and the price-recompute race. The `setTimeout` and the `shouldUpdatePrice` flag of `handleFormDataChange` are left out too.
- UI is not modelled: rendering, snackbars and their closing, the `isSubmitting`, `isLoading` and `isPriceLoading` flags, `navigate('/success')`, the success page and the Telegram host bridge.
- The initial-data load and its `error` state are left out (`src/components/Calculator.tsx:197-216`), for the same reasons.
- Js.ToLower: lower-cases only Basic Latin and Cyrillic, the scripts the form's messages use. Other scripts are left unchanged.
- Js.ParseSigned: integers are unbounded. `parseInt` beyond 2^53 and `String(n)` in exponent form are not modelled.
- CargoStep.Below: `parseFloat` is a parameter (`Js.FloatParser`), not a parser of decimal text.
- Values of the wrong JavaScript type are not modelled:
  - an absent string field (`undefined`) is the empty string;
  - a `NaN` quantity is `None`;
  - error bodies whose `message` or `error` is not a non-empty string count as absent.
- Calculator.ServicesPatch: uses the stored record at the time of the call. The closure's `formData` in the source may lag behind the latest state.
- `deliveryWarehouse` and `company` are carried but no rule reads them.
- The main application's own cargo and contact steps are not part of this model. The controller sees them only through `HandleFormDataChange` and `HandleValidationChange`.
