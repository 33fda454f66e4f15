# capital-quiz: the tile builder and the country conversion

The capital quiz shows tiles: one for each country and one for each capital. The player has to pair every country with its capital. This project models the two parts of the program that hold logic:

- **The tile builder** (`src/data/button.ts`). Each country record becomes two buttons. The country button has the country's code and name. The capital button has the code followed by `_capital`, and the capital's name. A relation pairs each button with its partner, in both directions. The button list is then shuffled. The source keys the relation by object identity (a `WeakMap`). The model therefore makes `ButtonData` a class, builds the buttons in a loop, and keeps the relation as a `map<ButtonData, ButtonData>`.
- **The country conversion** (`src/api/country.ts`). A record from the REST countries service has `cca3`, `name.common` and a `capital` array. It becomes a `Country {code, name, capital}`. The first capital is kept. The source reads it without a check, so a record with an empty `capital` array gives an undefined capital. The model keeps that case as the value `Undefined` of type `Countries.Text`, and the capital button of such a country has an undefined name. `getRandomCountries` samples five records and converts each one. The model treats the fetched list as a parameter.

The two lodash helpers keep only their contracts, in module `Lodash`:
- `_.shuffle` returns some permutation of its input.
- `_.sampleSize` returns some sub-multiset of the input, of size `min(n, length)`.

The model picks the permutation or sample with Dafny's `:|`. Every result the contract allows is a possible run.

Modules: `Countries` (country.dfy), `Lodash` (lodash.dfy), `Buttons` (button.dfy), `CountryApi` (api_country.dfy).

What is proved about the builder:
- It returns twice as many buttons as there are countries. None of them occurs twice, and all are new objects.
- The shuffled list is a permutation of the list as built. In the list as built, positions `2k` and `2k+1` hold the country button and the capital button of `countries[k]`. The loop keeps this as an invariant.
- The relation is defined on exactly the returned buttons.
- The relation is an involution without fixed points: `relations[relations[b]] == b` and `relations[b] != b`. Every partner is also in the returned list.
- In each pair, one code is the other's code followed by `_capital`.

What is proved about the conversion: see the `CountryApi` rows below.

`src/data/country.ts`, which declares `Country`, is not part of this model. Its shape `{code, name, capital}` is the one the other files and their tests use.

## Model

| member | source | states |
|---|---|---|
| `Buttons.CapitalCode` | src/data/button.ts:16 | The capital code is the country code followed by `_capital`, so it never equals the country code |
| `Buttons.ButtonData.constructor` | src/data/button.ts:4-7 | A button carries the code and name it was created with |
| `Buttons.CreateCountryAndCapitalBtn` | src/data/button.ts:9-20 | Makes two new, distinct buttons. The country button has the country's code and name. The capital button has `code + "_capital"` and the capital's name. Their codes differ |
| `Buttons.PrepareButtonsAndRelations` | src/data/button.ts:22-47 | Returns twice as many buttons as countries, all new, with no repeats. The list is a permutation of the pre-shuffle list. That list pairs `countries[k]`'s two buttons at positions `2k` and `2k+1`. The relation is the pairing recorded by the loop. Its keys are exactly the returned buttons. Each button's partner is another returned button whose partner is the first button. In every pair, one code is the other's plus `_capital`. Empty input gives an empty list and an empty relation |
| `Buttons.PairingKeys` | src/data/button.ts:31-39 | The relation built over a list has as keys exactly the buttons of that list |
| `Buttons.PairingAt` | src/data/button.ts:31-38 | In a list with no repeats, the button at position `i` is related to the button at the neighbouring position of its pair (`i+1` for even `i`, `i-1` for odd `i`) |
| `Buttons.PairingIsInvolution` | src/data/button.ts:37-38 | The relation pairs every key with a different key, and that key maps back: `r[r[b]] == b`, `r[b] != b` |
| `Buttons.PairingJoinsCountryAndCapital` | src/data/button.ts:31-38 | For every country, its country button maps to its capital button and back. In every pair, one code is the other's code plus `_capital` |
| `Buttons.DistinctCounts` | src/data/button.ts:41 | A list has no repeats exactly when no element occurs twice in its multiset. So a shuffle of a repeat-free list is repeat-free |
| `Lodash.Shuffle` | src/data/button.ts:41 | The shuffled list has the same multiset and length as its input |
| `Lodash.SampleSize` | src/api/country.ts:24 | The sample has min(n, length of the input) elements, drawn without replacement from the input (sub-multiset) |
| `Countries.ElementAt` | src/api/country.ts:18 | Reading element `i` of an array gives that element when `i` is in range, and `undefined` exactly when it is not |
| `CountryApi.ConvertFromApiCountry` | src/api/country.ts:15-19 | The code is `cca3` and the name is `name.common`. The capital is defined exactly when the record lists one, and then it is the first listed capital |
| `CountryApi.ConvertRoundTrip` | src/api/country.ts:15-19 | Paired with `ToApiCountry`, the inverse conversion. A country goes to a record and back unchanged. A record goes to a country and back unchanged exactly when it lists at most one capital |
| `CountryApi.ConvertAll` | src/api/country.ts:25 | Mapping the sample keeps its length and order: `r[i]` is the conversion of `sample[i]` |
| `CountryApi.GetRandomCountries` | src/api/country.ts:21-26 | Accepts any list of records. Returns min(5, number of records) countries. They are the conversion of a sample drawn without replacement from the records. Each is the conversion of some input record, so each code is the `cca3` of an input record |

## Left out

- The HTTP request and `response.json()` in `getRandomCountries` (src/api/country.ts:22-23), and the propagation of a failed fetch. This is network I/O and asynchronous, so the fetched list is a parameter instead.
- Which permutation `_.shuffle` picks and which sample `_.sampleSize` picks. Randomness is not modelled, only the contracts.
- `Buttons.ButtonData`: the source's button objects have writable fields. No code in the core writes to them, so the model makes them constants.
- The WeakMap's weak references (garbage collection of unreachable keys). A `map` holds its keys strongly. This makes no difference to which buttons are related.
- The React component in src/App.tsx, with its state hooks and its click handler that only shows an alert. This is UI glue.
- src/components/CountryCapitalButton.tsx (colour per button state, the `disabled` prop). This is presentation code.
- The pairing game itself: select, match and remove, mismatch error, 3-second revert. The tests in src/App.test.tsx exercise it, but no code in the source implements it. `App.tsx` only calls `alert` on a click. `ButtonStates`, which the component and the test import from `src/data/button.ts`, is not declared there. There is no behaviour to model.
- The builder's tests import `createCountryAndCapitalBtn`, which `src/data/button.ts` does not export. The model follows the function's definition.
