# Dog collection controller — a verified model

This project models the collection controller of a small dog-catalogue web
app (`DogApp`). The controller holds the in-memory list of dogs, a busy flag
and the filter state (search term and size selector). It reloads the list
from a remote entity store. It sends three kinds of mutation to that store:
add a dog from the form, add a suggested breed, toggle a favourite. After an
acknowledged mutation it reloads the whole list; it never patches the list
locally. It also derives the filtered view that the page displays.

Modules:

- `Wrappers` (`wrappers.dfy`): `Option`, for JavaScript properties that may be `undefined`.
- `Text` (`text.dfy`): `toLowerCase` (on ASCII letters) and `includes`, with their laws.
- `Dogs` (`dogs.dfy`): the `Dog` record with its optional properties, the form
  values, the suggested-breed table, the size colour map, and the three record
  builders (spread-then-override for the form, the templated record, the
  inverted-flag copy).
- `DogFilter` (`filter.dfy`): the `filteredDogs` predicate and what it guarantees.
- `Controller` (`controller.dfy`): the class `DogApp` with `dogs`, `loading`,
  `searchTerm` and `sizeFilter` fields. Its methods are `loadDogs` and the three
  mutations. Two ghost logs record the store requests and the toasts.

The remote store is abstract. Each controller method takes, as parameters,
the answers the store gives to the calls it makes. An answer is
`Returned(Response(success, data))` or `Threw(error)`, so one contract covers
every outcome. `Math.random()` in `addPopularDog` is also a parameter: `draw`,
an integer in [0, 8), and the age sent is `draw + 1`.

Where the code and its design description differ, the model follows the code:

- The description says an empty search matches everything. In the code, a dog
  with neither `name` nor `breed` gets `undefined` from the optional chains,
  which is falsy, so it is hidden even under the empty search.
  `DogFilter.EmptySearchAllSizes` states exactly when the view equals the collection.
- The description says the controller guards against missing required fields
  itself. The code leaves this to the form's `required` rules. The model states
  those rules as the precondition `FormValid` of `HandleAddDog`.
- `!dog.isFavorite` on a record without the flag gives `true`. So toggling
  twice restores the flag's truth value, but it restores the record itself only
  when the flag was present (`Dogs.ToggleTwice`).

## Model

| member | source | states |
|---|---|---|
| `Text.LowerIdempotent` | project/src/components/DogApp.jsx:97-98 | lower-casing a lower-cased search term or name changes nothing |
| `Text.ContainsEmpty` | project/src/components/DogApp.jsx:97-98 | every present string includes the empty search term |
| `Text.ContainsIff` | project/src/components/DogApp.jsx:97-98 | `includes` holds exactly when the term occurs at some offset of the string |
| `Dogs.SizeColor` | project/src/components/DogApp.jsx:103-110 | small is blue, medium is orange, large is red, each iff; any other or absent size is `'default'` |
| `Dogs.PopularBreedsWellFormed` | project/src/components/DogApp.jsx:17-24 | six suggested breeds, each with a non-empty breed and a size among small/medium/large, so none gets the default colour |
| `Dogs.FromForm` | project/src/components/DogApp.jsx:46-49 | the record sent by the form has `isFavorite` false and no identifier; every form field passes through unchanged |
| `Dogs.FromTemplate` | project/src/components/DogApp.jsx:77-86 | the templated record: name "Beautiful " + breed, the fixed description, breed/size/temperament/imageUrl copied, age in [1, 8], not a favourite, no identifier |
| `Dogs.Toggled` | project/src/components/DogApp.jsx:63-66 | the update record equals the dog in every field except the favourite flag, whose truth value is inverted |
| `Dogs.ToggleTwice` | project/src/components/DogApp.jsx:63-66 | toggling twice restores the flag's truth value, and restores the record iff the flag was present |
| `DogFilter.Filtered` | project/src/components/DogApp.jsx:96-101 | the view is no longer than the collection and holds only collection dogs that pass the filter |
| `DogFilter.FilteredMembership` | project/src/components/DogApp.jsx:96-101 | a dog is in the view iff it is in the collection, its name or breed contains the term case-insensitively, and the size selector is `'all'` or its size |
| `DogFilter.FilteredIndices` | project/src/components/DogApp.jsx:96 | the view is the collection at a strictly increasing list of positions, and a position is listed iff its dog passes the filter |
| `DogFilter.FilteredConcat` | project/src/components/DogApp.jsx:96 | filtering a concatenation is concatenating the filtered parts, so relative order is kept |
| `DogFilter.FilteredIdempotent` | project/src/components/DogApp.jsx:96-101 | filtering the view again with the same filter state returns the view |
| `DogFilter.SearchCaseInsensitive` | project/src/components/DogApp.jsx:97-98 | a search term and its lower-cased form give the same view |
| `DogFilter.EmptySearchKeeps` | project/src/components/DogApp.jsx:97-99 | under the empty term and `'all'`, a dog is kept iff it has a name or a breed |
| `DogFilter.EmptySearchAllSizes` | project/src/components/DogApp.jsx:97-99 | under the empty term and `'all'` the view holds exactly the dogs with a name or a breed, and equals the collection iff every dog has one |
| `DogFilter.NewRecordsVisible` | project/src/components/DogApp.jsx:96-99 | a record built from a valid form or a template passes the empty search, and a template record is found by searching its breed |
| `DogFilter.ToggleKeepsVisibility` | project/src/components/DogApp.jsx:63-66 | toggling the favourite flag never changes whether a dog is shown |
| `DogFilter.RexExamples` | project/src/components/DogApp.jsx:96-101 | over the one-dog collection holding Rex: "rex" finds Rex, "large" shows nothing, the empty search shows Rex |
| `Controller.CreatedRecordsAreNew` | project/src/components/DogApp.jsx:77-86 | records built for `create`, from the form or a template, carry no identifier, a false favourite flag, a name and a breed |
| `Controller.DogApp.constructor` | project/src/components/DogApp.jsx:10-14 | the initial state: no dogs, not loading, empty search, size selector `'all'` |
| `Controller.DogApp.View` | project/src/components/DogApp.jsx:96-101 | the displayed view holds exactly the collection dogs that pass the current filter state |
| `Controller.DogApp.SetSearchTerm` | project/src/components/DogApp.jsx:13 | sets the search term and nothing else |
| `Controller.DogApp.SetSizeFilter` | project/src/components/DogApp.jsx:14 | sets the size selector and nothing else |
| `Controller.DogApp.LoadDogs` | project/src/components/DogApp.jsx:30-42 | an acknowledged list sets the collection to its data, or to the empty list when it has none; an unsuccessful or thrown call keeps it; not loading on every exit; one list request; an error toast only when the call throws |
| `Controller.DogApp.HandleAddDog` | project/src/components/DogApp.jsx:44-59 | sends one create request with the form record; on acknowledgement a success toast and a reload, otherwise the collection unchanged, plus an error toast only when the call throws |
| `Controller.DogApp.ToggleFavorite` | project/src/components/DogApp.jsx:61-73 | sends one update under the dog's own identifier with the toggled record; reloads only on acknowledgement, otherwise the collection unchanged; an error toast only when the call throws |
| `Controller.DogApp.AddPopularDog` | project/src/components/DogApp.jsx:75-94 | sends one create request with the templated record; on acknowledgement a "breed added!" toast and a reload, otherwise the collection unchanged; an error toast only when the call throws |

The class invariant `Controller.DogApp.Valid` is kept by every method. It says
that between operations the controller is not loading, and that every
record ever sent to `create` has no identifier and a false favourite flag.

## Left out

- All JSX and antd presentation (project/src/components/DogApp.jsx:112-344): cards, modal visibility, spinner, tags, `form.resetFields()`. These are display only.
- The `Dog` entity client (`../entities/Dog`) is not part of this model. It is a network client; its answers are method parameters.
- Toasts are recorded in a ghost log, not displayed.
- The `useEffect` mount call (project/src/components/DogApp.jsx:26-28) is not modelled; a client calls `LoadDogs` after the constructor.
- Concurrency is not modelled. The mutations do not await their reload, and overlapping calls race, with the last list response winning. Each operation is modelled as atomic, reload included.
- `Math.random()` floating point: the age is `draw + 1` for an integer `draw` in [0, 8).
- `toLowerCase` is modelled on ASCII letters only; full Unicode case mapping is left out.
- A `Dog` has only the nine properties the controller reads or writes. Any other property the store returns is not modelled, and neither is its copying by the spread in `toggleFavorite`.
- The age is an optional integer. The form's number input actually yields a string, which the model does not distinguish.
- Property values are modelled as present strings or absent. A non-string `name` or `breed`, on which `toLowerCase` would throw, is left out.
- project/src/App.jsx only mounts the component inside a wrapper and has no logic.
