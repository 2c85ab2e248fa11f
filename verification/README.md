# Pour-over coffee form: the App state machine

This project models the only logic in the pour-over coffee adjustment page:
the state machine held by the `App` component. The component keeps six
fields: temperature, grind size, taste, suggestion, the list of saved
profiles and the coffee name. It persists the profile list in the browser's
key-value store under the key `"coffeeProfiles"`. Each handler is modelled as
one atomic, pure transition:

- the load effect (`App.Mount`) reads the stored list, and a missing or empty value reads as `[]`;
- the taste handler (`App.ChangeTaste`) records the selection and derives the advice from a fixed table (`Suggestion.Suggest`);
- the save handler (`App.SaveProfile`) appends a snapshot of the current fields, writes the whole list back and clears the name;
- the three setters handle the name field and the two sliders.

The browser store is a `map<string, StoredText>`. A `StoredText` is either
the serialisation of a profile list, the empty string, or text the JSON
parser rejects. Serialising and then parsing a profile list is the identity.
A session (`App.Run`) is a sequence of user events handled one after another.

Modules: `Wrappers` (Option/Result), `Profiles` (the profile record and slider
bounds), `Suggestion` (the advice table), `Storage` (the store and the
profile list under its key), `App` (form state, handlers, session lemmas).

Two points of the model follow directly from the code:

- Unparsable stored text makes the load effect throw, because there is no try/catch around `JSON.parse` (src/App.tsx:82), so `App.Mount` returns `Failure(MalformedJson)`; no recovery to an empty list is modelled.
- A saved profile holds temperature, grind size, taste and an optional name (src/App.tsx:65-70); there is no `suggestion` field.

## Model

| member | source | states |
|---|---|---|
| Suggestion.Suggest | src/App.tsx:96-104 | "bitter" gives exactly the bitter sentence, "sour" gives exactly the sour sentence, and every other string (including "" and "good") gives the empty string; each direction is stated as an if-and-only-if |
| Suggestion.SuggestMatchesTable | src/App.tsx:96-104 | the handler's if/else-if chain agrees on every input with a two-entry advice table, and the advice is "" off the table |
| Storage.Decode | src/App.tsx:82 | parsing succeeds exactly on the encoding of a profile list and throws on the empty string and on malformed text; a successful parse returns the list whose encoding was stored |
| Storage.OrEmptyList | src/App.tsx:82 | the `|| '[]'` fallback turns a missing value and the falsy empty string into the encoded empty list, and passes any other value through unchanged |
| Storage.LoadProfiles | src/App.tsx:82 | reading the key with `getItem` (`Storage.GetItem`) and parsing: an absent key or an empty value loads `[]`, an encoded list loads exactly that list, and loading fails exactly when the stored text is malformed |
| Storage.SaveProfiles | src/App.tsx:90 | writing the serialised list (`Storage.Encode`) under the key: after a write, a load returns exactly the written list; the key set gains only the profiles key, and every other key keeps its value |
| Storage.SaveOverwrites | src/App.tsx:90 | each write is a full overwrite, so two writes in a row leave only the second list |
| App.Initial | src/App.tsx:73-78 | the starting state has temperature 90, grind size 0, empty taste, suggestion, name and list, and satisfies the range and advice invariant |
| App.Mount | src/App.tsx:80-84 | the load succeeds exactly when the stored profile list loads; on success the in-memory list equals what the store holds, the store is untouched, and no other field changes |
| App.Snapshot | src/App.tsx:87 | the new profile carries the current temperature, grind size, taste and name, and nothing else |
| App.SaveProfile | src/App.tsx:86-92 | the list grows by exactly one; earlier entries keep their order and content; the new last entry holds the current temperature, grind size, taste and name; a load from the new store returns the new list; the store's key set gains only the profiles key and every other key keeps its value; the name is cleared and the other fields are kept |
| App.ChangeTaste | src/App.tsx:94-105 | the selection becomes the taste and its table advice becomes the suggestion ("" for any untabled value); temperature, grind size, name and list are unchanged |
| App.SetTemperature | src/App.tsx:126-134 | the temperature takes the slider value and all other fields are unchanged |
| App.SetGrindSize | src/App.tsx:141-149 | the grind size takes the slider value and all other fields are unchanged |
| App.SetCoffeeName | src/App.tsx:114-119 | the name takes the text field's value and all other fields are unchanged |
| App.Run | src/App.tsx:86-158 | over any session, the list grows by exactly the number of saves, existing entries are never changed or reordered, and no store key except the profiles key is ever written |
| App.StepPreservesValid | src/App.tsx:94-158 | every handler fed a value its control can produce keeps the invariant: temperature in 70..100, grind size in 0..30, taste one of the four options, suggestion matching the taste |
| App.RunPreservesValid | src/App.tsx:73-158 | the invariant holds after any session of producible events that starts from a valid state |
| App.StepPreservesConsistent | src/App.tsx:86-92 | no handler breaks the agreement between the stored list and the in-memory list |
| App.RunPreservesConsistent | src/App.tsx:80-92 | that agreement, once established, holds after any session |
| App.ReloadAfterSession | src/App.tsx:80-92 | after a successful start and any session, restarting on the resulting store loads exactly the list the session ended with |
| App.MountIdempotent | src/App.tsx:80-84 | two loads with nothing in between give the same state |
| App.FirstSaveReadsBack | src/App.tsx:86-105 | on an empty store, selecting "bitter", naming the coffee and saving shows the bitter advice and stores the one-element list (90, 0, "bitter", name) |

## Left out

- Styled components, JSX layout, the recipe text, the footer and `document.title` are left out. They are presentation only.
- The per-profile display string (src/App.tsx:172) is left out. It is rendering, and it depends on how JavaScript formats numbers as strings.
- React hook scheduling and batching are left out. Each handler is one atomic transition applied to the state it reads.
- The workings of the JSON serialiser and of the browser store are not modelled. They are foreign code, abstracted as an in-memory map whose profile-list encoding round-trips losslessly.
- Stored text that parses but is not an array of profiles (`"null"`, a number, an object) is outside the model: `StoredText` cannot represent it. In the source the parse succeeds, the cast does not check, the list state becomes that value, and rendering then throws at `profiles.map` (src/App.tsx:170).
- App.Consistent, App.RunPreservesConsistent and App.ReloadAfterSession assume a single writer and a store write that never fails. The save handler writes its in-memory list without re-reading the store (src/App.tsx:88-90), so a save made meanwhile in another tab is overwritten by the next save here. If `setItem` throws (quota exceeded), the list state at src/App.tsx:89 has already been updated, and the store no longer matches memory.
- The slider setters take integers already within the slider's bounds, so `parseInt` on the slider string is not modelled. The setters themselves accept any integer, and only the invariant lemmas assume producible values.
- Numbers are modelled as integers. Stored data with fractional numbers is outside the model, since the sliders here step by 1.
