# tickersage watchlist core in Dafny

tickersage is a watchlist application for stock tickers and their SEC filings, built as a thin client over a hosted PocketBase backend. This project models the two pieces of client-side logic that do more than forward a call:

- **The watchlist store** (`src/lib/stores/tickerStore.js`). It holds one state value `{selectedTickers, availableTickers, filings, isLoading, error}`. `addTicker` appends a ticker unless one with the same symbol is already selected. `removeTicker` filters out every entry with a symbol. `reset` restores the initial state with the bundled ticker and filing tables. The transitions are pure functions (`AddTickerUpdate`, `RemoveTickerUpdate`, `InitialState`). The class `TickerStore.Store` holds the current value and replaces it, as Svelte's `update`/`set` do. Its invariant `Valid()` says that no two selected tickers share a symbol.
- **The service layer's post-processing** (`src/lib/services/pocketbase.js`):
  - the guards on falsy user ids and empty id lists;
  - the filter-and-project step of `getUserTickers`;
  - the field projections of the ticker and filing queries;
  - the OR-joined filter string of `getFilingsForTickers`;
  - the error-message extraction of `register`.

The PocketBase client is not modelled. Each service operation receives the backend's answer as a parameter (`Backend.Answer`: the value a call resolved to, or the `ClientError` it threw). It returns a `Backend.Call`: the requests it issues, in order, and its result. "Issues no query" is stated as an empty request list.

Modelling choices:
- A user id is `Option<string>`. JavaScript's falsy `null`, `undefined` and `""` are `None` and `Some("")` (`Backend.Truthy`).
- In the error payload, a missing or falsy string (`data.message`, `data.data[field].message`) is "".
- Options the source does not pass to `getFullList` (`filter`, `sort`, `expand`) are "" in `Backend.Request`.
- A filing's `type` field is called `formType`, because `type` is a Dafny keyword.

Facts about the store code that shape the model:
- `addTicker` deduplicates by symbol, not by id (tickerStore.js line 111).
- `reset` restores `initialState`, which includes the bundled ticker table and the sample filings keyed by symbol.
- `tickerStore.js` has no init action, no mock-data flag, no optimistic rollback and no grouping of filings by ticker id.

## Model

| member | source | states |
|---|---|---|
| `TickerStore.InitialState` | src/lib/stores/tickerStore.js:95-101 | nothing is selected, nothing is loading and there is no error; the available tickers and filings are the bundled tables |
| `TickerStore.WithoutSymbol` | src/lib/stores/tickerStore.js:123 | the filtered list is no longer than the input and has no entry with the symbol; a ticker is in it exactly when it was in the input with another symbol |
| `TickerStore.AddTickerUpdate` | src/lib/stores/tickerStore.js:110-117 | if the symbol is already selected (`HasSymbol`, the `some` test by symbol), the state comes back unchanged; otherwise the list grows by one, the old list is its prefix and the ticker is last; afterwards the symbol is selected; distinct symbols stay distinct; the other four fields are carried over |
| `TickerStore.RemoveTickerUpdate` | src/lib/stores/tickerStore.js:121-124 | afterwards no entry has the symbol; a ticker stays exactly when it was selected with another symbol; the other four fields are carried over |
| `TickerStore.WithoutSymbolAppend` | src/lib/stores/tickerStore.js:123 | filtering `a + b` is filtering `a`, then `b`; so the filter keeps the relative order of the entries it keeps |
| `TickerStore.WithoutAbsentSymbol` | src/lib/stores/tickerStore.js:123 | filtering out a symbol that no entry has returns the list unchanged |
| `TickerStore.WithoutSymbolKeepsUnique` | src/lib/stores/tickerStore.js:123 | filtering a list whose symbols are distinct leaves them distinct |
| `TickerStore.WithoutPresentSymbol` | src/lib/stores/tickerStore.js:123 | with distinct symbols, filtering out a selected symbol removes exactly one entry |
| `TickerStore.RemoveTickerKeepsUnique` | src/lib/stores/tickerStore.js:120-124 | `removeTicker` keeps the selected symbols distinct |
| `TickerStore.RemoveAbsentTicker` | src/lib/stores/tickerStore.js:120-124 | `removeTicker` of a symbol that is not selected leaves the whole state unchanged |
| `TickerStore.AddTickerIdempotent` | src/lib/stores/tickerStore.js:110-113 | adding again any ticker with an already added symbol changes nothing |
| `TickerStore.AddThenRemove` | src/lib/stores/tickerStore.js:109-124 | adding a ticker with a new symbol and then removing that symbol restores the original state |
| `TickerStore.RemoveTickerIdempotent` | src/lib/stores/tickerStore.js:121-124 | removing a symbol twice is the same as removing it once |
| `TickerStore.Store.constructor` | src/lib/stores/tickerStore.js:104-105 | the store starts at `initialState` with its invariant established |
| `TickerStore.Store.AddTicker` | src/lib/stores/tickerStore.js:109-119 | the new state is the add transition of the old one; distinct symbols are kept |
| `TickerStore.Store.RemoveTicker` | src/lib/stores/tickerStore.js:120-125 | the new state is the remove transition of the old one; distinct symbols are kept |
| `TickerStore.Store.Reset` | src/lib/stores/tickerStore.js:126 | the state is `initialState` again, whatever it was |
| `TickerService.AsTicker` | src/lib/services/pocketbase.js:27-31 | the projection copies `id`, `symbol` and `name` of the record |
| `TickerService.GetAvailableTickers` | src/lib/services/pocketbase.js:22-37 | one list query on `tickers` sorted by `symbol`; a failure gives the empty list; otherwise one ticker per record, same length and order, fields copied |
| `TickerService.ExpandedTickers` | src/lib/services/pocketbase.js:55-65 | the output is no longer than the input; every output ticker is the projection of some entry's resolved ticker; every resolved ticker appears in the output |
| `TickerService.ExpandedTickersAppend` | src/lib/services/pocketbase.js:55-65 | the filter-and-project step works piecewise over `a + b`, so it keeps input order |
| `TickerService.ExpandedTickersAllResolved` | src/lib/services/pocketbase.js:55-65 | when every entry's ticker resolved, nothing is dropped and entry `i` gives ticker `i` with its `id`, `symbol` and `name` |
| `TickerService.ExpandedTickersNoneResolved` | src/lib/services/pocketbase.js:56 | when no entry's ticker resolved, the watchlist is empty |
| `TickerService.GetUserTickers` | src/lib/services/pocketbase.js:45-71 | a falsy user id gives the empty list and no request; otherwise one `users_tickers` query filtered by `UserFilter` (the template `user = "<id>"`) and expanding `ticker`; a failure gives the empty list; otherwise the filtered projection |
| `TickerService.AddUserTicker` | src/lib/services/pocketbase.js:80-94 | a falsy user id gives `false` and no request; otherwise one create of the (user, ticker) entry; the result is true exactly when the user id is truthy and the create succeeded |
| `TickerService.RemoveUserTicker` | src/lib/services/pocketbase.js:103-115 | a falsy user id gives `false` and no request; otherwise a lookup filtered by `EntryFilter` (the template `user = "<user>" && ticker = "<ticker>"`), then a delete of the found record only if the lookup succeeded; the result is true exactly when both succeeded |
| `FilingService.Clause` | src/lib/services/pocketbase.js:159 | the clause is `ticker = "`, then the id verbatim, then a closing quote |
| `FilingService.Clauses` | src/lib/services/pocketbase.js:159 | one clause per id, in the order of the ids |
| `FilingService.TickerFilter` | src/lib/services/pocketbase.js:159 | the filter is empty exactly when the id list is; otherwise it starts with the first id's clause |
| `FilingService.TickerFilterCons` | src/lib/services/pocketbase.js:159 | the filter for a first id followed by more ids is that id's clause, " \|\| ", then the filter for the rest |
| `FilingService.TickerFilterRoundTrip` | src/lib/services/pocketbase.js:159 | for a non-empty list of ids without a double quote, parsing the built filter as clauses joined by " \|\| " gives back exactly the ids, in order |
| `FilingService.SingleTickerFilter` | src/lib/services/pocketbase.js:129-159 | the filter built for one id equals the filter `getFilingsForTicker` uses for that id |
| `FilingService.UnescapedIdsCollide` | src/lib/services/pocketbase.js:159 | ids are not escaped: an id that contains a quote yields the same filter as two other ids |
| `FilingService.AsFiling` | src/lib/services/pocketbase.js:133-141 | the projection copies the seven fields `id`, `ticker`, `type`, `date`, `title`, `summary`, `url` |
| `FilingService.AsTickerFiling` | src/lib/services/pocketbase.js:166-176 | the projection copies the seven filing fields; `tickerSymbol` and `tickerName` are each present exactly when the record's ticker was expanded, and then are that ticker's symbol and name |
| `FilingService.GetFilingsForTicker` | src/lib/services/pocketbase.js:126-147 | one `filings` query for the ticker, sorted by `-date`; a failure gives the empty list; otherwise one filing per record, same length and order, all seven fields copied |
| `FilingService.GetFilingsForTickers` | src/lib/services/pocketbase.js:155-182 | an empty id list gives the empty list and no request; otherwise one query with the OR-joined filter, sorted by `-date`, expanding `ticker`; a failure gives the empty list; otherwise one filing per record, same length and order, fields copied; `tickerSymbol` and `tickerName` are each present exactly when the ticker was expanded, and then carry its symbol and name |
| `AuthService.FieldErrors` | src/lib/services/pocketbase.js:235-241 | exactly one entry per field that carries a message (the count of such fields); empty exactly when no field carries a message |
| `AuthService.FieldErrorsReportEach` | src/lib/services/pocketbase.js:237-241 | every field that carries a message has its `"<field>: <message>"` in the list |
| `AuthService.FieldErrorsOnlyMessages` | src/lib/services/pocketbase.js:237-241 | every entry of the list is `"<field>: <message>"` of a field that carries a message |
| `AuthService.FieldNames` | src/lib/services/pocketbase.js:246 | the field names, in key order |
| `AuthService.FieldErrorsAppend` | src/lib/services/pocketbase.js:237-241 | field errors are collected piecewise over `a + b`, so they keep key order |
| `AuthService.DetailedError` | src/lib/services/pocketbase.js:218-250 | without response data the result is the error's own message; in every case it is one of the four candidates: the error's message, the payload's message, the joined field errors, or the "Validation error in fields: " list of names |
| `AuthService.ExtractDetailedError` | src/lib/services/pocketbase.js:218-252 | the step-by-step extraction (reassigned `detailedError`, `forEach` pushing into `fieldErrors`) yields exactly `DetailedError` of the error |
| `AuthService.FirstFieldErrorLeads` | src/lib/services/pocketbase.js:237-244 | the message starts with the error of the first field, in key order, that carries a message |
| `AuthService.FieldErrorsOverrideMessages` | src/lib/services/pocketbase.js:228-247 | once some field carries a message, the result is the field errors joined by ", ", whatever the payload's or the error's message |
| `AuthService.FieldNamesWithoutMessages` | src/lib/services/pocketbase.js:243-247 | when fields are listed but none carries a message, the result is "Validation error in fields: " and then all field names joined by ", " |
| `AuthService.MessageFallback` | src/lib/services/pocketbase.js:222-230 | without field errors, a non-empty payload `message` wins; otherwise the error's own message is kept |
| `AuthService.Register` | src/lib/services/pocketbase.js:196-253 | `create` is always requested; the sign-in is requested only after a successful create; the result is success exactly when both succeed, and then carries the sign-in data; otherwise it carries the detailed error of the call that failed |

## Left out

- The PocketBase SDK calls (`getFullList`, `getFirstListItem`, `create`, `delete`, `authWithPassword`) are not modelled. Their answers are parameters and the requests are reported as data.
- Result sorting (`sort: 'symbol'`, `sort: '-date'`) happens on the server. The model records the requested sort but proves nothing about the order of what comes back; it only proves that the client keeps the order it receives.
- Session state is foreign-library state and is not modelled: `pb.authStore`, the `currentUser` writable and its `onChange` listener. The same goes for `login`, `logout`, `isLoggedIn` and `getCurrentUser`.
- Svelte's `writable` subscription and notification machinery (`subscribe`) is not modelled. The store is its state value and its transitions.
- Console logging is not modelled. Neither is the `errorMessage` that every catch block except `register`'s and `login`'s computes only to be logged (`login` is left out above). In `register` it seeds `detailedError` and is modelled as the error's message.
- A `response.data` that is `null` makes `data.message` throw inside the catch block of `register`. The model does not cover this: it assumes the `data` key, when present, holds an object.
- `Object.keys` puts integer-like keys first. The model takes the field entries of `data.data` in the order given.
- Ids are strings, id lists are sequences and tickers are records. Other JavaScript values are not modelled, so the model does not capture how they behave:
  - `null` or `undefined` throws where a property is read: `tickerIds.length` (outside the `try`), `ticker.symbol` in `addTicker`, and `password.length` in `register` (caught there, so `create` is never requested);
  - a `tickerIds` object without `length` gives `[]`, and a string `tickerIds` fails at `.map` inside the `try`, which also gives `[]`;
  - non-string ids are turned into text by the filter templates.
- The administrative scripts under `backend/`, the migrations, `backend/config.js`, `src/lib/services/pocketbase-test.js` and `src/lib/data/sample-filings.js` are not part of this model: they are provisioning, configuration, a health check and static data.
