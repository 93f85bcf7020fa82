# LookupNPI in Dafny

LookupNPI is a search-bar plugin. When the user types the trigger "NPI" (or "npi"), it opens a form with six search fields. Then it looks up the US provider registry and shows a paginated list of results. Choosing a result shows its detail list; "next" and "prev" move through the pages. This project models the plugin's core: the query state and form handlers, the pagination cursor, the builders that turn a result page into the option map and a record into the detail map, the request URL, and the sequencing of a run. Properties of this core are proved about the model.

Modules:

- `Text` (text.dfy): decimal rendering of integers and booleans as `%v` prints them, with round trips back to the value; counting characters.
- `Registry` (registry.dfy): the decoded registry records (`NpiInfo`, `Basic`, `OtherName`, `Address`, `Taxonomy`, `LookupResults`).
- `Query` (query.dfy): the six search fields and the rule each form handler applies (`Edit`). It also has the folded effect of a series of edits, `RemoveSpaces`, and the trigger test.
- `Presenter` (presenter.dfy): `CreateDisambiguationElements`, `CreateListElements`, `CreateAddressStrings` and `CreateTaxonomyStrings`. Each is a method proved equal to a specification function. The two summaries and the option map are built by loops; `CreateListElements` calls the two summary methods, then runs its loop over the other names in `AddOtherNameRows`. Lemmas state what the maps and summaries contain.
- `Session` (session.dfy):
  - the class `Loop`, holding the package variables `searchParams` and `skip`;
  - the handlers, `ClearSearchParams`, the "next"/"prev" options, selecting an option, and `run()`;
  - the cursor arithmetic and its invariant.
- `Url` (url.dfy): the lookup URL. Its partner is a reader of query strings, `ParseQuery`, so the model can state which search fields survive the query string intact (see "## Left out" for what this reader does not decode).

The registry lookup is the parameter `lookup`: a function from the fields, the page size and the offset to the decoded results. Each UI call is a returned value:

- the advisories become `warned` flags;
- the lists become `View` values;
- each option's closure becomes an `Action` tag.

## Model

| member | source | states |
|---|---|---|
| Text.NatToDecimal | loop/loop.go:213 | the `%v` numeral of an index is non-empty, all digits, and starts with '0' only for 0 |
| Text.DecimalRoundTrip | loop/loop.go:213 | reading the numeral of n back as a decimal gives n |
| Text.NatToDecimalInjective | loop/loop.go:213 | distinct indices give distinct numerals |
| Text.IntToDecimal | loop/loop.go:214-215 | the `%v` rendering of an NPI number starts with '-' exactly when it is negative and is otherwise digits |
| Text.IntDecimalRoundTrip | loop/loop.go:304 | reading the rendering of a number back gives the number |
| Text.BoolText | loop/loop.go:383 | the `%v` of the primary flag: "true" (four characters, starting with 't') or "false" (five, starting with 'f'), so the two never coincide |
| Query.Empty | loop/loop.go:192-199 | every one of the six fields is empty |
| Query.Edit | loop/loop.go:102-177 | the Number handler warns iff the input is non-empty and not 10 characters long, and stores the input unless the advisory call failed; FirstName, LastName and Organization never warn; City warns iff State is empty and State warns iff City is empty; every other field stores input + "*", even for empty input; no other field changes |
| Query.EditedUntouched | loop/loop.go:96-180 | a field no edit touches keeps its value through any series of edits |
| Query.EditedLastWins | loop/loop.go:121-177 | a free-text field holds the last text typed into it followed by "*" |
| Query.Warnings | loop/loop.go:96-180 | a series of edits yields one warning flag per edit |
| Query.WarningsAt | loop/loop.go:96-180 | flag k is the warning edit k raises when applied to the fields the first k edits left |
| Query.ReplaceSpaces | loop/loop.go:183-188 | the same length, every space becomes '+', every other character stays where it is |
| Query.ReplaceSpacesIdempotent | loop/loop.go:183-188 | the result has no spaces, and replacing again changes nothing |
| Query.RemoveSpaces | loop/loop.go:182-190 | in every field: the length is kept, every space becomes '+', no space is left, and every non-space character stays where it is |
| Query.RemoveSpacesIdempotent | loop/loop.go:182-190 | applying RemoveSpaces twice is applying it once |
| Query.IsTrigger | loop/loop.go:58 | a text that starts a search is three characters long, either all capitals or with no capital at all |
| Query.TriggerIsExact | loop/loop.go:58 | "NPI" and "npi" start a search, and a text starts one exactly when it is three characters that spell "npi" ignoring case, all of them capitals or none; so "Npi", "nPI" and padded texts do not |
| Presenter.Uint32Succ | loop/loop.go:217 | `uint32(i) + 1` stays below 2^32 and is i + 1 whenever that fits |
| Presenter.KeysDistinct | loop/loop.go:213 | two different indices never share a map key |
| Presenter.NameLabel | loop/loop.go:206-212 | the organization label overrides the name label; with neither an organization nor a first name, the label is empty |
| Presenter.IndexKeysSize | loop/loop.go:213 | n indices give n distinct keys |
| Presenter.ChoiceKeysSize | loop/loop.go:232-263 | a page of n results has n + 1 option keys, n + 2 when the page is full |
| Presenter.ChoicesSpec | loop/loop.go:201-290 | the option map has exactly the keys "0".."n-1", "prev", and "next" iff n == 20; result i sits under key i with order i+1, label "* NPI: number, label", and the action ShowDetail of that record; "next" and "prev" carry their labels, order n+1 and their actions; size n + 1 + (n == 20 ? 1 : 0) |
| Presenter.CreateDisambiguationElements | loop/loop.go:201-290 | the loop that fills the map in place builds exactly the option map of ChoicesSpec |
| Presenter.ResultsLabel | loop/loop.go:83-89 | a results heading starts with "LookupNPI Results for: " |
| Presenter.Numbered | loop/loop.go:379-395 | a summary is "" for no entries and otherwise ends in a newline |
| Presenter.NumberedLineCount | loop/loop.go:379-395 | a summary of entries without newlines has exactly one line per entry |
| Presenter.NumberedPrefix | loop/loop.go:379-395 | the summary of the first k entries is a prefix of the whole summary |
| Presenter.NumberedLineAt | loop/loop.go:379-395 | right after the first k lines comes line k+1: "k+1) " followed by entry k and a newline |
| Presenter.CreateAddressStrings | loop/loop.go:388-395 | the loop that appends with `+=` builds the numbered summary of the addresses: "k) city, state postal country" per line |
| Presenter.CreateTaxonomyStrings | loop/loop.go:379-386 | the loop that appends with `+=` builds the numbered summary of the taxonomies: "k) Primary:flag  Code:.. Description:.. State:.. License:.." per line |
| Presenter.EnumerationName | loop/loop.go:294-300 | "NPI-1" maps to "Individual" and "NPI-2" to "Organization", each iff; anything else maps to "" |
| Presenter.FixedPairs | loop/loop.go:301-330 | exactly the six fixed keys; "number" is ("NPI Number", 1, the number), "name" ("Provider Name", 2, first + " " + last), "organization" ("Organization", 3, the organization), "enumeration" ("Enumeration Type", 5, EnumerationName of the type), "address" ("Addresses", 6, the address summary), "taxonomy" ("Taxonomies", 7, the taxonomy summary) |
| Presenter.FixedPairsOrders | loop/loop.go:301-330 | the fixed rows take the orders 1, 2, 3, 5, 6 and 7, no two the same, leaving 4 to the other names |
| Presenter.DetailRowsSpec | loop/loop.go:292-342 | the detail map has exactly the six fixed keys and "0".."n-1"; it has 6 + n rows; no other-name row replaces a fixed row; other name i sits under key i with its type as label, order 4 and "prefix first last organization" |
| Presenter.CreateListElements | loop/loop.go:292-342 | the method that fills the map in place builds exactly the detail map of DetailRowsSpec |
| Presenter.AddOtherNameRows | loop/loop.go:332-339 | the loop over the other names adds one row per name under its index to the rows already there |
| Session.NextSkip | loop/loop.go:238 | "next" moves the offset forward and keeps its remainder modulo 20 |
| Session.PrevSkip | loop/loop.go:266-268 | "prev" never moves the offset forward, keeps its remainder modulo 20, leaves it unchanged exactly at 0, and never takes a whole-page offset below 0 |
| Session.NextKeepsCursorValid | loop/loop.go:238 | "next" keeps skip >= 0 and a multiple of 20, and moves it forward |
| Session.PrevKeepsCursorValid | loop/loop.go:266-268 | "prev" keeps skip >= 0 and a multiple of 20; it leaves 0 at 0 and otherwise subtracts 20 |
| Session.PrevUndoesNext | loop/loop.go:238-268 | "next" then "prev" returns to the page started from |
| Session.NextAfterPrev | loop/loop.go:238-268 | "prev" then "next" returns to the same page, except on the first page, where it moves one page on |
| Session.Loop.constructor | loop/loop.go:40-42 | the package variables start empty with skip 0, a valid cursor |
| Session.Loop.ClearSearchParams | loop/loop.go:192-199 | all six fields become empty and skip is unchanged |
| Session.Loop.OnNumberChange | loop/loop.go:102-115 | updates the fields and returns the warning as Query.Edit states, with an early return when the advisory call fails; skip is unchanged |
| Session.Loop.OnFirstNameChange | loop/loop.go:121-123 | stores the input + "*" as first name, no warning, nothing else changes |
| Session.Loop.OnLastNameChange | loop/loop.go:129-131 | stores the input + "*" as last name, no warning, nothing else changes |
| Session.Loop.OnOrganizationChange | loop/loop.go:137-139 | stores the input + "*" as organization, no warning, nothing else changes |
| Session.Loop.OnCityChange | loop/loop.go:145-158 | stores the input + "*" as city first, then warns iff State is empty |
| Session.Loop.OnStateChange | loop/loop.go:164-177 | stores the input + "*" as state first, then warns iff City is empty |
| Session.Loop.OnChange | loop/loop.go:96-180 | each input's change goes to its own handler, with the effect of Query.Edit |
| Session.Loop.ShowPage | loop/loop.go:239-252 | one lookup with the fields as they are, page size 20 and the current skip, shown as the option map of the returned page under the heading of the current fields |
| Session.Loop.Next | loop/loop.go:236-257 | skip grows by 20, then ShowPage, with the raw fields and no space replacement; a valid cursor stays valid |
| Session.Loop.Prev | loop/loop.go:264-287 | skip shrinks by 20 unless it is 0, then ShowPage; the lookup is made even when skip did not change; a valid cursor stays valid |
| Session.Loop.Select | loop/loop.go:218-228 | a result shows its detail list under "Information for <number>" without a lookup; "next" and "prev" page as above; the fields never change and a valid cursor stays valid |
| Session.Loop.Run | loop/loop.go:64-94 | clears the fields, applies the edits with their warnings, looks up with the spaces replaced, page size 20 and offset 0, also when the form was cancelled, shows the list iff submitted, clears the fields again, and leaves skip as it was |
| Session.Loop.RunFromFirstPage | loop/loop.go:64-94 | Run with the cursor reset: afterwards skip is the offset of the page just shown, a valid cursor |
| Session.StaleCursorScenario | loop/loop.go:77 | search, "next", search again, "next": the last lookup asks for offset 40 although the second search showed its first page |
| Session.FreshCursorScenario | loop/loop.go:77 | the same steps with RunFromFirstPage: the last lookup asks for offset 20 |
| Session.NavigationAfterSearchScenario | loop/loop.go:93 | "next" chosen after run() has returned looks up with six empty fields |
| Url.QueryParams | loop/loop.go:346-354 | fourteen parameters, named in the order the URL lists them: number, first_name, last_name, organization_name, city and state carry the six fields, limit and skip the decimal page size and offset, version "2.0", and the other five are empty |
| Url.LookupUrl | loop/loop.go:346-354 | the URL is the registry endpoint followed by the query string of the parameters |
| Url.JoinRoundTrip | loop/loop.go:346-354 | for a non-empty parameter list where no name holds '&' or '=' and no value holds '&', the query string reads back as exactly the parameters written |
| Url.QueryRoundTrip | loop/loop.go:346-354 | when no search field holds '&', the reader `ParseQuery` reads back the fourteen parameters with the fields' values, page size and offset |
| Url.ParsedValuesWithoutAmpersand | loop/loop.go:346-354 | no value read back from a query string holds '&' |
| Url.AmpersandSplitsQuery | loop/loop.go:346-354 | an organization holding '&' makes the query string read back as more than fourteen parameters, and the organization parameter read back differs from the one written |
| Url.EscapeRoundTrip | loop/loop.go:346-354 | unescaping an escaped value gives the value back |
| Url.EscapedQueryRoundTrip | loop/loop.go:346-354 | with the values escaped, the reader `ParseQuery` followed by `Unescape` reads the query string back as the fourteen parameters, whatever the fields hold |

## Behaviour worth knowing

- The trigger test is exact: only "NPI" and "npi" start a search; "Npi" and other mixed casings do not.
- The handlers do not replace spaces. Spaces become '+' only in the copy that `run()` sends to its first lookup. The "next" and "prev" lookups send the fields as stored.
- A free-text field gets "*" appended even when the input is empty. So after any edit of State, City never warns again, and the reverse.
- The Number handler returns before storing the input when the advisory call fails. City and State store first and then warn.
- The lookup in `run()` is made even when the form was cancelled. Only showing the list depends on the form being submitted.
- `run()` asks for offset 0 but never resets `skip` (see Findings).
- The fields are cleared at the end of `run()`. A "next" or "prev" chosen after that uses six empty fields: `Session.NavigationAfterSearchScenario`. Whether the host returns from showing the list before the user chooses an option is the host's business, so this is not listed as a finding.

## Findings

| source | as written | input that shows it | evidently intended | confidence | as-written member | corrected member |
|---|---|---|---|---|---|---|
| loop/loop.go:77 | `run()` asks for its first page with offset 0 but leaves `skip` as the previous search left it | search, "next" (skip 20), search again, "next": the lookup asks for offset 40, so "next" passes over results 20 to 39 of the second search, and only "prev" from there reaches them | a new search starts its cursor at 0 | high, not executed | Session.StaleCursorScenario | Session.Loop.RunFromFirstPage (Session.FreshCursorScenario) |
| loop/loop.go:346-354 | the field values are written into the URL without encoding, and `RemoveSpaces` only replaces spaces | organization "A&B": the query string reads back as more than fourteen parameters, and the organization parameter read back is not "A&B*" | values percent-encoded, so that every field reaches the registry whole | medium, not executed | Url.AmpersandSplitsQuery | Url.EscapedLookupUrl (Url.EscapedQueryRoundTrip) |

## Left out

- The HTTP request, its error handling and the JSON decoding in `GetLookupResults` (loop/loop.go:355-367): a network call and a foreign decoder. The lookup is the parameter `lookup`, and the URL it would fetch is `Url.LookupUrl`.
- The host UI calls (`Form`, `Disambiguation`, `List`, `Markdown`) and `ListenSearchbar`: host I/O. The form becomes a sequence of edits plus an `isSubmitted` flag. The advisories become `warned` flags, or `notifyFails` when the call fails. The lists become returned `View` values.
- Goroutines and the unsynchronised races on `skip` and `searchParams`: the model has one sequential caller.
- Contexts, timeouts, logging and the plugin lifecycle (`Serve`, `NewLoop`, `LoopStart`, `LoopStop`): plumbing with no bearing on the values computed.
- `fmt` formatting in general: only the `%v` rendering of integers and booleans used by the labels and summaries is modelled.
- Query.Edit: the 10-character rule counts characters, whereas Go's `len` counts UTF-8 bytes. The two agree for ASCII input.
- Presenter.ResultsLabel: the contract states only the heading's fixed prefix. The six fields follow it, separated by spaces, in the order number, first name, last name, organization, city, state.
- Registry: the NPI number is an unbounded integer, not Go's 64-bit `int`.
- Url.ParseQuery: the reader splits only at '&' and then at the first '='. It does not decode '+' as a space, does not decode '%xx' escapes, and does not end the query at a '#' fragment mark, as an HTTP client and a form-decoding server would. So the round-trip lemmas speak about this reader, not about what the registry receives: a "Smith Jones" sent as "Smith+Jones*" arrives decoded, and an organization "A#B" is cut at '#'.
- Url.EscapedLookupUrl: the correction escapes only '%' and '&'. Other reserved characters such as '#' and '+' are left as they are, so a '+' typed by the user would still be decoded as a space by the registry.
- The page size `limit` is a package variable that nothing assigns, so it is the constant `Presenter.Limit` (20).
