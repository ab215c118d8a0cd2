# lol-with-the-boys, modelled in Dafny

The repository holds three small TypeScript scripts that gather League of Legends statistics
for a fixed roster of seven friends:

- `src/the-boys.ts` resolves every roster entry to an account on the summoner endpoint, then
  pages through every account's match list, requesting one page per account per round until
  every account has reached its total. It writes one `accountId,name,summonerName,gameId`
  row per (account, match).
- `src/fill-in-dets.ts` reads such a file back. It folds the lines into two JavaScript maps
  keyed by account id, fetches every match record and takes the account's participant
  statistics from it. It then spreads the account's identity under each statistics object,
  regroups the entries into one column per name of the 105 names of interest, and writes a
  CSV file.
- the root `the-boys.ts` is an earlier version. It resolves the accounts, keeps the first
  three games of each match list, and looks up each game's statistics; its `flattenIntoCsv`
  is never called.

The model follows the scripts' own form. The parse loop, the detail loops, the entry loop,
the column grouping and the row loop of `src/fill-in-dets.ts` are methods with loops. Each
is proved equal to a specification function, and the properties of the pipeline are lemmas
about those functions. The two `the-boys` scripts only map and recurse, so they are
functions and lemmas.

JavaScript objects are sequences of properties in insertion order (`Json`). An object
spread is `Assign`. `String(v)` as `join` applies it is `Render`, and `${v}` in a template
literal is `TemplateString`. A JavaScript `Map` is
`OrderedMaps.OrderedMap`: a value map plus its keys in first-insertion order.

Every HTTP endpoint is a parameter:

- the summoner endpoint is `Value -> Object`;
- the match-list endpoint is `Request -> Page` in `src/the-boys.ts` and `string -> seq<int>`
  in the root script;
- the match endpoint is `int -> MatchRecord`.

Everything the model proves holds for every such oracle, unless a lemma names a condition on
it. `MatchPaging.IdealResponse` is one such condition: an endpoint that serves a fixed
history in pages of a fixed size.

Modules, in dependency order:

- `Results`, `Seqs`, `Text`, `Json`, `OrderedMaps` and `MatchRecords` hold the shared
  values.
- `KeysOfInterest`, `RosterLedger`, `MatchDetails`, `CsvOutput` and `FillInDets` model
  `src/fill-in-dets.ts`.
- `Accounts` models the account resolution the two `the-boys` scripts share.
- `MatchPaging` models `src/the-boys.ts`.
- `DataFile` connects the file `src/the-boys.ts` writes to the one `src/fill-in-dets.ts`
  reads.
- `TheBoys` models the root `the-boys.ts`.

The CSV text of `src/fill-in-dets.ts` takes its header from `Object.keys` of the first
entry, while each row follows the 105 names of `keysOfInterest` (`KeysOfInterest.KeysDistinct`).
The model writes the header as the code does; Findings shows where the two disagree.

## Model

| member | source | states |
|---|---|---|
| Json.Assign | src/fill-in-dets.ts:112-117 | a spread keeps the left-hand object's names in their places |
| Json.Render | src/fill-in-dets.ts:139 | `join` renders null and undefined as ""; only a string value can bring a comma or a newline into the text |
| Json.TemplateString | src/the-boys.ts:94 | `${v}` agrees with `join`'s rendering exactly when v is neither undefined nor null, which it spells out |
| Json.Get | src/fill-in-dets.ts:129-131 | reading a name the object lacks gives undefined |
| Json.Put | src/fill-in-dets.ts:57 | setting k reads back the new value at k and the old value at every other name; an existing name keeps its place, a new one goes last |
| Json.AssignGet | src/fill-in-dets.ts:57 | after `{ ...a, ...b }`, a name of b reads b's value and every other name reads a's |
| Json.AssignNames | src/fill-in-dets.ts:112-117 | after a spread, a's names keep their order and b's new names follow in b's order |
| Json.NewNamesFresh | src/fill-in-dets.ts:112-117 | the names after a spread are still distinct |
| Json.AssignWellFormed | src/fill-in-dets.ts:112-117 | a spread of well-formed objects is well-formed |
| OrderedMaps.Empty | src/fill-in-dets.ts:85-86 | `new Map()` is valid and has no keys |
| OrderedMaps.OrderedMap.Set | src/fill-in-dets.ts:96-97 | `set` keeps the map valid, replaces the value, and puts a new key last while an existing key keeps its place |
| OrderedMaps.SetSet | src/fill-in-dets.ts:70-75 | setting a key twice is the same as setting it once to the second value |
| Text.Split | src/fill-in-dets.ts:83 | `split` gives at least one piece, and no piece holds the separator |
| Text.Join | src/fill-in-dets.ts:139 | `join` starts with the first part, followed by the separator when there is more than one part |
| Text.SplitJoin | src/fill-in-dets.ts:90 | splitting a join gives back the parts when no part holds the separator |
| Text.JoinSplit | src/fill-in-dets.ts:83 | joining a split gives back the text, whatever it holds |
| Text.FieldCount | src/fill-in-dets.ts:90 | a join of n separator-free parts splits into n fields |
| Text.NatToDecimal | src/the-boys.ts:162 | the decimal text of a natural number is a non-empty run of digits |
| Text.IntToDecimal | src/the-boys.ts:162 | the decimal text of an integer holds neither a comma nor a newline |
| Text.ParseDecimal | src/fill-in-dets.ts:92-93 | a number is read exactly from a run of digits, optionally after a minus sign |
| Text.DecimalRoundTrip | src/fill-in-dets.ts:92-93 | reading back the decimal text of any integer gives that integer |
| MatchRecords.Find | src/fill-in-dets.ts:52-54 | `find` gives the first index the callback accepts, or nothing when it accepts none |
| KeysOfInterest.KeysDistinct | src/fill-in-dets.ts:4 | the 105 column names are distinct |
| RosterLedger.ParseLine | src/fill-in-dets.ts:90-93 | a line of fewer than four fields is malformed, and every failure names the line |
| RosterLedger.ParseFormatted | src/fill-in-dets.ts:90-93 | a formatted roster line parses back to itself when its names hold no comma |
| RosterLedger.ParseLines | src/fill-in-dets.ts:83-93 | the lines parse exactly when each one does, line for line; otherwise the error is that of the first malformed line |
| RosterLedger.ParseLinesPrefix | src/fill-in-dets.ts:89-101 | once a prefix of the lines fails, the whole file fails the same way |
| RosterLedger.Record | src/fill-in-dets.ts:95-100 | one line pushes its match id onto its account's list; a new account is appended to both maps, with the names of that line |
| RosterLedger.LedgerOf | src/fill-in-dets.ts:89-101 | after every line, both maps are valid and share their keys in the same order |
| RosterLedger.FillInMaps | src/fill-in-dets.ts:85-101 | the parse loop gives the maps of the parsed lines, or the first malformed line's error |
| RosterLedger.LedgerMatches | src/fill-in-dets.ts:95-100 | the keys are exactly the accounts of the file, and each list holds the account's match ids in line order |
| RosterLedger.LedgerNames | src/fill-in-dets.ts:95-97 | an account's names are those of its first line |
| RosterLedger.LedgerOrder | src/fill-in-dets.ts:95-96 | the keys are ordered by each account's first line |
| RosterLedger.LedgerKeysSnoc | src/fill-in-dets.ts:95-96 | one more line leaves the keys as they are for a known account and appends a new account |
| RosterLedger.LedgerTotal | src/fill-in-dets.ts:100 | the lists hold as many match ids as the file has lines |
| RosterLedger.ListsAfterRecord | src/fill-in-dets.ts:100 | recording a line adds exactly one match id in total |
| MatchDetails.GetDetailsForMatch | src/fill-in-dets.ts:42-58 | the details carry the requested gameId; the only failures are a missing identity and a missing slot |
| MatchDetails.SpreadOneGet | src/fill-in-dets.ts:57 | `{ ...stats, gameId }` reads gameId at gameId and the stats elsewhere |
| MatchDetails.NotFoundWhenUnowned | src/fill-in-dets.ts:52-54 | the lookup throws on the missing identity exactly when no identity carries the account's current id |
| MatchDetails.DetailsOfFirstOwner | src/fill-in-dets.ts:52-57 | given the account's first identity, the details are the stats of slot participantId - 1 with gameId written in, or a missing-slot error when that slot does not exist |
| MatchDetails.DetailsAreOwnSlot | src/fill-in-dets.ts:56 | with participants numbered from 1, the details are the stats of the participant whose id the identity names, and are missing exactly when that id is out of range |
| MatchDetails.DetailList | src/fill-in-dets.ts:67-76 | an account's details succeed exactly when every lookup does, one per match in match order; otherwise the error is that of the first failing lookup |
| MatchDetails.NonEmptyKeys | src/fill-in-dets.ts:70-72 | exactly the accounts with at least one match get a key |
| MatchDetails.DetailsOf | src/fill-in-dets.ts:60-80 | the details map is a valid map |
| MatchDetails.DetailsOfKeys | src/fill-in-dets.ts:60-80 | the details map's keys are the accounts with matches, in key order, each with the details list of its matches |
| MatchDetails.DetailsOfShape | src/fill-in-dets.ts:60-80 | the details succeed exactly when every lookup does; then every account with matches has as many details as matches, in order, and an account without matches has no key |
| MatchDetails.DetailsOfFails | src/fill-in-dets.ts:64-77 | the first account whose details fail ends the run with that error |
| MatchDetails.AppendDetails | src/fill-in-dets.ts:67-76 | the inner loop adds the account's details list, created by its first detail, or stops at the first failing lookup |
| MatchDetails.GetDetailsForMatches | src/fill-in-dets.ts:60-80 | the nested loops give the details map of the specification |
| CsvOutput.Entry | src/fill-in-dets.ts:112-117 | an entry's names start with accountId, name, summonerName |
| CsvOutput.Identity | src/fill-in-dets.ts:113-116 | the identity literal has the names accountId, name, summonerName, in that order |
| CsvOutput.EntryGet | src/fill-in-dets.ts:112-117 | a details property wins over an identity property; the identity fills in the rest; every other name is undefined |
| CsvOutput.EntryNames | src/fill-in-dets.ts:112-117 | an entry's names are the three identity names, then the details' new names in order |
| CsvOutput.PushEntries | src/fill-in-dets.ts:112-119 | the inner loop appends the account's entries in details order |
| CsvOutput.JoinEntries | src/fill-in-dets.ts:107-120 | the entry loop gives the entries of every account in key order, then in details order |
| CsvOutput.EntriesOrder | src/fill-in-dets.ts:107-120 | the entry of detail j of the account at key a sits after every entry of the earlier accounts |
| CsvOutput.NewColumns | src/fill-in-dets.ts:123-126 | the reduce makes an empty column for every title, in title order |
| CsvOutput.PushEntry | src/fill-in-dets.ts:129-131 | each column grows by the entry's value under its title, undefined when missing |
| CsvOutput.GroupColumns | src/fill-in-dets.ts:123-132 | every title's column holds the entries' values under it, in entry order |
| CsvOutput.RowText | src/fill-in-dets.ts:138-140 | a row has one field per title when no value renders with a comma |
| CsvOutput.Rows | src/fill-in-dets.ts:134-141 | one row per entry |
| CsvOutput.EmitRows | src/fill-in-dets.ts:134-141 | as many rows as the first column holds values, row i joining the values at i of every column |
| CsvOutput.RowsAreEntries | src/fill-in-dets.ts:123-141 | reading the columns back gives one line per entry, in entry order, holding the entry's values in title order |
| CsvOutput.TabulateEntries | src/fill-in-dets.ts:123-148 | grouping, reading back and writing give the text of the entries' rows under the header |
| CsvOutput.CsvText | src/fill-in-dets.ts:142-148 | the text fails exactly when there is no entry, and otherwise splits into the header line followed by the row lines |
| CsvOutput.CsvTextDeclared | src/fill-in-dets.ts:142-148 | the corrected text fails exactly when there is no entry |
| CsvOutput.DeclaredColumnsLineUp | src/fill-in-dets.ts:142-148 | with the titles as the header, the file has one line per entry plus the header, and every line splits into one field per title |
| CsvOutput.HeaderMismatch | src/fill-in-dets.ts:145 | as written, with the sample entry first the header has five fields, whatever the titles |
| CsvOutput.SampleRowFields | src/fill-in-dets.ts:138-140 | the sample entry's row has one field per title |
| FillInDets.DetailsNamed | src/fill-in-dets.ts:108-109 | every account of the details map has names |
| FillInDets.Retrieved | src/fill-in-dets.ts:82-148 | the script writes a file exactly when the roster parses and every lookup succeeds: a parsed roster has at least one line, so the `Object.keys(entries[0])` of the header never meets an empty list |
| FillInDets.RetrievedDeclared | src/fill-in-dets.ts:142-148 | the corrected output fails exactly when the output as written fails |
| FillInDets.HeaderDisagreesWithRows | src/fill-in-dets.ts:145 | as written, a file whose only entry is the sample entry gets a five-field header over a 105-field row |
| FillInDets.RetrieveDetailsForMatches | src/fill-in-dets.ts:82-148 | the script's text is that of the specification: parse, maps, details, entries, columns, rows, text |
| FillInDets.EntriesCount | src/fill-in-dets.ts:107-120 | there is one entry per details object |
| FillInDets.DetailsCount | src/fill-in-dets.ts:60-80 | when the lookups succeed there is one details object per match id |
| FillInDets.KeyTotalSet | src/fill-in-dets.ts:70-75 | setting a new key adds its list to the total |
| FillInDets.LedgerCount | src/fill-in-dets.ts:89-101 | the maps hold one match id per line |
| FillInDets.OneEntryPerLine | src/fill-in-dets.ts:82-120 | when every lookup succeeds, there is exactly one entry, and so one row, per roster line |
| Accounts.ResolveAccounts | src/the-boys.ts:76-88 | one resolved account per roster entry |
| Accounts.RosterFieldsWin | src/the-boys.ts:87 | a field of the roster entry wins over the endpoint's; every other field is the endpoint's |
| Accounts.ResolvedNames | src/the-boys.ts:87 | the endpoint's fields keep their places and the entry's new fields follow |
| MatchPaging.InitialMatches | src/the-boys.ts:90-115 | one account per resolved account, in order, each with the offset, total and game ids of the first page of its match list, requested without beginIndex |
| MatchPaging.NextRound | src/the-boys.ts:125-145 | a round keeps the batch's length, order and accounts; offset and total come from the page; the old matches stay a prefix, followed by the page's game ids |
| MatchPaging.SubsequentMatches | src/the-boys.ts:117-150 | a result is a finished batch, with the same accounts in the same order, each with its old matches as a prefix |
| MatchPaging.RoundsExtend | src/the-boys.ts:133-145 | after any number of rounds the accounts are those of the batch and each account's matches extend its old ones |
| MatchPaging.PagingStopsAtFirstDone | src/the-boys.ts:121-123 | paging returns the batch after the rounds it ran, and no earlier round was finished |
| MatchPaging.PagingFinishes | src/the-boys.ts:117-150 | paging gives a result exactly when some round within the fuel finishes the batch |
| MatchPaging.PagingFuel | src/the-boys.ts:117-150 | once some round is finished, any larger fuel gives the same result, and a result is found |
| MatchPaging.FirstPageConsistent | src/the-boys.ts:90-115 | with a well-behaved endpoint, the first page leaves every account with the start of its history |
| MatchPaging.RoundConsistent | src/the-boys.ts:133-145 | with a well-behaved endpoint, a round keeps every account consistent and moves its offset on by a page, up to the total |
| MatchPaging.IdealPagingCollectsAll | src/the-boys.ts:117-150 | with pages of at least one game, paging finishes, and every account holds its whole history in order |
| MatchPaging.FlattenIntoRows | src/the-boys.ts:152-163 | there is one row per match of the batch |
| MatchPaging.RowOrder | src/the-boys.ts:152-163 | rows are ordered by account, then by match |
| MatchPaging.IdealRetrieveAll | src/the-boys.ts:165-172 | with a well-behaved endpoint, the file holds the rows of every account's whole history, in roster order |
| MatchPaging.RetrieveMatches | src/the-boys.ts:165-172 | the rows are written exactly when some round within the fuel finishes the batch |
| DataFile.RowIsLine | src/the-boys.ts:162 | a row is the formatted roster line of its match, without a newline |
| DataFile.DataFileRoundTrip | src/the-boys.ts:165-172 | the file `src/the-boys.ts` writes parses back, line for line, into the roster lines of its matches |
| DataFile.RowsAreLines | src/the-boys.ts:152-163 | row k of the file holds no newline and parses back into roster line k |
| DataFile.OneEntryPerMatch | src/fill-in-dets.ts:83-120 | fed that file, the enrichment makes one entry per match of the batch when every lookup succeeds |
| TheBoys.RosterAccountIdWins | the-boys.ts:95 | MJ's account id is the roster's string "200394182", whatever the endpoint returned |
| TheBoys.FirstThree | the-boys.ts:112 | `slice(0, 3)` keeps a prefix of three games, or the whole list when it is shorter |
| TheBoys.MatchesForSummoner | the-boys.ts:98-113 | each account keeps its fields and the first three games of its first page, or fewer when the page is shorter |
| TheBoys.DetailsForMatchAsWritten | the-boys.ts:127-135 | the detail carries the record's gameId; the only failures are a missing identity and a missing slot |
| TheBoys.AsWrittenNotFound | the-boys.ts:130-132 | the lookup throws on the missing identity exactly when no account id is strictly equal |
| TheBoys.AsWrittenReadsNextSlot | the-boys.ts:134 | as written, with participants numbered from 1, the lookup reads the participant one past the account's own and fails for the last participant |
| TheBoys.DetailsForMatch | the-boys.ts:127-135 | corrected: the detail carries the record's gameId; the only failures are a missing identity and a missing slot |
| TheBoys.DetailsAreOwnSlot | the-boys.ts:134 | corrected, the lookup reads the account's own participant, and fails exactly when the id is out of range |
| TheBoys.StringIdNeverMatches | the-boys.ts:131 | an account id written as a string never strictly equals a numeric id, so the lookup throws |
| TheBoys.StringIdSameAsNumber | the-boys.ts:131 | corrected, the decimal string of an account number is looked up as that number |
| TheBoys.OffByOneExample | the-boys.ts:134 | in a concrete two-player game, as written, the first player gets the second player's stats and the second player's lookup throws; corrected, each player gets their own |
| TheBoys.AllOk | the-boys.ts:126 | `Promise.all` succeeds exactly when every lookup does, value for value; a failure is that of the first failing lookup |
| TheBoys.DetailsForMatchesAux | the-boys.ts:115-137 | an account's details succeed exactly when each game's lookup does, one per game in order |
| TheBoys.DetailsForMatches | the-boys.ts:139-148 | the details succeed exactly when every lookup does; each account keeps its fields and gets its games' details in order |
| TheBoys.Run | the-boys.ts:163-169 | when every lookup succeeds, run() has one result per roster entry, with that entry's resolved account and at most three details |
| TheBoys.RunFailsOnStringId | the-boys.ts:163-169 | as written, the run throws the missing-identity error whenever MJ has a game and the match API spells ids as numbers |
| TheBoys.IntendedFindsStringId | the-boys.ts:131 | corrected, MJ's games are looked up as those of account number 200394182 |
| TheBoys.RecordHead | the-boys.ts:152-157 | the record literal has the names accountId, name, summonerName, gameId, in that order |
| TheBoys.FlattenIntoCsvAsWritten | the-boys.ts:150-161 | as written there is no result for any input |
| TheBoys.FlattenIntoCsv | the-boys.ts:150-161 | corrected, there is one record per detail |
| TheBoys.RecordOrder | the-boys.ts:150-161 | corrected, records are ordered by account, then by game |
| TheBoys.RecordNames | the-boys.ts:152-159 | a record's names are the literal's four, then the stats' new names in order |
| TheBoys.RecordGet | the-boys.ts:152-159 | a stats field wins over a literal field; the literal supplies the identity and the gameId |

## Left out

- The HTTP calls, the API key file, the rate-limiting request interceptors, the `setTimeout`
  pauses and `console.log` are left out. Every endpoint is a parameter of the model.
- Reading `data-1000.csv` and writing `data.csv` and `enriched-data-final.csv` are left
  out. The model takes the file's text and returns the text that would be written. The
  `DataFile` lemmas take the file `src/the-boys.ts` writes as `data.csv` to be the one
  `src/fill-in-dets.ts` reads as `data-1000.csv`: the scripts leave that rename to the user.
- `Promise.all` is modelled as if the requests ran one after another: the error reported is
  the first in index order. The real script rejects with whichever request fails first in
  time.
- `asyncForEach` (src/fill-in-dets.ts:6-10) is modelled by the loops of the methods that
  use it.
- `Number.parseInt` accepts a number prefix and gives NaN for other text. Here only a
  well-formed decimal field is read, and any other line is an error that ends the parse.
  The script would go on with NaN keys.
- A number in an object's key order comes first in JavaScript. The model keeps insertion
  order for every name, which agrees for the non-numeric names of these scripts.
- `===` between two objects compares references. Here two objects are never taken to be
  strictly equal.
- Floating point is left out: every number is an integer.
- MatchPaging.SubsequentMatches: the source recurses until the batch is finished, however
  long that takes. Here at most `fuel` rounds are run, and None means the batch was not
  finished by then. `PagingFuel` and `IdealPagingCollectsAll` show that enough fuel always
  gives the unbounded result.
- MatchPaging.InitialMatches: the first request carries no beginIndex. The model passes it
  to the endpoint as `None`, and only `IdealResponse` places a condition on the answer.
- CSV quoting is left out, because the scripts do none. A name or value holding a comma or a
  newline breaks the file. `DataFile.Writable` and `CsvOutput.Plain` state the condition
  under which the lemmas hold.
- CsvOutput.DeclaredColumnsLineUp: it assumes that no rendered value holds a separator. The
  model does not prove this for the match API's statistics, which it does not know.
- `run()` in the root `the-boys.ts` only logs its first result, which is not modelled.
  `TheBoys.Run` stops at the details.

## Findings

| source | as written | input that shows it | evidently intended | confidence | as-written member | corrected member |
|---|---|---|---|---|---|---|
| the-boys.ts:134 | `participants[participantId].stats` | a record whose participants are numbered from 1: the account with participantId 1 reads participant 2's stats, and the last participant's lookup throws | `participants[participantId - 1]`, as in src/fill-in-dets.ts:56 | not executed | TheBoys.AsWrittenReadsNextSlot | TheBoys.DetailsAreOwnSlot |
| the-boys.ts:10 | MJ's roster entry sets `accountId: '200394182'`, a string, which the spread of line 95 keeps, and line 131 compares it with `===` | any match of MJ's in which the API gives numeric account ids: no identity matches and reading `.participantId` of undefined throws | compare account numbers, so that the string "200394182" finds the account 200394182 | not executed | TheBoys.RunFailsOnStringId | TheBoys.IntendedFindsStringId |
| the-boys.ts:160 | `.flatten()` called on an array of arrays | any input: arrays have no method named `flatten` (the standard one is `flat`), so the call throws | lodash `flatten` of the lists, as src/the-boys.ts:153 does | not executed | TheBoys.FlattenIntoCsvAsWritten | TheBoys.RecordOrder |
| src/fill-in-dets.ts:145 | the header row is `Object.keys` of the first entry | a first entry whose statistics hold only `win`: the header has 5 fields over rows of 105 | the header is the list of column names the rows are built from | not executed | FillInDets.HeaderDisagreesWithRows | CsvOutput.DeclaredColumnsLineUp |
