# Business network registration: a verified model

This project models the checkable logic of a small registration system for
business networks. The system is a React front end with an Express endpoint
that appends each registration to a Google Sheet. The model covers:

- **Thai address cascade** (`thai_address.dfy`, `text_order.dfy`):
  - province names, sorted;
  - the districts (amphures) of a province and the sub-districts (tambons) of a district;
  - the postal code of a named triple;
  - the three loaders that cache a table once a fetch has succeeded.

  The tables are parameters. A fetch is modelled only by what it yields (`Some(table)`) or by its failure (`None`).
- **Six-step registration wizard** (`network_registration.dfy`, with `stepper.dfy`, `choices.dfy`, `submission.dfy`, `js.dfy`):
  - a step counter bounded to 1..6;
  - the per-step validity rules that enable Next and Submit;
  - field updates and the multi-select toggle;
  - the submission payload, merged through JavaScript `||` fallbacks with the object stored in the browser under `businessNetworkFormData`, which is written outside the modelled files.
- **Four-session form** (`business_network_form.dfy`):
  - an ungated counter bounded to 1..4;
  - field updates;
  - the skills and availability checkboxes.
- **Server row builder** (`sheet_server.dfy`):
  - the network-to-sheet table and the 400 for an unknown network;
  - the `range` string;
  - the 38-cell data row and the 38-cell header row, tied together by one column layout.
- **Client row format** (`google_sheets.dfy`):
  - the 21-entry row with "Yes"/"No" consents;
  - its headers;
  - a reader that inverts it.
- **Profile schema** (`profile_form.dfy`):
  - the length rules of the profile schema;
  - the merge of caller defaults;
  - the language and country checkboxes.
- **File URL helper** (`config.dfy`).

JavaScript's value model is made explicit in `js.dfy`: truthiness, `x || d`, `String(x)` and `Array.prototype.join`. Default `sort()` is modelled as lexicographic order on `seq<char>` (`TextOrder.Below`).

## Model

| member | source | states |
|---|---|---|
| ThaiAddress.FirstIndex | src/utils/thaiAddress.ts:98 | `find` gives the first element meeting the test, or none when no element meets it |
| ThaiAddress.ProvinceNames | src/utils/thaiAddress.ts:89-92 | the province names are sorted, one per province, and a permutation of the table's `name_th` values |
| ThaiAddress.ProvinceNamesMembership | src/utils/thaiAddress.ts:89-92 | a name is listed exactly when some province carries it |
| ThaiAddress.AmphuresByProvince | src/utils/thaiAddress.ts:95-107 | the districts are sorted; `[]` for an unknown province; otherwise a permutation of the names of the amphures whose `province_id` is the first matching province's id |
| ThaiAddress.UnknownProvinceHasNoAmphures | src/utils/thaiAddress.ts:98-99 | no province of that name yields no districts |
| ThaiAddress.AmphuresOfFirstMatch | src/utils/thaiAddress.ts:98-106 | the districts listed are exactly the amphures of the first province with that name |
| ThaiAddress.TambonsByProvinceAndAmphure | src/utils/thaiAddress.ts:110-134 | the sub-districts are sorted; `[]` when the province is unknown or no amphure of it has that name; otherwise a permutation, duplicates kept, of the names of the tambons whose `amphure_id` is the first matching amphure's id |
| ThaiAddress.TambonsOfFirstMatch | src/utils/thaiAddress.ts:120-133 | the sub-districts listed are exactly the tambons of the first matching amphure of the first matching province |
| ThaiAddress.PostalCode | src/utils/thaiAddress.ts:137-161 | the postal code is `''` or a string of decimal digits |
| ThaiAddress.PostalCodeMissing | src/utils/thaiAddress.ts:148-154 | a missing province, or no amphure of that name in it, gives `''` |
| ThaiAddress.PostalCodeOfFirstMatch | src/utils/thaiAddress.ts:156-160 | the first tambon matching both amphure id and name decides the code, whatever later records say; no match gives `''` |
| ThaiAddress.FallbackProvinceNames | src/utils/thaiAddress.ts:44-48 | with the three-entry fallback table the province list is the three names in code-unit order |
| ThaiAddress.CacheHit | src/utils/thaiAddress.ts:31 | a set cache is returned unchanged and stays set, whatever the fetch would give |
| ThaiAddress.FailedLoadNotCached | src/utils/thaiAddress.ts:41-48 | a failed first load returns the fallback and leaves the cache unset |
| ThaiAddress.LoadStable | src/utils/thaiAddress.ts:30-40 | after one successful load, every later load returns the same table |
| ThaiAddress.AddressCache.LoadProvinces | src/utils/thaiAddress.ts:30-50 | returns the cache, else the fetched table (now cached), else the uncached fallback |
| ThaiAddress.AddressCache.LoadAmphures | src/utils/thaiAddress.ts:53-68 | as above, with `[]` on failure |
| ThaiAddress.AddressCache.LoadTambons | src/utils/thaiAddress.ts:71-86 | as above, with `[]` on failure |
| ThaiAddress.AddressCache.GetProvinces | src/utils/thaiAddress.ts:89-92 | the listed names are the sorted province names of the loaded table; the cache follows the load rule |
| ThaiAddress.AddressCache.GetAmphuresByProvince | src/utils/thaiAddress.ts:95-107 | the districts of the loaded tables; both caches follow the load rule |
| ThaiAddress.AddressCache.GetTambonsByProvinceAndAmphure | src/utils/thaiAddress.ts:110-134 | the sub-districts of the loaded tables; all three caches follow the load rule |
| ThaiAddress.AddressCache.GetPostalCode | src/utils/thaiAddress.ts:137-161 | the postal code of the loaded tables; all three caches follow the load rule |
| TextOrder.Sort | src/utils/thaiAddress.ts:91 | `sort()` yields a sorted permutation of its input |
| TextOrder.SortedUnique | src/utils/thaiAddress.ts:91 | two sorted permutations of the same strings are equal, so the sorted list is determined by its contents |
| TextOrder.SortSorted | src/utils/thaiAddress.ts:104 | sorting an already sorted list changes nothing |
| TextOrder.BelowTransitive | src/utils/thaiAddress.ts:91 | code-unit order is transitive (with `BelowTotal` and `BelowAntisymmetric`, a total order) |
| Js.ParseNatToString | src/utils/thaiAddress.ts:160 | the decimal numeral of a zip code reads back as the same number |
| Js.NatToString | src/utils/thaiAddress.ts:160 | `toString()` of a natural number is a non-empty digit string without a leading zero |
| Js.JoinLength | server.js:134 | `join` output is the sum of the parts plus one separator between each pair |
| Js.JoinSnoc | server.js:134 | joining one more item appends the separator and the item |
| Js.OrFallback | src/pages/NetworkRegistration.tsx:235-252 | `x \|\| d` is `d` exactly when `x` is falsy, and is truthy iff one of them is |
| Stepper.ApplyInRange | src/pages/NetworkRegistration.tsx:218-228 | one press moves the step by at most one and never leaves [1, total] |
| Stepper.RunInRange | src/pages/NetworkRegistration.tsx:159-160 | a counter starting inside [1, total] stays there under any sequence of presses |
| Stepper.NextPreviousInverse | src/components/BusinessNetworkForm.tsx:97-107 | Previous undoes Next below the last step, and Next undoes Previous above the first |
| Stepper.Fixpoints | src/components/BusinessNetworkForm.tsx:97-107 | Next is stuck exactly at the last step, Previous exactly at the first |
| Stepper.ForwardsReachLast | src/pages/NetworkRegistration.tsx:218-222 | `total - step` presses of Next reach the last step |
| Choices.RemoveAll | src/pages/NetworkRegistration.tsx:208 | the filter removes every entry equal to the value and keeps the count of every other value |
| Choices.RemoveAllAppend | src/pages/NetworkRegistration.tsx:208 | the filter keeps order: it distributes over concatenation |
| Choices.RemoveAllAbsent | src/pages/NetworkRegistration.tsx:208 | filtering out an absent value changes nothing |
| Choices.SetChecked | src/components/BusinessNetworkForm.tsx:305-311 | check appends the value at the end; uncheck removes every equal entry and keeps the rest |
| Choices.Toggle | src/pages/NetworkRegistration.tsx:202-212 | the value ends up present exactly when it was absent; an absent value is appended at the end |
| Choices.ToggleIsClick | src/pages/NetworkRegistration.tsx:207-209 | the toggle is a checkbox click whose checked state is `includes(value)` |
| Choices.ToggleTwiceAbsent | src/pages/NetworkRegistration.tsx:202-212 | toggling an absent value twice restores the list exactly |
| Choices.ToggleTwicePresent | src/pages/NetworkRegistration.tsx:202-212 | toggling a present value twice drops its duplicates and moves it to the end |
| Choices.CheckThenUncheck | src/components/BusinessNetworkForm.tsx:388-394 | checking a clear box and then clearing it restores the list exactly |
| Choices.UncheckTwice | src/components/BusinessNetworkForm.tsx:309 | clearing a box twice is the same as clearing it once |
| NetworkRegistration.WithText | src/pages/NetworkRegistration.tsx:198-200 | `updateFormData` sets the named text field and leaves every other field unchanged |
| NetworkRegistration.WithList | src/pages/NetworkRegistration.tsx:202-212 | the named list field is replaced; every other field is unchanged |
| NetworkRegistration.WithFlag | src/pages/NetworkRegistration.tsx:198-200 | the named consent flag is set; every other field is unchanged |
| NetworkRegistration.FieldsDetermineRecord | src/pages/NetworkRegistration.tsx:18-58 | two forms agreeing on every text, list and flag field are equal |
| NetworkRegistration.StepValidIffRequirements | src/pages/NetworkRegistration.tsx:676-693 | a step is valid iff it lies in 1..6 and every required field of its rule table is filled, chosen or ticked |
| NetworkRegistration.UnrelatedEditKeepsValidity | src/pages/NetworkRegistration.tsx:676-693 | editing a field no rule of the step mentions cannot change that step's validity |
| NetworkRegistration.ControlsAt | src/pages/NetworkRegistration.tsx:749-775 | Previous is disabled exactly at step 1; Next shows below step 6 and Submit at it; either is disabled exactly when the step is invalid |
| NetworkRegistration.SubmissionLookup | src/pages/NetworkRegistration.tsx:233-274 | the payload has every key, each with its per-key value |
| NetworkRegistration.SubmissionHasEveryKey | src/pages/NetworkRegistration.tsx:233-274 | no key of the payload is ever missing |
| NetworkRegistration.SubmissionCopiesBusinessFields | src/pages/NetworkRegistration.tsx:255-273 | every business text, list and flag field is sent verbatim from the form |
| NetworkRegistration.TextValue | src/pages/NetworkRegistration.tsx:255-271 | each business text field is sent as typed |
| NetworkRegistration.ListValue | src/pages/NetworkRegistration.tsx:262-270 | each list field is sent as the same array |
| NetworkRegistration.PdpaAlwaysAccepted | src/pages/NetworkRegistration.tsx:235 | `pdpaAccepted` is always truthy: a saved truthy value, else `true` |
| NetworkRegistration.MembershipTypeFallback | src/pages/NetworkRegistration.tsx:236 | `membershipType` is the saved value when truthy, else `'yec'` |
| NetworkRegistration.BusinessNetworkFallback | src/pages/NetworkRegistration.tsx:240 | `businessNetwork` is the saved value when truthy, else the route's network name when non-empty, else `''` |
| NetworkRegistration.ImagesFallBackToNull | src/pages/NetworkRegistration.tsx:238-239 | the two image paths fall back to `null` |
| NetworkRegistration.PersonalFieldsFallback | src/pages/NetworkRegistration.tsx:237-252 | every personal field is the saved value when truthy, else `''` |
| NetworkRegistration.Wizard.constructor | src/pages/NetworkRegistration.tsx:159-182 | the wizard starts at step 1 with the empty form |
| NetworkRegistration.Wizard.HandleNext | src/pages/NetworkRegistration.tsx:218-222 | moves one step forward below step 6, else nothing; the step stays in [1, 6] |
| NetworkRegistration.Wizard.HandlePrevious | src/pages/NetworkRegistration.tsx:224-228 | moves one step back above step 1, else nothing; the step stays in [1, 6] |
| NetworkRegistration.Wizard.UpdateText | src/pages/NetworkRegistration.tsx:198-200 | only the named field changes |
| NetworkRegistration.Wizard.UpdateFlag | src/pages/NetworkRegistration.tsx:198-200 | only the named flag changes |
| NetworkRegistration.Wizard.HandleArrayToggle | src/pages/NetworkRegistration.tsx:202-212 | the value's presence flips in the named list; all other lists and texts stay |
| NetworkRegistration.Wizard.HandleSubmit | src/pages/NetworkRegistration.tsx:230-274 | the payload is the merged submission data of the current form |
| NetworkRegistration.Wizard.PressPrimary | src/pages/NetworkRegistration.tsx:759-775 | a disabled button does nothing; Next advances; Submit at step 6 yields the payload |
| BusinessNetworkForm.WithText | src/components/BusinessNetworkForm.tsx:93-95 | `updateFormData` sets the named answer and leaves every other answer unchanged |
| BusinessNetworkForm.WithList | src/components/BusinessNetworkForm.tsx:93-95 | the named checkbox list is replaced; every other answer is unchanged |
| BusinessNetworkForm.FieldsDetermineForm | src/components/BusinessNetworkForm.tsx:14-42 | two forms agreeing on every answer are equal |
| BusinessNetworkForm.UpdatesOverwrite | src/components/BusinessNetworkForm.tsx:93-95 | the last update of a field wins, and writing back a field's own value changes nothing |
| BusinessNetworkForm.ControlsAt | src/components/BusinessNetworkForm.tsx:506-526 | Previous is disabled exactly at session 1; Next shows below session 4 and Submit at it; neither is gated by validation |
| BusinessNetworkForm.ButtonsMove | src/components/BusinessNetworkForm.tsx:97-107 | whatever the answers, a shown Next reaches the following session and an enabled Previous goes back one |
| BusinessNetworkForm.SessionForm.constructor | src/components/BusinessNetworkForm.tsx:67-89 | the form starts at session 1 with every answer empty |
| BusinessNetworkForm.SessionForm.HandleNext | src/components/BusinessNetworkForm.tsx:97-101 | moves one session forward below 4, else nothing; the session stays in [1, 4] |
| BusinessNetworkForm.SessionForm.HandlePrevious | src/components/BusinessNetworkForm.tsx:103-107 | moves one session back above 1, else nothing; the session stays in [1, 4] |
| BusinessNetworkForm.SessionForm.UpdateText | src/components/BusinessNetworkForm.tsx:93-95 | only the named answer changes |
| BusinessNetworkForm.SessionForm.OnChecked | src/components/BusinessNetworkForm.tsx:305-311 | check appends the value to the named list, uncheck removes every equal entry; all else stays |
| BusinessNetworkForm.SessionForm.OnSkillChecked | src/components/BusinessNetworkForm.tsx:305-311 | the skills list follows the check/uncheck rule and nothing else changes |
| BusinessNetworkForm.SessionForm.OnAvailabilityChecked | src/components/BusinessNetworkForm.tsx:388-394 | the availability list follows the check/uncheck rule and nothing else changes |
| BusinessNetworkForm.SessionForm.PressPrimary | src/components/BusinessNetworkForm.tsx:517-526 | below session 4 the button advances; at session 4 it submits the current answers and changes nothing |
| SheetServer.SheetNames | server.js:18-28 | "Ai & Inno Network" goes to sheet "Ai&Innovation"; every other network to the sheet of its own name; no name is empty |
| SheetServer.SheetNameFor | server.js:87-92 | (corrected lookup, see ## Findings) a sheet is chosen exactly when the `businessNetwork` value, as a property key, is one of the table's own keys; the sheet is its mapped value |
| SheetServer.FalsyKeysUnknown | server.js:87 | no falsy value names a network |
| SheetServer.Range | server.js:93 | `range` is the sheet name followed by `!A1` |
| SheetServer.AcceptedAsWritten | server.js:87 | the guard as written: a truthy value whose property key is a key of the table or a name every object inherits from `Object.prototype` |
| SheetServer.AsWrittenAcceptsEveryNetwork | server.js:87 | the guard as written accepts every value the corrected lookup accepts |
| SheetServer.ConstructorPassesGuard | server.js:87 | the guard as written accepts `"constructor"`, which names no network |
| SheetServer.ConsentWord | server.js:110 | a truthy value becomes 'ยอมรับ', any other 'ไม่ยอมรับ' |
| SheetServer.Joined | server.js:134 | an array is joined with `', '`; another truthy value passes through; a falsy one becomes `''` |
| SheetServer.OrEmpty | server.js:111 | a truthy value passes through; a falsy or missing one becomes `''` |
| SheetServer.AllData | server.js:107-146 | the row has exactly 38 cells (their contents are stated by SheetServer.RowCellOfKey and SheetServer.KeyColumn) |
| SheetServer.HeaderColumn | server.js:192-231 | header i is the title of layout column i; column 0 is the timestamp; columns 2, 36 and 37 are consents; 26, 28, 30, 32 and 34 are lists |
| SheetServer.HeadersFollowLayout | server.js:192-231 | header row and layout both have 38 columns and header i names column i |
| SheetServer.KeyColumn | server.js:107-146 | each body key has its own column, converted as its kind demands |
| SheetServer.LayoutCoversEachKeyOnce | server.js:107-146 | column 0 holds the timestamp and every body key is read by exactly one column |
| SheetServer.RowCellOfKey | server.js:109-145 | each key's cell is as sent (network), a consent word, a `', '` join, or the value with a `''` fallback; a missing key gives `''` or the reject word |
| SheetServer.Handle | server.js:87-93 | (corrected lookup, see ## Findings) a 400 with the fixed message exactly when the network is not one of the table's own keys; otherwise the mapped sheet, its `!A1` range and the row |
| SheetServer.AppendedRow | server.js:107-109 | an appended row is as long as the header row, holds the timestamp in column 0 and the accepted network in column 1 |
| SheetServer.RegistrationTextCells | server.js:127-143 | each business text answer of the wizard reaches its column as typed |
| SheetServer.RegistrationListCells | server.js:134-142 | each list answer of the wizard reaches its column joined with `', '` |
| SheetServer.RegistrationConsentCells | server.js:110 | the wizard's two consents become the consent words; the PDPA column of a wizard submission always reads 'ยอมรับ' |
| SheetServer.RegistrationNetworkChecked | server.js:87-89 | without a saved network, the wizard's payload is rejected exactly when its route network is missing or not in the table |
| GoogleSheets.YesNo | src/utils/googleSheets.ts:90-91 | a consent is 'Yes' exactly when true, else 'No' |
| GoogleSheets.FormatDataForSheets | src/utils/googleSheets.ts:69-93 | the row has exactly 21 entries |
| GoogleSheets.RowMatchesHeaders | src/utils/googleSheets.ts:70-117 | row and headers have 21 entries; each string field sits verbatim at its declaration position under its own title; the consents come last under theirs |
| GoogleSheets.PositionsDistinct | src/utils/googleSheets.ts:4-26 | distinct fields occupy distinct columns |
| GoogleSheets.ParseYesNo | src/utils/googleSheets.ts:90-91 | only 'Yes' and 'No' read back, and each reads back to the flag it came from |
| GoogleSheets.ParseFormatted | src/utils/googleSheets.ts:69-93 | reading back a formatted row recovers the submission |
| GoogleSheets.FormatParsed | src/utils/googleSheets.ts:69-93 | every row that reads back is the format of what it reads back to |
| GoogleSheets.FormatInjective | src/utils/googleSheets.ts:69-93 | different submissions never give the same row |
| ProfileForm.Issues | src/components/profile/ProfileForm.tsx:46-58 | a field is reported exactly when its rule fails |
| ProfileForm.Parse | src/components/profile/ProfileForm.tsx:46-58 | parsing succeeds exactly when no field is reported |
| ProfileForm.Rules | src/components/profile/ProfileForm.tsx:47-53 | valid iff both names have length at least 1, the email is present and an address, the phone has at least 10 characters, and the tax id is absent, empty or exactly 13 characters |
| ProfileForm.OptionalFieldsFree | src/components/profile/ProfileForm.tsx:51-55 | no value of line id, company name, YEC province or business status, nor its absence, can change the verdict |
| ProfileForm.ParseKeepsValues | src/components/profile/ProfileForm.tsx:56-57 | parsing keeps every value as given and fills a missing list with `[]` |
| ProfileForm.MergeDefaults | src/components/profile/ProfileForm.tsx:81-85 | both lists are always present after the merge; without defaults, only the two empty lists are set |
| ProfileForm.SuppliedDefaultsOverride | src/components/profile/ProfileForm.tsx:81-85 | every supplied default is taken as is; only a missing list falls back to `[]` |
| ProfileForm.MergeIdempotent | src/components/profile/ProfileForm.tsx:79-86 | merging the merged values again changes nothing |
| ProfileForm.OnCheckedChange | src/components/profile/ProfileForm.tsx:260-266 | check appends the option; uncheck filters out every equal entry; a missing list stays missing on uncheck |
| ProfileForm.ClicksKeepListsPresent | src/components/profile/ProfileForm.tsx:326-331 | from merged defaults every click on either list is defined and leaves the list present |
| ProfileForm.CheckThenUncheckRestores | src/components/profile/ProfileForm.tsx:326-331 | checking an option and then clearing it restores the list |
| Config.GetFileUrl | config.js:7-11 | none exactly for a missing or empty path; an `http` path unchanged; any other path after `FILE_BASE_URL` |
| Config.UrlsAreAbsolute | config.js:9-10 | every returned URL starts with `http` and ends with the given path |
| Config.GetFileUrlIdempotent | config.js:4-10 | passing a returned URL back in returns it unchanged |
| Config.SameOrigin | config.js:2-4 | API and files share the origin `https://api-yec.over24h.shop` |

## Findings

| source | as written | input that shows it | evidently intended | confidence | as-written member | corrected member |
|---|---|---|---|---|---|---|
| server.js:87 | the guard reads `BUSINESS_NETWORK_SHEETS[businessNetwork]` as an ordinary property, so names inherited from `Object.prototype` (`constructor`, `toString`, ...) are truthy and pass | a body with `businessNetwork: "constructor"`: the guard passes and `sheetName` is a function instead of a sheet name | only the nine networks of the table are accepted, and every other value gets the 400 | not executed | SheetServer.ConstructorPassesGuard | SheetServer.SheetNameFor |

`SheetServer.AcceptedAsWritten` models the guard as written. `SheetServer.Handle` uses the corrected lookup.

## Left out

- Network and storage I/O is not modelled:
  - `fetch` of the address tables (a load is its result, or `None` for a failed fetch or a non-OK status);
  - the Google Sheets API calls, spreadsheet and sheet creation, and the header append;
  - `localStorage` (the saved data is an input);
  - the POST to `/api/submit`, toasts, navigation and console output.
- The timestamp is an input string. It is formatted from the host clock in Bangkok time.
- `submitToGoogleSheets` has nothing to verify: after a simulated delay it always returns true.
- The email format rule of the profile schema is a parameter, `isEmail`, because its pattern lives inside the validation library.
- Strings are sequences of code points. JavaScript lengths and `sort()` count UTF-16 code units, which agree for the Thai and ASCII text here.
- ThaiAddress.PostalCode: `zip_code` is a number, so `toString()` keeps no leading zero; a postal code is the decimal numeral of a natural number.
- JSON values are modelled without these:
  - nested objects;
  - arrays of anything but strings;
  - non-integer numbers.

  A request body or saved record holds only the known keys, and `Num` is an integer.
- The request body's own property order, and duplicate or extra keys, are not modelled.
- The file-upload handler of the wizard and the image fields are not modelled. They are opaque file handles, carried only as saved values that fall back to `null`.
- The `Object.prototype` names that the as-written guard accepts are listed explicitly in `InheritedNames`. That list covers the standard ones only.
- ProfileForm.OnCheckedChange requires a present list for a check. Spreading `undefined` throws in the source. A property that is explicitly `undefined` in the defaults counts as missing.
- React state batching and stale closures are not modelled. Each handler is one atomic update of the state it reads.
