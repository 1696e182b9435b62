# AgriVision core, modelled in Dafny

AgriVision is a Next.js web app for farmers in Jharkhand. This project models the parts of it that carry checkable logic, one Dafny module per source file, plus four shared modules.

**Shared modules**
- `Common`: `Option` and `Result`.
- `Text`: JavaScript's `trim` and its white-space set, `toLowerCase` on ASCII letters, `toString`, `parseInt` and `Number` of integers, and `split`/`join` on one character.
- `Json`: JSON documents and the JavaScript values read out of them (truthiness, member reads, `String(x)`, the message of an error thrown from a response body). `JSON.parse`/`stringify` are an injected codec whose one law is that parsing what was stringified gives it back.
- `LocalStorage`: the browser store, as a class over a string map.

**Per-file modules**
- `OfflineCache` (`src/lib/offlineCache.ts`): the expiring key-value cache.
- `UseOfflineCache` (`src/hooks/useOfflineCache.ts`): its cache-or-fetch hook.
- `ChatWidget` (`src/components/ChatWidget.tsx`): the chat submit handler and its stream decoder.
- `ProfileRoute` (`src/app/api/user/profile/route.ts`): the profile API's GET, PATCH and PUT.
- `Shop` (`src/app/shop/page.tsx`): the shop page's cart.
- `LanguageContext` (`src/contexts/LanguageContext.tsx`): the language context and the pages' `getLocalizedText` rule.
- `WeatherRoute` (`src/app/api/weather/route.ts`): the weather route.
- `UseAgriculturalNews` (`src/lib/hooks/useAgriculturalNews.ts`): the news hook.
- `NewsPage` (`src/app/news/page.tsx`): the news page's relative dates.
- `RegisterPage` (`src/app/register/page.tsx`): the register page.
- `ProfilePage` (`src/app/profile/page.tsx`): the profile page.
- `WeatherWidget` (`src/components/WeatherWidget.tsx`): the weather widget.
- `ImageFile`: the picture check both forms share.

**Form of the model**
- Code that updates state step by step is a class with `modifies` clauses. This covers the cache over `localStorage`, the hooks' and pages' state fields, the stream reader's loops and the PUT handler's `updateData`.
- Code made of expressions is functions and lemmas.

**What stays outside**
- Everything outside the browser and the server process is a parameter: the clock, the network replies, the session, the user table, the store's accept/refuse decision and the chunks of a stream.

## Model

| member | source | states |
|---|---|---|
| Text.TrimEmptyIffBlank | src/components/ChatWidget.tsx:79 | `s.trim()` is empty exactly when every character of `s` is ECMAScript white space or a line terminator |
| Text.TrimEnds | src/components/ChatWidget.tsx:32 | a trimmed text is empty or neither begins nor ends with white space |
| Text.TrimDropsBlanks | src/components/ChatWidget.tsx:32 | what `trim` removes from either end is white space only |
| Text.TrimIdempotent | src/app/profile/page.tsx:211-216 | trimming a trimmed string changes nothing |
| Text.TrimPadded | src/app/api/weather/route.ts:92 | white space on both sides of a text whose ends are not white space is removed, and the text is kept whole |
| Text.ToLower | src/app/api/weather/route.ts:92 | lower-casing keeps the length, lowers each character in place, and leaves no upper-case ASCII letter |
| Text.ToLowerAppend | src/app/api/weather/route.ts:92 | lower-casing a concatenation lower-cases each part |
| Text.NatToStringValue | src/lib/offlineCache.ts:86 | the decimal digits of `n.toString()` read back as `n` |
| Text.IntToString | src/lib/offlineCache.ts:86 | `i.toString()` is the decimal digits of `\|i\|`, after a minus sign when `i` is negative |
| Text.ParseIntOfIntToString | src/lib/offlineCache.ts:79-87 | `parseInt(n.toString())` is `n` for every integer, negative ones included |
| Text.Split | src/components/ChatWidget.tsx:76 | `split` gives at least one piece and no piece contains the separator |
| Text.JoinSplit | src/components/ChatWidget.tsx:76 | joining the pieces of a split with the separator gives the chunk back |
| Text.SplitJoin | src/components/ChatWidget.tsx:76 | splitting a join of separator-free pieces gives the pieces back |
| Json.Member | src/components/WeatherWidget.tsx:71 | a member read is undefined exactly when the value is not an object holding that member, and otherwise is the member's value |
| Text.StringToNumberBlank | src/lib/offlineCache.ts:48 | `Number` of a blank string is 0; any other string that converts is digits with at most one leading sign once trimmed |
| Text.StringToNumberOfDecimal | src/lib/offlineCache.ts:48 | `Number(i.toString())` is `i` |
| Text.StringToNumberOfIntToString | src/lib/offlineCache.ts:48 | `Number` of the decimal text of `i`, with white space around it, is `i` |
| Json.ToNumberText | src/lib/offlineCache.ts:48 | a timestamp held as decimal text converts to its value, with or without white space around it |
| Json.ToNumberEmpty | src/lib/offlineCache.ts:48 | `""` and `[]` convert to 0; an object and undefined convert to NaN |
| Json.ToNumberSingleton | src/lib/offlineCache.ts:48 | `[t]` converts through its text to `t` |
| Json.ErrorMessage | src/lib/hooks/useAgriculturalNews.ts:51-54 | the message of `new Error(data[member] \|\| fallback)`: the body read's own error, the TypeError of reading a member of null, the member's text when it is a non-empty string, the fallback when the member is falsy |
| LocalStorage.Store.constructor | src/lib/offlineCache.ts:15 | the store starts with the entries given |
| LocalStorage.Store.GetItem | src/lib/offlineCache.ts:29 | `getItem` is present exactly when the key is stored, and is the stored text |
| LocalStorage.Store.SetItem | src/lib/offlineCache.ts:15-18 | an accepted write replaces that one key; a refused write changes nothing |
| LocalStorage.Store.RemoveItem | src/lib/offlineCache.ts:57 | an accepted `removeItem` deletes exactly that key; a refused one throws and deletes nothing |
| OfflineCache.Get | src/lib/offlineCache.ts:27-38 | `get` is null for a missing or empty entry and for text that does not parse; a truthy result is the `data` member of the parsed object |
| OfflineCache.IsValid | src/lib/offlineCache.ts:41-52 | `isValid` is false for a missing, empty or unparsable entry; when true, the entry parses to an object whose `timestamp`, coerced as `Number` does, has age `now - timestamp` strictly below `maxAge` |
| OfflineCache.IsValidTextTimestamp | src/lib/offlineCache.ts:47-49 | an entry whose timestamp is the decimal text of `t0` is valid exactly while `now < t0 + maxAge`, as `Date.now() - parsed.timestamp` coerces the text |
| OfflineCache.IsValidDefault | src/lib/offlineCache.ts:41 | the default `maxAge` is 3600000 ms |
| OfflineCache.GetLastSync | src/lib/offlineCache.ts:79-82 | `getLastSync` is null exactly when no non-empty last-sync text is stored |
| OfflineCache.Set | src/lib/offlineCache.ts:13-24 | `set` returns whether the store accepted the write; an accepted write stores the envelope stamped `now` under that key only; a refused one changes nothing |
| OfflineCache.Remove | src/lib/offlineCache.ts:55-63 | `remove` deletes that key and no other and returns true; a removal the store refuses is caught, changes nothing and returns false |
| OfflineCache.ClearAll | src/lib/offlineCache.ts:66-76 | `clearAll` deletes the six cache keys in order up to the first removal the store refuses, and returns true exactly when none was refused; then exactly the six keys, last-sync included, are gone and every other key is kept |
| OfflineCache.UpdateLastSync | src/lib/offlineCache.ts:85-87 | `updateLastSync` stores `now` in decimal under the last-sync key, or throws (changing nothing) when the store refuses |
| OfflineCache.GetAfterSet | src/lib/offlineCache.ts:13-38 | after `set(k, v)` succeeds, `get(k)` returns `v` |
| OfflineCache.IsValidAfterSet | src/lib/offlineCache.ts:41-52 | an entry written at `t0` is valid at `now` exactly when `now < t0 + maxAge` |
| OfflineCache.SetIsolated | src/lib/offlineCache.ts:13-24 | writing one key changes neither `get` nor `isValid` of any other key |
| OfflineCache.LastSyncRoundTrip | src/lib/offlineCache.ts:79-87 | `updateLastSync()` at `now` followed by `getLastSync()` gives the time `now` |
| OfflineCache.ClearedReadsEmpty | src/lib/offlineCache.ts:66-82 | after `clearAll()` every cache key reads null and is not valid, and there is no last-sync time |
| UseOfflineCache.CachedFetch.constructor | src/hooks/useOfflineCache.ts:11-14 | the hook starts with no data, loading, no error, not from the cache |
| UseOfflineCache.CachedFetch.LoadData | src/hooks/useOfflineCache.ts:17-46 | the load path. A truthy, valid cached value is shown as from the cache. Online success writes the cache and last-sync, and shows the fresh value with no error. A fetch failure sets the error, writes nothing and keeps what was shown. Offline with nothing cached: the no-connection error. Offline with a stale entry: nothing shown, no error. Loading ends on every path |
| UseOfflineCache.CachedFetch.Refresh | src/hooks/useOfflineCache.ts:51-69 | offline nothing changes; online success writes the cache and shows the fresh value; failure sets the error and keeps `data` and `isFromCache`; loading ends |
| UseOfflineCache.SuccessfulLoadIsCached | src/hooks/useOfflineCache.ts:30-36 | after a successful online load the last-sync time is the write time whether or not the cache write was accepted; when it was, the cache serves the fresh value and is valid for `maxAge` from the write |
| ChatWidget.Transcript | src/components/ChatWidget.tsx:52-55 | the posted transcript is the messages in order, each reduced to role and content |
| ChatWidget.WithoutMembers | src/components/ChatWidget.tsx:96 | the id filter keeps exactly the messages with another id |
| ChatWidget.CountWithout | src/components/ChatWidget.tsx:96 | after the id filter no message carries that id |
| ChatWidget.WithoutIdempotent | src/components/ChatWidget.tsx:96 | filtering out an id twice is filtering it once |
| ChatWidget.UpsertExactlyOnce | src/components/ChatWidget.tsx:95-105 | after the replace-by-id update exactly one message carries the assistant id; it is last and holds the buffer; the others keep their order |
| ChatWidget.UpsertTwice | src/components/ChatWidget.tsx:95-119 | two updates by the same id equal one update with the later content |
| ChatWidget.UpsertFresh | src/components/ChatWidget.tsx:95-105 | an update by an id no message carries appends the assistant message |
| ChatWidget.StepChunksShows | src/components/ChatWidget.tsx:69-122 | after any chunks, either no line was taken and the buffer is empty, or the transcript is the base without the id followed by the one assistant message showing the buffer |
| ChatWidget.StreamTranscript | src/components/ChatWidget.tsx:68-137 | whatever the stream, the final transcript is the one before the reply, or that transcript with exactly one assistant message, last, holding the decoded text |
| ChatWidget.StepLinesGrows | src/components/ChatWidget.tsx:78-120 | within a chunk the assistant text only grows |
| ChatWidget.StepChunksGrows | src/components/ChatWidget.tsx:78-92 | the assistant text only grows: each shown text is a prefix of the next |
| ChatWidget.StringChunk | src/components/ChatWidget.tsx:83-88 | a chunk that is one `0:` line encoding the string `t` appends `t` and replaces the assistant message |
| ChatWidget.TwoStringChunks | src/components/ChatWidget.tsx:69-137 | two `0:` string chunks `t1` and `t2` leave one assistant message reading `t1 + t2` |
| ChatWidget.HelloWorld | src/components/ChatWidget.tsx:69-137 | the chunks `0:"Hello"` and `0:" world"` leave one assistant message "Hello world" after the user's |
| ChatWidget.ReadLine | src/components/ChatWidget.tsx:78-120 | one line: blank lines add nothing; a `0:` line adds its JSON string, nothing for a non-string, the whole chunk on a parse failure; another line is added verbatim; the assistant message is replaced by id |
| ChatWidget.ReadLines | src/components/ChatWidget.tsx:76-121 | the `for` loop over a chunk's lines is the line fold over `split("\n")` |
| ChatWidget.ReadStream | src/components/ChatWidget.tsx:69-122 | the `while` read loop is the chunk fold from an empty buffer |
| ChatWidget.Widget.constructor | src/components/ChatWidget.tsx:17-21 | no messages, empty input, not loading, no error |
| ChatWidget.Widget.HandleSubmit | src/components/ChatWidget.tsx:30-145 | a blank input or a request in flight is ignored. Otherwise the trimmed user message is appended and the transcript posted, and input, error and loading are reset. A failed request sets the send error and adds no assistant message. A stream is decoded into the assistant message. Loading ends false |
| ProfileRoute.ProfileOf | src/app/api/user/profile/route.ts:23-33 | a reply carries only the eight profile columns, each as stored |
| ProfileRoute.Get | src/app/api/user/profile/route.ts:7-50 | 401 exactly without a session user; otherwise the row's profile columns, or 404 without a row |
| ProfileRoute.Patch | src/app/api/user/profile/route.ts:64-134 | success needs a session user, a row, and a string location that is non-empty once trimmed, and exactly the trimmed location is written. Conversely, for a session user with such a location the request succeeds exactly when the row exists, else answers 404. A body that is not JSON, or is null, answers 500. On any failure the table is unchanged |
| ProfileRoute.PatchUnauthorized | src/app/api/user/profile/route.ts:69-77 | without a session user PATCH answers 401 and reads and writes nothing |
| ProfileRoute.PatchLocationCodes | src/app/api/user/profile/route.ts:83-104 | a missing, non-string or empty location is `MISSING_LOCATION`; otherwise `INVALID_LOCATION` exactly when it is all white space |
| ProfileRoute.KeyInjective | src/app/api/user/profile/route.ts:165 | the five destructured fields have distinct member names |
| ProfileRoute.FirstInvalidInOrder | src/app/api/user/profile/route.ts:176-249 | PUT checks name, image, village, district and state in that order and reports the first failure |
| ProfileRoute.WrittenValues | src/app/api/user/profile/route.ts:176-249 | after the checks pass, the update holds exactly the fields present. A name is a non-empty trimmed string. The image is null or the string as sent. Village, district and state are trimmed strings |
| ProfileRoute.AddTrimmed | src/app/api/user/profile/route.ts:212-249 | for village, district or state: absent leaves the update, a string is added trimmed, anything else is that field's rejection |
| ProfileRoute.BuildUpdate | src/app/api/user/profile/route.ts:168-249 | `updateData` built field by field fails exactly with the first failing field's rejection, else is the update of the present fields |
| ProfileRoute.Apply | src/app/api/user/profile/route.ts:262-266 | `.set(updateData)` replaces the update's columns and keeps every other column |
| ProfileRoute.Put | src/app/api/user/profile/route.ts:148-290 | 401 without a session user; 500 for a body that cannot be destructured; the first field rejection; `NO_FIELDS_PROVIDED` for an empty update; 404 without a row; otherwise the updated row's profile, and only that row changes |
| Shop.Find | src/app/shop/page.tsx:222 | `find` gives the first entry with the id, or none when no entry has it |
| Shop.Shift | src/app/shop/page.tsx:225-227 | the quantity map changes exactly the entries with the id, by the delta |
| Shop.DropMembers | src/app/shop/page.tsx:249 | the filter keeps exactly the entries with another id |
| Shop.AddExisting | src/app/shop/page.tsx:222-228 | adding a held product raises its quantity by one and changes no other entry or position |
| Shop.AddNew | src/app/shop/page.tsx:232-233 | adding a product not held appends it with quantity 1 |
| Shop.RemoveDecrements | src/app/shop/page.tsx:241-247 | removing an entry with quantity above 1 lowers it by one, nothing else changes |
| Shop.RemoveDeletes | src/app/shop/page.tsx:248-250 | removing an entry with quantity 1 deletes it and keeps the others in order |
| Shop.RemoveAbsent | src/app/shop/page.tsx:248-250 | removing an id not in the cart leaves it unchanged |
| Shop.AddPreservesWellFormed | src/app/shop/page.tsx:221-238 | adding keeps ids unique and quantities at least 1 |
| Shop.RemovePreservesWellFormed | src/app/shop/page.tsx:240-251 | removing keeps ids unique and quantities at least 1 |
| Shop.AddThenRemove | src/app/shop/page.tsx:221-251 | adding a product then removing its id restores the cart |
| Shop.TotalUpdate | src/app/shop/page.tsx:253-255 | replacing one entry changes the total by the difference of the two line totals |
| Shop.AddRaisesTotal | src/app/shop/page.tsx:253-255 | adding a product raises the total by one unit's price |
| Shop.InCategory | src/app/shop/page.tsx:219 | the category filter returns only products of that category |
| Shop.InCategoryAppend | src/app/shop/page.tsx:219 | the filter of a concatenation is the concatenation of the filters, so catalogue order is kept |
| Shop.InCategoryMembers | src/app/shop/page.tsx:219 | exactly the products of the category are kept |
| Shop.InCategoryAll | src/app/shop/page.tsx:219 | for every product at once, the filter keeps it exactly when it is in the catalogue with that category |
| Shop.FilteredProductsView | src/app/shop/page.tsx:216-219 | "all" shows every product; another tab shows exactly that category, in catalogue order |
| Shop.ProductNameLocalized | src/app/shop/page.tsx:208-214 | a product's name is the translated name when truthy, else the base name |
| Shop.ShopPage.constructor | src/app/shop/page.tsx:195-206 | the "all" tab, an empty cart, no broken images |
| Shop.ShopPage.AddToCartClicked | src/app/shop/page.tsx:221-238 | the cart becomes the added cart and stays well formed; tab and image marks unchanged |
| Shop.ShopPage.RemoveFromCartClicked | src/app/shop/page.tsx:240-251 | the cart becomes the reduced cart and stays well formed; tab and image marks unchanged |
| Shop.ShopPage.SetActiveCategory | src/app/shop/page.tsx:316 | the tab changes and nothing else |
| Shop.ShopPage.HandleImageError | src/app/shop/page.tsx:257-259 | the product is marked as having a broken image, nothing else changes |
| Shop.ShopPage.Total | src/app/shop/page.tsx:253-255 | an empty cart totals 0 |
| Shop.ShopPage.Shown | src/app/shop/page.tsx:216-219 | the view `filteredProducts` of the page's tab: the whole catalogue on the "all" tab, else exactly the products of the active category, in catalogue order |
| LanguageContext.ParseCode | src/contexts/LanguageContext.tsx:469 | only "en", "hi" and "np" name a language, and each names the language with that code |
| LanguageContext.CodeRoundTrip | src/contexts/LanguageContext.tsx:469-476 | the code written for a language reads back as that language |
| LanguageContext.Translate | src/contexts/LanguageContext.tsx:479-481 | `t(key)` is the current language's entry when present and non-empty, else the key |
| LanguageContext.TranslateNonEmpty | src/contexts/LanguageContext.tsx:479-481 | `t` never shows an empty text for a non-empty key |
| LanguageContext.NoEnglishFallback | src/contexts/LanguageContext.tsx:479-481 | a key missing from the current table shows raw even when English has it |
| LanguageContext.EnglishOnlyKeysShownRaw | src/contexts/LanguageContext.tsx:179-212 | the keys defined only in English show raw under Hindi and Nagpuri |
| LanguageContext.LocalizedKey | src/app/shop/page.tsx:209-213 | a mapped field reads its language-suffixed name; an unmapped one reads `undefined` |
| LanguageContext.Lookup | src/app/shop/page.tsx:213 | `item[key]` is undefined exactly when the key is absent |
| LanguageContext.LocalizedTextChoice | src/app/shop/page.tsx:208-214 | the translated field is used exactly when truthy, else the base field; the result is truthy when either is |
| LanguageContext.LocalizedTextEnglish | src/app/news/page.tsx:112-120 | in English the base field is read |
| LanguageContext.LanguageProvider.constructor | src/contexts/LanguageContext.tsx:465 | the language starts as English |
| LanguageContext.LanguageProvider.RestoreSaved | src/contexts/LanguageContext.tsx:467-472 | a saved value is restored only when it is one of the three codes |
| LanguageContext.LanguageProvider.SetLanguage | src/contexts/LanguageContext.tsx:474-477 | the language changes and its code is written under 'agrivision-language' |
| LanguageContext.LanguageProvider.T | src/contexts/LanguageContext.tsx:479-481 | `t` gives the current language's entry when it is present and non-empty, and the key otherwise |
| LanguageContext.SetThenRestore | src/contexts/LanguageContext.tsx:467-477 | a language that was set is the one a later mount restores |
| WeatherRoute.Names | src/app/api/weather/route.ts:101 | `Object.keys` lists the table's names in order |
| WeatherRoute.Search | src/app/api/weather/route.ts:93 | a name finds coordinates exactly when the table lists it, and they are that district's |
| WeatherRoute.NormalizePadded | src/app/api/weather/route.ts:92 | a district name in any case with white space around it normalizes to its lower-case key |
| WeatherRoute.PaddedRanchi | src/app/api/weather/route.ts:92-93 | " Ranchi " normalizes to 'ranchi' |
| WeatherRoute.RanchiCoordinates | src/app/api/weather/route.ts:52 | 'ranchi' finds 23.344315, 85.296013 |
| WeatherRoute.Index | src/app/api/weather/route.ts:93-95 | the own-key lookup succeeds exactly for the 25 district names and gives their coordinates |
| WeatherRoute.ConditionTable | src/app/api/weather/route.ts:120-126 | known codes read through the table, any other code reads "Unknown"; 45 and 48 both read "Foggy" |
| WeatherRoute.GetFrom | src/app/api/weather/route.ts:79-131 | 400 exactly without a location; 404 with the message and every district exactly when the normalized location is not one; otherwise the district's forecast, with the condition from the table, or 500 |
| WeatherRoute.AnswerOwnKeys | src/app/api/weather/route.ts:91-105 | the handler with the own-key lookup is the table handler |
| WeatherRoute.AvailableDistricts | src/app/api/weather/route.ts:101 | `availableDistricts` lists all 25 districts |
| WeatherRoute.InheritedKeysAreNotDistricts | src/app/api/weather/route.ts:51-77 | 'constructor' and '\_\_proto\_\_' are not districts |
| WeatherRoute.InheritedIndex | src/app/api/weather/route.ts:93-95 | an inherited key passes the lookup as written and fails the own-key lookup |
| WeatherRoute.InheritedKeyAsWritten | src/app/api/weather/route.ts:92-116 | as written, a location normalizing to an inherited key gets no 404 and the forecast is requested without coordinates |
| WeatherRoute.AnswerInherited | src/app/api/weather/route.ts:93-116 | an entry without coordinates is never a 404 and is answered from the request without coordinates |
| WeatherRoute.InheritedKeyNotFound | src/app/api/weather/route.ts:95-104 | with own keys only, such a location gets 404 |
| WeatherRoute.ConstructorLocation | src/app/api/weather/route.ts:92 | "Constructor" normalizes to the inherited key 'constructor' |
| UseAgriculturalNews.Resolve | src/lib/hooks/useAgriculturalNews.ts:24-30 | each option takes its default exactly when undefined |
| UseAgriculturalNews.Params | src/lib/hooks/useAgriculturalNews.ts:41-47 | the query has q, category, region, a `limit` that parses back to the limit, and `lang=en`, in that order |
| UseAgriculturalNews.DefaultDoesNotPoll | src/lib/hooks/useAgriculturalNews.ts:71-74 | with the default interval no polling is set up |
| UseAgriculturalNews.ArticlesOf | src/lib/hooks/useAgriculturalNews.ts:56-57 | the articles are `data.articles` when truthy, else the empty list; a failed read or a null body is an error |
| UseAgriculturalNews.NewsFeed.constructor | src/lib/hooks/useAgriculturalNews.ts:32-34 | no articles, loading, no error |
| UseAgriculturalNews.NewsFeed.Start | src/lib/hooks/useAgriculturalNews.ts:38-39 | each fetch starts with loading on and no error, articles kept |
| UseAgriculturalNews.NewsFeed.Settle | src/lib/hooks/useAgriculturalNews.ts:49-64 | success replaces the articles wholesale; a failure keeps them and sets the error (`details` or 'Failed to fetch news' for a non-OK reply); loading ends |
| UseAgriculturalNews.NewsFeed.FetchNews | src/lib/hooks/useAgriculturalNews.ts:36-65 | one fetch sends the parameters; success replaces the articles with no error; any failure keeps them with an error; loading ends |
| UseAgriculturalNews.NewsFeed.Mount | src/lib/hooks/useAgriculturalNews.ts:67-75 | mounting fetches once and polls exactly when the interval is positive |
| NewsPage.FormatDateBuckets | src/app/news/page.tsx:128-145 | minutes under an hour (future dates included), hours under a day, days under a week, else a calendar date; each count is the floor of the difference over its unit |
| NewsPage.FormatDateEdges | src/app/news/page.tsx:136-139 | exactly an hour is 1 hour; a minute ahead is -1 minutes |
| NewsPage.DescribeEdges | src/app/news/page.tsx:136-141 | those read "1 hours ago" and "-1 minutes ago" |
| NewsPage.NewsTextLocalized | src/app/news/page.tsx:112-120 | a mapped news field reads its translation when truthy, else the base field |
| ImageFile.CheckImage | src/app/register/page.tsx:40-54 | no file, then a type not starting "image/", then a size over the limit, else readable; each outcome exactly characterized |
| ImageFile.CheckImageLimits | src/app/profile/page.tsx:117-121 | the limit itself passes and one byte more fails; the limits are 5 MB and 2 MB |
| RegisterPage.Validate | src/app/register/page.tsx:74-82 | the mismatch is reported first, then a password under 6 characters; passing means matching and at least 6 |
| RegisterPage.ValidateOrder | src/app/register/page.tsx:74-82 | a short mismatched password is a mismatch; 6 matching characters pass, 5 do not |
| RegisterPage.SignupMessageKey | src/app/register/page.tsx:94-99 | `USER_ALREADY_EXISTS` gives userExists, any other code gives failed |
| RegisterPage.RegisterPayload | src/app/register/page.tsx:125-135 | the payload holds village, district, state and image each exactly when non-empty, with its value |
| RegisterPage.BuildUpdatePayload | src/app/register/page.tsx:125-135 | the conditional assignments build that payload |
| RegisterPage.RegisterPayloadAccepted | src/app/register/page.tsx:118-135 | the profile route accepts every payload the page sends, writes a non-empty update without the name, stores village trimmed and the image as sent |
| RegisterPage.Register.constructor | src/app/register/page.tsx:21-32 | the empty form with Jharkhand preset, no picture, not loading |
| RegisterPage.Register.ImageChanged | src/app/register/page.tsx:40-62 | for a file passing the 5 MB image check, the picture becomes what the reader produced: the data URL, or none after a read error (clearing an earlier picture); otherwise nothing changes |
| RegisterPage.Register.RemoveImage | src/app/register/page.tsx:64-69 | the picture is cleared |
| RegisterPage.Register.HandleRegister | src/app/register/page.tsx:71-159 | a failed check stops before sign-up; a sign-up throw or code ends loading with its message; a sign-in error sends to login; after sign-in the payload is sent exactly when there is something to send and a token is stored |
| ProfilePage.OrDefault | src/app/profile/page.tsx:85-89 | `value \|\| fallback` for an optional text |
| ProfilePage.FormOfProfile | src/app/profile/page.tsx:84-90 | present texts are copied, a missing state becomes "Jharkhand", an empty profile gives the initial form |
| ProfilePage.SavePayload | src/app/profile/page.tsx:211-216 | the save body holds the four edited texts trimmed, and neither the image nor the location |
| ProfilePage.SavePayloadValid | src/app/profile/page.tsx:195-216 | a save the page sends (non-blank name) passes every PUT check |
| ProfilePage.SavePayloadWritten | src/app/profile/page.tsx:211-216 | PUT stores exactly the four texts as sent and leaves the image alone |
| ProfilePage.ImagePayloadAccepted | src/app/profile/page.tsx:138 | a picture body passes the PUT checks and writes only the image, as sent (null removes it) |
| ProfilePage.Profile.constructor | src/app/profile/page.tsx:43-56 | no profile, the initial form, loading, not editing, saving or uploading |
| ProfilePage.Profile.ProfileFetched | src/app/profile/page.tsx:64-100 | without a stored token no request is made and only loading ends; otherwise a loaded profile is kept and fills the form, and any failure only ends loading |
| ProfilePage.Profile.Edit | src/app/profile/page.tsx:300 | editing starts, nothing else changes |
| ProfilePage.Profile.HandleCancel | src/app/profile/page.tsx:236-247 | the form is rebuilt from the profile if there is one, and editing ends |
| ProfilePage.Profile.HandleSave | src/app/profile/page.tsx:195-234 | a blank name sends nothing and changes nothing; otherwise the trimmed payload is sent, an update is kept and ends editing, and saving ends |
| ProfilePage.Profile.HandleImageUpload | src/app/profile/page.tsx:107-163 | a file failing the 2 MB image check sends nothing. Otherwise `onloadend` sends the reader's result: the data URL, or `{image: null}` after a read error, which removes the stored picture (uploading is already off then). An update is kept. Uploading ends after an OK or non-OK reply, but stays on when the request throws, as `onloadend` has no `catch` |
| ProfilePage.Profile.HandleImageUploadGuarded | src/app/profile/page.tsx:128-154 | the upload as evidently intended: after a read error nothing is sent, the picture is kept and uploading ends; any request it sends carries the data URL; all other paths as in `HandleImageUpload` |
| ProfilePage.ReadErrorClearsPicture | src/app/profile/page.tsx:128-154 | the `{image: null}` body sent after a read error passes the route's checks and sets the stored picture to null |
| ProfilePage.UploadKeepsPicture | src/app/profile/page.tsx:138 | a picture body carrying a data URL passes the route's checks and stores that data URL as the picture |
| ProfilePage.Profile.HandleRemoveImage | src/app/profile/page.tsx:165-193 | a null picture is sent, an update is kept, uploading ends |
| WeatherWidget.Authorization | src/components/WeatherWidget.tsx:57-62 | the header is "Bearer " and the token, or "Bearer null" without one |
| WeatherWidget.WeatherOutcome | src/components/WeatherWidget.tsx:86-92 | the weather is the body exactly when the reply is OK and readable. The errors are the rejection, the server's `message` (else 'Failed to fetch weather data') for a non-OK reply, or the body's read error |
| WeatherWidget.LocationOutcome | src/components/WeatherWidget.tsx:64-71 | a non-OK profile reply is 'Failed to fetch user profile' without reading the body; a null profile is the TypeError; otherwise `district` when truthy, else `location` |
| WeatherWidget.DistrictBeforeLocation | src/components/WeatherWidget.tsx:71 | a truthy district wins; without a district the location is used; with neither the result is falsy |
| WeatherWidget.Widget.constructor | src/components/WeatherWidget.tsx:25-28 | no weather, no location, loading, no error |
| WeatherWidget.Widget.ShowWeather | src/components/WeatherWidget.tsx:86-92 | the weather outcome becomes the weather or the error |
| WeatherWidget.Widget.FetchWeather | src/components/WeatherWidget.tsx:31-98 | a district prop is the location and the only request. Otherwise the profile is requested with the stored token. A profile failure, or no district and no location, sets the error and requests no weather. Otherwise the location is shown and its weather requested. Loading ends on every path |

## Left out

**Outside the process**
- Network, authentication and database calls are not executed. `fetch`, better-auth's sign-up, sign-in and session, and the drizzle queries appear as their outcomes (replies, the session id, the user table as a map).
- The 500 reply for a database or session failure in the profile route is left out, and so is the profile update's own network failure after registration; neither has a checkable rule.
- The UI is left out: JSX rendering, toasts, router redirects, the location dialog, dialogs and styling.
  - The weather widget's render and its refresh button are included in this.
  - So are the shop's listing form and cart dialog.
- Timers and concurrency are left out:
  - the news hook's interval and its cleanup;
  - the register page's 500 ms wait;
  - the race between the offline hook's `loadData` and `refresh`;
  - the time the `FileReader` takes; its outcome (a data URL or a read error) is a parameter;
  - chunk boundaries that split a line of the chat stream. A chunk is decoded line by line as it arrives, as the source does.
- `JSON.parse`/`JSON.stringify` are an abstract codec, and `TextDecoder` is left out (chunks arrive as text).
- `URLSearchParams` and `encodeURIComponent` escaping are left out. The parameters are modelled as name/value pairs, and the weather request as the location it names.

**Values and text**
- Floating point is left out: the weather route's `Math.round(x*10)/10` for temperature and wind, and fractional coordinates. Coordinates are millionths of a degree. The JSON numbers the model handles are integers, and `Number` of a string reads decimal integer literals only: fractions, exponents, `0x`/`0o`/`0b` prefixes and `Infinity` are not modelled.
- The weather codes' icons are left out. Their emoji are stored in the source file as mis-encoded bytes.
- Locale date formatting (`toLocaleDateString`) is left out. A date seven or more days old is modelled as the calendar time only.
- Text is sequences of characters:
  - lengths are character counts, not UTF-16 units;
  - `toLowerCase` lowers ASCII letters only;
  - `parseInt` handles decimal text with an optional minus sign, not hexadecimal prefixes.
- The error texts 'Unknown error' (news hook) and 'Error fetching weather' (weather widget) are not modelled. They are used only for a thrown value that is not an `Error`, and every throw on those paths is one.
- The profile page reads the profile's fields as optional texts, as its `UserProfile` type declares. A non-string value from the server is not modelled there.

**Behaviour of the code that a reader might not expect (the model follows the code)**
- Offline with a stale cache entry, the offline hook shows no data and raises no error; the stale value is not shown as a fallback.
- The chat reader replaces the assistant message after every non-blank line, even when that line added no text, so an assistant message with empty content can appear.

**Other files**
- The rest of the repository is not part of this model: the services, market, crop-analysis, soil-scanner, kisan-call, dashboard and login pages, the news and chat API routes, middleware, layout and type files. These are static tables, UI, or thin proxies.

**Contracts stated weaker**
- Shop.ShopPage.Total: its own contract states only the empty-cart total. The sum and how adding changes it are stated by `Shop.TotalUpdate` and `Shop.AddRaisesTotal` about the function it reads.

## Findings

| source | as written | input that shows it | evidently intended | confidence | as-written member | corrected member |
|---|---|---|---|---|---|---|
| src/app/api/weather/route.ts:92-105 | the district lookup indexes a plain object, so the inherited `constructor` and `__proto__` members pass the `!coords` test; the forecast is then requested with `latitude=undefined` instead of answering 404 | `location=Constructor` (or `__proto__`) | 404 "District not found" for every name that is not a district | not executed | WeatherRoute.InheritedKeyAsWritten | WeatherRoute.InheritedKeyNotFound |
| src/app/profile/page.tsx:128-154 | `onloadend` fires after a failed read as well, after `onerror` has already shown the error; it sends `reader.result`, which is null then, as the new picture, so the PUT stores `image: null` and the user's current picture is removed | a picture under 2 MB whose read fails | a failed read sends nothing and the current picture is kept | not executed | ProfilePage.ReadErrorClearsPicture | ProfilePage.Profile.HandleImageUploadGuarded |
