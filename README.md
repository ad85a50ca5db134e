# Mahjong daily fortune: a Dafny model

The fortune page shows a daily mahjong "fortune". A serverless endpoint (`fortune.js`) picks that day's lucky tile and lucky yaku (scoring hand). It hashes the date string and indexes two fixed tables with the hash. It asks a text-generation service for a short fortune and a tip, strips Markdown code fences from the generated text and returns one record. The browser script (`script.js`) keeps a per-user, per-day copy of that record in `localStorage`. It shows the cached copy without asking the endpoint again. It only builds the share text when a cached fortune exists.

The project models the deterministic part of both files:

- `js.dfy` (module `Js`) covers the JavaScript semantics the code uses:
  - ToInt32 and ToUint32, `<<`, and `&`, which is computed bit by bit;
  - the truncating `%` and `Math.abs`;
  - UTF-16 code units (what `charCodeAt` reads);
  - `String.prototype.trim` with ECMAScript's full white-space set.
- `fortune.dfy` (module `Fortune`) covers fortune.js:
  - `hashCode`, a method with a loop, proved equal to the polynomial Σ u[i]·31^(n-1-i) over the code units, truncated to int32 (Java's `String.hashCode`);
  - tile and yaku selection;
  - the two global fence `replace`s between two `trim`s;
  - the response record and the `Cache-Control` lifetime.
- `page.dfy` (module `Page`) covers script.js:
  - `localStorage` as a `map` field of the class `Client`, which also holds the panels shown, the user ids sent to the endpoint and the alerts raised;
  - methods for `getUserId`, `getTodaysCachedFortune`, `cacheFortune`, `loadFortune` and `shareFortune`;
  - each method's new state given by a function of the old state (`ResolveUserId`, `LookupCached`, `StoreFortune`), with lemmas about those functions.
- `wrappers.dfy` holds `Option`.

Inputs that the code takes from the environment are parameters:
- the date string;
- today's `YYYY-MM-DD`;
- `Date.now()` and the random part of a new user id;
- the endpoint's answer;
- the parsed generated object;
- the millisecond values of now and of the next midnight.

fortune.js asks exactly one model (`gemini-pro`) exactly once.

## Model

| member | source | states |
|---|---|---|
| `Js.ToInt32` | fortune.js:138 | the result is a signed 32-bit integer congruent to the argument modulo 2^32 |
| `Js.ShiftLeft` | fortune.js:137 | `x << n` is always a signed 32-bit value |
| `Js.BitAnd` | fortune.js:138 | `a & b` is always a signed 32-bit value |
| `Js.SelfAnd` | fortune.js:138 | `x & x` equals ToInt32(x), so `hash = hash & hash` truncates to int32 |
| `Js.AndBitsSelf` | fortune.js:138 | ANDing a k-bit value bit by bit with itself gives the value back |
| `Js.ToInt32Congruent` | fortune.js:137-138 | arguments congruent modulo 2^32 truncate to the same int32, so truncating early (in `hash << 5`) does not change the result |
| `Js.Int32Unique` | fortune.js:137-138 | two int32 values congruent modulo 2^32 are equal |
| `Js.Rem` | fortune.js:40-41 | `%` takes the sign of the dividend; on a non-negative dividend it lies in [0, n) and agrees with the mathematical remainder |
| `Js.Abs` | fortune.js:40-41 | `Math.abs` is non-negative and is x or -x |
| `Js.CodeUnits` | fortune.js:136 | a string's UTF-16 code units are each below 0x10000, and there are between one and two per character |
| `Js.BmpCodeUnits` | fortune.js:136 | for text inside the Basic Multilingual Plane, `charCodeAt(i)` is the code of the i-th character |
| `Js.TrimStart` | fortune.js:99 | the result is the suffix left after the leading white space, and it does not start with white space |
| `Js.TrimEnd` | fortune.js:99 | the result is the prefix before the trailing white space, and it does not end with white space |
| `Js.Trim` | fortune.js:99 | `trim` gives a string with no white space at either end |
| `Js.TrimPadded` | fortune.js:99-100 | `trim` removes exactly the white space around a trimmed core |
| `Js.TrimIdempotent` | fortune.js:100 | trimming twice is the same as trimming once |
| `Fortune.PolynomialSnoc` | fortune.js:135-139 | appending a code unit c turns the polynomial p into 31·p + c |
| `Fortune.HashStep` | fortune.js:137-138 | one loop turn, `((hash << 5) - hash) + char` then `hash & hash`, maps the truncation of p to the truncation of 31·p + char |
| `Fortune.HashCode` | fortune.js:133-141 | `hashCode` returns a signed 32-bit value equal to Σ u[i]·31^(n-1-i) over the code units, truncated to int32; the loop invariant keeps `hash` an int32 after every step |
| `Fortune.StringHash` | fortune.js:133-141 | the hash as a function is always a signed 32-bit value |
| `Fortune.HashOfEmpty` | fortune.js:134-140 | `hashCode("")` is 0 |
| `Fortune.TileIndex` | fortune.js:40 | `Math.abs(seed) % tiles.length` lies in [0, 34) and is congruent to abs(seed) modulo 34, so the lookup is in bounds |
| `Fortune.YakuIndex` | fortune.js:41 | `Math.abs(seed * 2) % yakus.length` lies in [0, 17) and is congruent to abs(2·seed) modulo 17 |
| `Fortune.LuckyTile` | fortune.js:24-40 | the lucky tile is an entry of the 34-tile table |
| `Fortune.LuckyYaku` | fortune.js:32-41 | the lucky yaku is an entry of the 17-yaku table |
| `Fortune.ExampleOctober` | fortune.js:19-41 | the date string "2026-10-14" hashes to 1162559494 and selects the tile 2삭 and the yaku 이페코 |
| `Fortune.ExampleNewYear` | fortune.js:19-41 | "2024-1-1" hashes to the negative value -1922422968; `Math.abs` turns it into the tile 1만 and the yaku 리치 |
| `Fortune.RemoveFences` | fortune.js:100 | a global `replace(/tag\n?/g, '')` never lengthens the text and adds no character |
| `Fortune.RemoveFencesPlain` | fortune.js:100 | text without a backtick passes the fence removal unchanged |
| `Fortune.RemoveFencesPrefix` | fortune.js:100 | a backtick-free prefix is copied through, and the scan continues after it |
| `Fortune.StripFences` | fortune.js:99-100 | the cleaned text has no white space at either end and is no longer than the input |
| `Fortune.StripPlainText` | fortune.js:99-100 | text without backticks is only trimmed |
| `Fortune.StripFencedBlock` | fortune.js:98-100 | a reply wrapped in a json code fence (three backticks and "json", a line feed, the body, three backticks), with any white space around it, gives the trimmed body when the body has no backtick |
| `Fortune.BuildResult` | fortune.js:105-111 | the response carries the selected tile, the selected yaku and the date string, plus the parsed fortune and tip unchanged |
| `Fortune.SameDaySameLuck` | fortune.js:19-41 | two responses for the same date string have the same tile, yaku and date, whatever text was generated |
| `Fortune.CacheSeconds` | fortune.js:117 | the lifetime r is ⌊(midnight − now)/1000⌋, that is r·1000 ≤ midnight − now < r·1000 + 1000 |
| `Fortune.CacheSecondsBounds` | fortune.js:114-117 | when the next midnight is at most a day ahead, the lifetime is between 0 and 86400 seconds |
| `Page.NewUserId` | script.js:26 | a generated user id starts with `user_` and is not empty |
| `Page.Decimal` | script.js:26 | `Date.now()` is written as a non-empty string of decimal digits |
| `Page.ResolveUserId` | script.js:21-34 | a stored, non-empty id is returned and the storage is untouched; otherwise the new id is returned and stored; no other key changes |
| `Page.LookupCached` | script.js:37-54 | the lookup changes no key except the user id |
| `Page.StoreFortune` | script.js:57-66 | the fortune key then holds the record for today, the current user id and the data |
| `Page.UserIdStable` | script.js:21-34 | after `getUserId` the id is stored, and every later call returns the same id without changing the storage |
| `Page.LookupHitIff` | script.js:41-47 | the cached fortune is returned exactly when the stored record parses, is dated today and has the current user's id; it is then the record's fortune, and otherwise the result is null |
| `Page.MalformedRecordIsNull` | script.js:42-50 | a stored value that is not a cache record gives null and leaves the storage unchanged |
| `Page.StaleRecordIsNull` | script.js:44-53 | a record from another day gives null and leaves the storage unchanged |
| `Page.CacheRoundTrip` | script.js:57-64 | `cacheFortune(f)` followed by `getTodaysCachedFortune()` on the same day returns f |
| `Page.StoreFortuneFrame` | script.js:59-64 | `cacheFortune` writes only the fortune key and, when no id was stored, the user-id key; an existing id is kept |
| `Page.Client.GetUserId` | script.js:21-34 | returns the id and leaves the storage as `ResolveUserId` describes, and the id is stored afterwards |
| `Page.Client.GetTodaysCachedFortune` | script.js:37-54 | returns what `LookupCached` returns and leaves the storage as it describes; the id is looked up only for a record dated today |
| `Page.Client.CacheFortune` | script.js:57-66 | leaves the storage as `StoreFortune` describes |
| `Page.Client.LoadFortune` | script.js:69-116 | on a cache hit: shows the cached fortune, sends no request and stops; otherwise: sends one request with the user id, then shows and caches the answer, or shows the error panel |
| `Page.Client.ShareFortune` | script.js:129-135 | with no cached fortune: alerts once and shares nothing; otherwise: goes on with the cached fortune and raises no alert before the share step |
| `Page.LoadTwice` | script.js:80-88 | two loads on the same day send exactly one request, and the second load shows the first answer from the cache |

## Left out

- The HTTP handler plumbing of fortune.js is not modelled: CORS headers, the OPTIONS branch, the missing-key check and the mapping to status codes. It holds no logic beyond routing.
- api/fortune.js is a stub that returns fixed values, so it is not modelled.
- The call to the text-generation service and the shape of its answer (`data.candidates[0]…`) are not modelled, because they are a network call.
- `JSON.parse` of the cleaned text is not modelled. Its result is the parameter `Generated`, with `fortune` and `tip` as optional strings.
- Fortune.Generated: a field the parsed object holds that is not a string (a number, an object) is not represented.
- Dates are parameters, with no clock or timezone behaviour. This covers `new Date()`, the `${year}-${month}-${day}` string, `toISOString().split('T')[0]` and the local-midnight computation. `CacheSeconds` takes the two millisecond values.
- `Date.now()` and `Math.random().toString(36).substr(2, 9)` are parameters, because they are a clock and randomness. `LoadFortune` passes one pair of them to each `getUserId` call it makes. Only the first call that finds no id uses them.
- Page.Value: stored strings are not JSON text. `Record(r)` stands for the text that `JSON.stringify` writes for a cache record, and `Text(s)` for any other string. A hand-written string that `JSON.parse` reads as a matching record is therefore not represented; it reads as null. The helper `ParseRecord` only reads this representation back.
- Page.WellFormed: the model assumes the user-id key holds a plain string rather than a cache record's JSON text, because only `getUserId` writes that key.
- Storage failures are not modelled: in the model `getItem` and `setItem` always succeed. In the browser they can throw (storage disabled, quota full; script.js:22, 27, 39, 64). A throw at script.js:39 is outside any `try` and escapes `loadFortune` with the loading panel still shown. A throw inside the `try` shows the error panel.
- Page.Client.LoadFortune: one `today` is used for both the lookup and the store. The source reads the clock again at script.js:58, after the awaits at script.js:93 and 99. A UTC day change during the fetch would store the record under the next day, which the model does not capture.
- Page.Response: an `Ok` answer always carries a `FortuneResult`. A 2xx body of another shape is not represented, such as the `{error, debug}` object api/fortune.js:16-19 returns with status 200. Neither is a falsy JSON body, which would be cached and then treated as a miss by `if (cachedFortune)` at script.js:82. Neither is a `null` body, which would make `displayFortune` throw at script.js:120.
- Js.CodeUnits: Dafny strings hold Unicode scalar values, so a JavaScript string with a lone surrogate cannot be represented. This also limits `Trim`, `RemoveFences` and `StripFences` to well-formed text.
- The DOM is reduced to the three panel flags and the fortune last shown. The four `textContent` writes of `displayFortune` and `displayCurrentDate` are not modelled, and neither is the query string's URL encoding.
- Page.Client.ShareFortune stops where the cached fortune is handed on. The share-text layout, the clipboard, the `execCommand` fallback and the success alerts are UI, so they are not modelled.
- `console.log` and `console.error` calls are not modelled, because they are logging only.
- The event wiring (`DOMContentLoaded`) is not modelled.
- Floating point is not modelled. JavaScript numbers are doubles, but every value `hashCode` and the index arithmetic produce stays well below 2^53, so integer arithmetic is exact for them.
