# Lyrics translator: a verified model

This project models the core of an extension for a music player. The extension gathers lyrics
from the player's other extensions and translates them. The model is written in Dafny and covers
four parts:

- **Chunking and translation** (`chunking.dfy`, `translation.dfy`). `splitIntoChunks` splits the
  lines into groups, one translation request each. Its greedy pass aims to keep each group's
  `'\n'`-join within 1800 UTF-16 code units, and it then rebalances the last two groups; a group
  can still exceed the limit, as described below. `translateList` consults the cache, normalises newlines,
  translates every chunk, checks the line count and zips the lines with their translations. The
  three `translate` functions rebuild a lyrics body from the resulting map.
- **`TimeBasedLRUCache`** (`lru_cache.dfy`). A class whose `map` field is updated in place by
  `get` (which renews the access time), `put` (which evicts an oldest entry when full),
  `contains`, `remove`, `clear` and `size`. `Valid()` says that access times lie before the
  logical clock and are pairwise distinct.
- **Aggregation** (`aggregator.dfy`). Covers `selectedLanguage`, the providers that contribute
  to `getAllLyrics` and the preference ordering, and the dispatch of `loadLyrics`.
- **Tagging helpers** (`tag_helpers.dfy`, `hash_tag_helpers.dfy`). Cover `findAll`, `listOf`,
  `updateMetadata` and `getIdFromLyric` in both variants. The `findAll` and `listOf` of
  `helpers/Other.kt` (lines 6-11) have the same text as those of `lyricsTranslator/helpers/Other.kt`,
  so they are modelled once, by `TagHelpers.FindAll` and `TagHelpers.ListOf`.

`kotlin_std.dfy` models the Kotlin library calls the core relies on (`joinToString`, `split`,
`replace`, `zip`/`toMap`, `flatten`, `lowercase`, `Int.toString`). `models.dfy` holds the host
types, and `wrappers.dfy` holds `Option` and `Result`.

Each procedure that loops or changes state is a `method`, proved equal to a specification
function: `ChunksOf`, `ListOutcomeOf`, `TimedOutcome`, `SimpleOutcome`, `LyricsOutcome`,
`AllLyrics` and `LoadOutcome`. The properties the source promises are lemmas about those
functions.

Modelling choices:

- An exception is an `Err`, or the `Thrown` outcome of `translateList`, carrying its message.
- The translation backend is a parameter `Translator`: `None` stands for a failed or empty
  answer.
- `String.hashCode` is a parameter `hash`.
- `Date()` is a logical clock that ticks on every read.
- A Kotlin string is a sequence of UTF-16 code units. Dafny's `string` is a sequence of Unicode
  characters, so `KotlinStd.Utf16` gives each character its code units and `KotlinStd.Length`
  counts them, as `String.length` does: a character outside the Basic Multilingual Plane counts
  twice. A Kotlin string with an unpaired surrogate has no Dafny counterpart, so only
  well-formed UTF-16 strings are modelled. The chunking limits use `Length`, and `findAll` works on code units.
- `TranslateList` returns, as a ghost output, the texts it sends to the backend, one per chunk.

The model follows the code in these points, where the code does less than its purpose suggests:

- A failed translation is not replaced by the untranslated text. Both `translate` functions
  call `translateList` with `hardFail = true`, so a failed chunk or a count mismatch throws, and
  neither `translate` nor `loadLyrics` catches it. The model returns that error.
- The chunks are not always within 1800 code units. The greedy pass keeps every chunk of two or
  more lines within the limit; a single line longer than the limit becomes a chunk of its own
  and exceeds it (`Chunking.LongLineIsAlone`). Rebalancing checks the limit only for the first
  of the two rebuilt chunks, so the second can exceed it: `Chunking.RebalancedLastChunkMayExceed`
  gives a seven-line input on which `splitIntoChunks` returns such a chunk. The model keeps the
  code's behaviour.
- The greedy pass charges a line that starts a new chunk the separator it was charged before
  the flush (`currentLength = itemLength` keeps the +1), so later chunks are held to 1799
  code units. The model keeps this as written.
- The `Chunking failed` check (Translation.kt line 66) can never fire.
  `Translation.ChunkingKeepsCount` proves it, so `TranslateList` asserts the count where the
  source tests it.

## Model

| member | source | states |
|---|---|---|
| KotlinStd.SplitLines | ext/src/main/java/dev/brahmkshatriya/echo/extension/lyricsTranslator/helpers/Translation.kt:90 | `split("\n")` gives one piece more than the text has newlines, and no piece holds a newline |
| KotlinStd.SplitJoinLines | ext/src/main/java/dev/brahmkshatriya/echo/extension/lyricsTranslator/helpers/Translation.kt:77-90 | splitting the `'\n'`-join of a non-empty list of newline-free lines on `'\n'` gives the list back |
| KotlinStd.JoinLinesLength | ext/src/main/java/dev/brahmkshatriya/echo/extension/lyricsTranslator/helpers/Translation.kt:123 | the length of the `'\n'`-join is the sum of the lengths plus one per separator, which is what `totalLength` computes |
| KotlinStd.SumLengths | ext/src/main/java/dev/brahmkshatriya/echo/extension/lyricsTranslator/helpers/Translation.kt:123 | `sumOf { it.length }` is at least the length of each line |
| KotlinStd.Length | ext/src/main/java/dev/brahmkshatriya/echo/extension/lyricsTranslator/helpers/Translation.kt:123 | definition: `String.length`, the number of UTF-16 code units; its properties are in `LengthCounts` and `LengthAppend` |
| KotlinStd.Units | ext/src/main/java/dev/brahmkshatriya/echo/extension/lyricsTranslator/helpers/Translation.kt:123 | a character inside the BMP is one code unit, its own value; one outside is a high surrogate followed by a low surrogate |
| KotlinStd.LengthCounts | ext/src/main/java/dev/brahmkshatriya/echo/extension/lyricsTranslator/helpers/Translation.kt:123 | a string's length lies between its character count and twice it, and equals it, unit for character, when no character is outside the BMP |
| KotlinStd.AstralLength | ext/src/main/java/dev/brahmkshatriya/echo/extension/lyricsTranslator/helpers/Translation.kt:123 | a single character outside the BMP has length 2 |
| KotlinStd.LengthAppend | ext/src/main/java/dev/brahmkshatriya/echo/extension/lyricsTranslator/helpers/Translation.kt:123 | the length of a concatenation is the sum of the lengths |
| KotlinStd.JoinLines | ext/src/main/java/dev/brahmkshatriya/echo/extension/lyricsTranslator/helpers/Translation.kt:77 | definition: `joinToString("\n")`, one newline between neighbours; `SplitJoinLines` and `JoinLinesLength` state its properties |
| KotlinStd.Flatten | ext/src/main/java/dev/brahmkshatriya/echo/extension/lyricsTranslator/helpers/Translation.kt:100 | definition: `flatten()`, the lists one after the other; `FlattenAppend` and `FlattenMember` state its properties |
| KotlinStd.FlattenAppend | ext/src/main/java/dev/brahmkshatriya/echo/extension/lyricsTranslator/helpers/Translation.kt:100 | flattening distributes over concatenation |
| KotlinStd.FlattenMember | ext/src/main/java/dev/brahmkshatriya/echo/extension/lyricsTranslator/helpers/Translation.kt:100 | every element of every list is in the flattened list |
| KotlinStd.Lowercase | ext/src/main/java/dev/brahmkshatriya/echo/extension/LyricsTranslator.kt:137-143 | `lowercase()` keeps the length, maps each ASCII capital to its small letter and keeps every other character |
| KotlinStd.DecimalString | ext/src/main/java/dev/brahmkshatriya/echo/extension/lyricsTranslator/helpers/Translation.kt:56 | `Int.toString()` is non-empty, starts with `-` exactly for a negative value, and is otherwise digits |
| KotlinStd.DecimalStringInjective | ext/src/main/java/dev/brahmkshatriya/echo/extension/lyricsTranslator/helpers/Translation.kt:56 | two integers print alike exactly when they are equal |
| KotlinStd.ReplaceNewlines | ext/src/main/java/dev/brahmkshatriya/echo/extension/lyricsTranslator/helpers/Translation.kt:65 | `replace("\n", " ")` keeps the length, turns each newline into a space, keeps every other character, and leaves no newline |
| KotlinStd.ZipToMap | ext/src/main/java/dev/brahmkshatriya/echo/extension/lyricsTranslator/helpers/Translation.kt:110 | `zip(...).toMap()`: every line paired within the shorter length is a key, and every key is a line at a position below the shorter length |
| KotlinStd.ZipToMapAt | ext/src/main/java/dev/brahmkshatriya/echo/extension/lyricsTranslator/helpers/Translation.kt:110 | a paired line's value is the one at its last position, so a later duplicate wins |
| Chunking.SplitIntoChunks | ext/src/main/java/dev/brahmkshatriya/echo/extension/lyricsTranslator/helpers/Translation.kt:117-174 | the procedure returns the specification `ChunksOf`, its chunks concatenate to the input, and an input whose join fits in 1800 code units is one chunk |
| Chunking.TotalLength | ext/src/main/java/dev/brahmkshatriya/echo/extension/lyricsTranslator/helpers/Translation.kt:123 | `sumOf { it.length } + (size - 1)` is the length of the `'\n'`-join of the lines, and -1 for no lines |
| Chunking.GreedyPass | ext/src/main/java/dev/brahmkshatriya/echo/extension/lyricsTranslator/helpers/Translation.kt:118-144 | the loop with `currentChunk`/`currentLength` computes the greedy partition `Greedy` |
| Chunking.GreedyFrom | ext/src/main/java/dev/brahmkshatriya/echo/extension/lyricsTranslator/helpers/Translation.kt:128-144 | from a loop state the pass ends with no fewer chunks than it has emitted and at most one more per pending or coming line, and adds one exactly when a line is pending or to come |
| Chunking.BalanceLastTwo | ext/src/main/java/dev/brahmkshatriya/echo/extension/lyricsTranslator/helpers/Translation.kt:146-171 | the second pass, with its `splitIndex` loop and `break`, computes `Rebalance` |
| Chunking.SplitIndex | ext/src/main/java/dev/brahmkshatriya/echo/extension/lyricsTranslator/helpers/Translation.kt:153-164 | the split position lies within the combined chunk |
| Chunking.SplitIndexFrom | ext/src/main/java/dev/brahmkshatriya/echo/extension/lyricsTranslator/helpers/Translation.kt:157-164 | the loop ends at 0 when it runs through, or else at a position from its start up to before the end; started at or before the half it stops at or before the half |
| Chunking.SplitIndexFromBounds | ext/src/main/java/dev/brahmkshatriya/echo/extension/lyricsTranslator/helpers/Translation.kt:157-164 | starting before the half, the split position is at least 1, at most the half, and the part before it fits in 1800 code units |
| Chunking.RebalanceSplitBounds | ext/src/main/java/dev/brahmkshatriya/echo/extension/lyricsTranslator/helpers/Translation.kt:153-164 | when the first of the two chunks fits, the split keeps at least one line and at most half the lines before it, and that part fits |
| Chunking.GreedyFromFlatten | ext/src/main/java/dev/brahmkshatriya/echo/extension/lyricsTranslator/helpers/Translation.kt:128-144 | the greedy pass loses, duplicates and reorders no line |
| Chunking.GreedyFromChunks | ext/src/main/java/dev/brahmkshatriya/echo/extension/lyricsTranslator/helpers/Translation.kt:128-144 | from a well-formed loop state the greedy pass yields only non-empty chunks whose join fits unless they are a single line |
| Chunking.GreedyChunks | ext/src/main/java/dev/brahmkshatriya/echo/extension/lyricsTranslator/helpers/Translation.kt:128-144 | every greedy chunk is non-empty, and one with two or more lines has a join of at most 1800 code units |
| Chunking.LongLineIsAlone | ext/src/main/java/dev/brahmkshatriya/echo/extension/lyricsTranslator/helpers/Translation.kt:128-140 | a line longer than 1800 code units forms a chunk of its own |
| Chunking.RebalanceProperties | ext/src/main/java/dev/brahmkshatriya/echo/extension/lyricsTranslator/helpers/Translation.kt:147-171 | the chunk count never changes; without the `last.size < secondLast.size / 3` condition nothing changes; with it the earlier chunks stay, the last two become `combined[..k]` and `combined[k..]`, both non-empty, the first fitting and no longer than the second |
| Chunking.ChunksOfPartition | ext/src/main/java/dev/brahmkshatriya/echo/extension/lyricsTranslator/helpers/Translation.kt:117-174 | concatenating the chunks in order gives the input |
| Chunking.ChunksOfShape | ext/src/main/java/dev/brahmkshatriya/echo/extension/lyricsTranslator/helpers/Translation.kt:117-174 | for a non-empty input every chunk is non-empty and within the limit unless it is a lone line, except a last chunk that rebalancing rebuilt |
| Chunking.RebalancedLastChunkMayExceed | ext/src/main/java/dev/brahmkshatriya/echo/extension/lyricsTranslator/helpers/Translation.kt:117-171 | for six lines of 290 code units then one of 1700, the greedy pass gives six lines and one, and `splitIntoChunks` returns three lines and four, whose join is 2573 code units, above the limit |
| LRUCache.TimeBasedLRUCache.constructor | ext/src/main/java/dev/brahmkshatriya/echo/extension/lyricsTranslator/helpers/TimeBasedLRUCache.kt:14-15 | a new cache is empty |
| LRUCache.TimeBasedLRUCache.Now | ext/src/main/java/dev/brahmkshatriya/echo/extension/lyricsTranslator/helpers/TimeBasedLRUCache.kt:28 | `Date()` gives a time later than every earlier one |
| LRUCache.TimeBasedLRUCache.Get | ext/src/main/java/dev/brahmkshatriya/echo/extension/lyricsTranslator/helpers/TimeBasedLRUCache.kt:24-31 | an absent key gives none and changes nothing; a present key gives its value and only its access time is renewed to the newest |
| LRUCache.TimeBasedLRUCache.Put | ext/src/main/java/dev/brahmkshatriya/echo/extension/lyricsTranslator/helpers/TimeBasedLRUCache.kt:40-50 | the entry is stored with the newest time, at most one oldest entry is evicted when the size exceeds `maxSize`, with `maxSize >= 1` the new entry stays, and the size bound is kept |
| LRUCache.TimeBasedLRUCache.OldestKey | ext/src/main/java/dev/brahmkshatriya/echo/extension/lyricsTranslator/helpers/TimeBasedLRUCache.kt:46 | `minByOrNull` finds a key with the smallest access time |
| LRUCache.TimeBasedLRUCache.Contains | ext/src/main/java/dev/brahmkshatriya/echo/extension/lyricsTranslator/helpers/TimeBasedLRUCache.kt:58-62 | true exactly when the key is present |
| LRUCache.TimeBasedLRUCache.Remove | ext/src/main/java/dev/brahmkshatriya/echo/extension/lyricsTranslator/helpers/TimeBasedLRUCache.kt:70-74 | returns the old value or none and deletes only that key |
| LRUCache.TimeBasedLRUCache.Clear | ext/src/main/java/dev/brahmkshatriya/echo/extension/lyricsTranslator/helpers/TimeBasedLRUCache.kt:79-83 | the cache becomes empty |
| LRUCache.TimeBasedLRUCache.Size | ext/src/main/java/dev/brahmkshatriya/echo/extension/lyricsTranslator/helpers/TimeBasedLRUCache.kt:88-92 | the number of keys |
| LRUCache.PutKeepsNewEntry | ext/src/main/java/dev/brahmkshatriya/echo/extension/lyricsTranslator/helpers/TimeBasedLRUCache.kt:40-48 | with room for one entry and a strict clock, `put(k, v)` keeps `k` with `v`, so a following `get(k)` gives `v` |
| LRUCache.PutRespectsCapacity | ext/src/main/java/dev/brahmkshatriya/echo/extension/lyricsTranslator/helpers/TimeBasedLRUCache.kt:44-48 | a cache within `maxSize` stays within it after `put` |
| LRUCache.PutEvictsExactlyOne | ext/src/main/java/dev/brahmkshatriya/echo/extension/lyricsTranslator/helpers/TimeBasedLRUCache.kt:45-48 | an eviction removes exactly one entry, an oldest one, and changes no other |
| LRUCache.TouchedSurvivesNextPut | ext/src/main/java/dev/brahmkshatriya/echo/extension/lyricsTranslator/helpers/TimeBasedLRUCache.kt:24-48 | with room for two entries, an entry read by `get` survives the next `put` of another key |
| Translation.NewTranslationCache | ext/src/main/java/dev/brahmkshatriya/echo/extension/lyricsTranslator/helpers/Translation.kt:46 | the shared cache starts empty with capacity 1000 |
| Translation.Normalize | ext/src/main/java/dev/brahmkshatriya/echo/extension/lyricsTranslator/helpers/Translation.kt:65 | the normalised lines keep their count and lengths and hold no newline |
| Translation.CacheKey | ext/src/main/java/dev/brahmkshatriya/echo/extension/lyricsTranslator/helpers/Translation.kt:56 | the key is a decimal numeral: non-empty, digits after an optional leading `-` |
| Translation.CacheKeyIsHash | ext/src/main/java/dev/brahmkshatriya/echo/extension/lyricsTranslator/helpers/Translation.kt:56 | two lists share a key exactly when the hashes of their concatenations are equal, so lists with the same concatenation share one |
| Translation.SharedKey | ext/src/main/java/dev/brahmkshatriya/echo/extension/lyricsTranslator/helpers/Translation.kt:56-58 | `["ab", "c"]` and `["a", "bc"]` share a key whatever the hash, which is why a hit must also pass the all-keys check |
| Translation.Covers | ext/src/main/java/dev/brahmkshatriya/echo/extension/lyricsTranslator/helpers/Translation.kt:58 | definition: `list.all { m.containsKey(it) }`, every line is a key of the cached map |
| Translation.CachedHit | ext/src/main/java/dev/brahmkshatriya/echo/extension/lyricsTranslator/helpers/Translation.kt:56-58 | a hit is the map stored under the list's key and covers every line; a stored map under the key that covers every line is a hit |
| Translation.TranslateChunk | ext/src/main/java/dev/brahmkshatriya/echo/extension/lyricsTranslator/helpers/Translation.kt:77-90 | a chunk fails exactly when the backend gives no answer for its join; otherwise the answer splits into one piece more than it has newlines, none holding a newline |
| Translation.ChunkResults | ext/src/main/java/dev/brahmkshatriya/echo/extension/lyricsTranslator/helpers/Translation.kt:75-92 | one answer per chunk, in chunk order, each the backend's answer to that chunk's join |
| Translation.AnyFailed | ext/src/main/java/dev/brahmkshatriya/echo/extension/lyricsTranslator/helpers/Translation.kt:94 | some chunk has no answer exactly when dropping the missing answers loses one |
| Translation.FilterNotNull | ext/src/main/java/dev/brahmkshatriya/echo/extension/lyricsTranslator/helpers/Translation.kt:100 | `filterNotNull` keeps at most one value per result, exactly one each when no chunk failed, and then every answer in order |
| Translation.Failure | ext/src/main/java/dev/brahmkshatriya/echo/extension/lyricsTranslator/helpers/Translation.kt:94-108 | a failure throws exactly when `hardFail`, with its message, and gives `null` otherwise |
| Translation.TranslateList | ext/src/main/java/dev/brahmkshatriya/echo/extension/lyricsTranslator/helpers/Translation.kt:48-115 | returns the specification `ListOutcomeOf`; the new cache and clock are `ListCacheEffect`: an empty list touches nothing, a lookup renews the key's entry, and only a miss that succeeded writes the map under the key with the eviction rule of `put`; nothing is sent to the backend for an empty list or a covering hit, and on a miss one text per chunk, the chunk's join |
| Translation.Lookup | ext/src/main/java/dev/brahmkshatriya/echo/extension/lyricsTranslator/helpers/Translation.kt:56-62 | the lookup gives the cached map exactly when it covers every line, renews the entry it reads, and ticks the clock only on a hit |
| Translation.TranslateMiss | ext/src/main/java/dev/brahmkshatriya/echo/extension/lyricsTranslator/helpers/Translation.kt:64-110 | the miss path gives `MissOutcome`, and the texts sent to the backend are the joins of the chunks of the normalised lines, at least one for a non-empty list |
| Translation.RebuildTimed | ext/src/main/java/dev/brahmkshatriya/echo/extension/lyricsTranslator/helpers/Translation.kt:32-37 | the loop keeps the line count and every timing and looks each text up with the original text as fallback |
| Translation.TranslateTimed | ext/src/main/java/dev/brahmkshatriya/echo/extension/lyricsTranslator/helpers/Translation.kt:29-38 | returns the specification `TimedOutcome`; the cache and clock change as `translateList` of the line texts with `hardFail` changes them (`ListCacheEffect`) |
| Translation.TranslateSimple | ext/src/main/java/dev/brahmkshatriya/echo/extension/lyricsTranslator/helpers/Translation.kt:40-44 | returns the specification `SimpleOutcome`; the cache and clock change as `translateList` of the one text with `hardFail` changes them (`ListCacheEffect`) |
| Translation.TranslateLyrics | ext/src/main/java/dev/brahmkshatriya/echo/extension/lyricsTranslator/helpers/Translation.kt:12-27 | returns the specification `LyricsOutcome`; with no language, or a body that is neither timed nor simple, the cache and clock are unchanged; otherwise they change as `translateList` of the body's texts (`LyricsCacheEffect`) |
| Translation.ChunkingKeepsCount | ext/src/main/java/dev/brahmkshatriya/echo/extension/lyricsTranslator/helpers/Translation.kt:65-71 | the chunks concatenate to the normalised lines, so the `Chunking failed` check never fires |
| Translation.ChunkJoinSplits | ext/src/main/java/dev/brahmkshatriya/echo/extension/lyricsTranslator/helpers/Translation.kt:65-90 | each chunk's `'\n'`-join splits back into that chunk |
| Translation.EchoTranslatorSucceeds | ext/src/main/java/dev/brahmkshatriya/echo/extension/lyricsTranslator/helpers/Translation.kt:64-112 | when the backend answers each request with its input, a miss succeeds and maps each line to its normalised form |
| Translation.DoneCoversEveryLine | ext/src/main/java/dev/brahmkshatriya/echo/extension/lyricsTranslator/helpers/Translation.kt:53-112 | every map `translateList` returns, from the cache or from the backend, has a key for every input line |
| Translation.DoneOnMissIsZip | ext/src/main/java/dev/brahmkshatriya/echo/extension/lyricsTranslator/helpers/Translation.kt:100-112 | a map built on a miss has as many translated lines as input lines, keys only from the input, and each line's value at its last position |
| Translation.HardFailDecides | ext/src/main/java/dev/brahmkshatriya/echo/extension/lyricsTranslator/helpers/Translation.kt:66-108 | with `hardFail` no outcome is `null`, without it none throws |
| Translation.CoveringHitIsReturned | ext/src/main/java/dev/brahmkshatriya/echo/extension/lyricsTranslator/helpers/Translation.kt:56-62 | a cached map that covers every line is returned as it is, whatever the backend would answer |
| Translation.SecondCallHits | ext/src/main/java/dev/brahmkshatriya/echo/extension/lyricsTranslator/helpers/Translation.kt:56-111 | after a miss that succeeded and the `put` it makes, the next `translateList` of the same lines is a covering hit returning the same map, whatever the language, flag or backend; with `TranslateList` it sends no request |
| Translation.TimedKeepsTimings | ext/src/main/java/dev/brahmkshatriya/echo/extension/lyricsTranslator/helpers/Translation.kt:29-38 | a translated timed body has as many lines as before, each with its timings |
| Translation.TimedTextsTranslated | ext/src/main/java/dev/brahmkshatriya/echo/extension/lyricsTranslator/helpers/Translation.kt:29-38 | when the list is translated, each timed line's text becomes the map's entry for it |
| Translation.SimpleTextTranslated | ext/src/main/java/dev/brahmkshatriya/echo/extension/lyricsTranslator/helpers/Translation.kt:40-44 | when the list is translated, a simple body's text becomes the map's entry for it |
| Translation.LyricsTranslationKeepsMetadata | ext/src/main/java/dev/brahmkshatriya/echo/extension/lyricsTranslator/helpers/Translation.kt:12-27 | no language gives the input unchanged; otherwise id, title, subtitle and extras stay, the body keeps its kind, and other bodies are unchanged |
| TagHelpers.FindAllFrom | ext/src/main/java/dev/brahmkshatriya/echo/extension/lyricsTranslator/helpers/Other.kt:6-7 | the code-unit positions from `from` on holding the `Char`, strictly increasing |
| TagHelpers.FindAll | ext/src/main/java/dev/brahmkshatriya/echo/extension/lyricsTranslator/helpers/Other.kt:6-7 | exactly the positions, counted in UTF-16 code units, holding the `Char`, strictly increasing |
| TagHelpers.FindAllPlain | ext/src/main/java/dev/brahmkshatriya/echo/extension/lyricsTranslator/helpers/Other.kt:6-7 | in a string without characters outside the BMP, the positions of a character are exactly its character positions |
| TagHelpers.ListOf | ext/src/main/java/dev/brahmkshatriya/echo/extension/lyricsTranslator/helpers/Other.kt:9-11 | the one-element list of the receiver |
| TagHelpers.UpdateMetadata | ext/src/main/java/dev/brahmkshatriya/echo/extension/lyricsTranslator/helpers/Other.kt:13-23 | id, title and body stay; the subtitle is the name, or `name: old`; both tags are set to the extension's id and name; other extras stay |
| TagHelpers.TagRoundTrip | ext/src/main/java/dev/brahmkshatriya/echo/extension/lyricsTranslator/helpers/Other.kt:18-27 | `getIdFromLyric` of a tagged candidate gives the extension's id |
| TagHelpers.GetIdFromLyric | ext/src/main/java/dev/brahmkshatriya/echo/extension/lyricsTranslator/helpers/Other.kt:25-27 | an id exactly when the `lyricExtensionId` tag is present, and then its value |
| HashTagHelpers.UpdateMetadata | ext/src/main/java/dev/brahmkshatriya/echo/extension/helpers/Other.kt:13-18 | id, title and body stay; the same subtitle rule; `lyricHashcode` is set to the extension's id; other extras stay |
| HashTagHelpers.TagRoundTrip | ext/src/main/java/dev/brahmkshatriya/echo/extension/helpers/Other.kt:16-22 | `getIdFromLyric` of a tagged candidate gives the extension's id |
| HashTagHelpers.GetIdFromLyric | ext/src/main/java/dev/brahmkshatriya/echo/extension/helpers/Other.kt:20-22 | an id exactly when the `lyricHashcode` tag is present, and then its value |
| KotlinStd.Find | ext/src/main/java/dev/brahmkshatriya/echo/extension/LyricsTranslator.kt:70 | `find` gives none exactly when no element satisfies the predicate, else the first one that does; used for the language code and, at LyricsTranslator.kt:86-87, for the extension id |
| Aggregator.SelectedLanguage | ext/src/main/java/dev/brahmkshatriya/echo/extension/LyricsTranslator.kt:65-71 | none exactly when the switch is set to false (unset means on); English when the code is unset or unknown; else the language with that code |
| Aggregator.PreferLyricsFrom | ext/src/main/java/dev/brahmkshatriya/echo/extension/LyricsTranslator.kt:73-75 | definition: the stored `preferLyricsFrom` string, none when unset |
| Aggregator.GetAllLyrics | ext/src/main/java/dev/brahmkshatriya/echo/extension/LyricsTranslator.kt:98-145 | without a preference the result is the lyrics-extension candidates followed by the music-extension ones; with one it is the reordering, holding every candidate and, twice, those matching both name and client |
| Aggregator.LoadLyrics | ext/src/main/java/dev/brahmkshatriya/echo/extension/LyricsTranslator.kt:80-95 | returns the specification `LoadOutcome`; on every path that ends before `translate` (no id, extension not found, instance failed, non-lyrics client, failed `load`) the cache and clock are unchanged; otherwise they change as `Lyrics.translate` of the lyrics it translates does (`LyricsCacheEffect` of `ToTranslate`) |
| Aggregator.LoadIsTranslateOfLoaded | ext/src/main/java/dev/brahmkshatriya/echo/extension/LyricsTranslator.kt:80-95 | when `loadLyrics` reaches `translate` its outcome is that of `Lyrics.translate` on the lyrics it translates; otherwise its outcome does not depend on the cache |
| Aggregator.LyricsClientOf | ext/src/main/java/dev/brahmkshatriya/echo/extension/LyricsTranslator.kt:84-89 | a lyrics extension with the id wins: the stub resolves to its client when it is a `LyricsClient` and fails otherwise; failing that, a music extension gives its lyrics client, or none when it has none, and fails when its instance failed; no extension at all gives `Extension not found` |
| Aggregator.CollectAppend | ext/src/main/java/dev/brahmkshatriya/echo/extension/LyricsTranslator.kt:100-135 | collecting over two provider lists is collecting over each in turn, in order |
| Aggregator.Collect | ext/src/main/java/dev/brahmkshatriya/echo/extension/LyricsTranslator.kt:100-134 | there are no candidates exactly when no provider contributes any |
| Aggregator.SilentProviderIsSkipped | ext/src/main/java/dev/brahmkshatriya/echo/extension/LyricsTranslator.kt:100-134 | a provider that contributes nothing leaves the other providers' candidates as they are |
| Aggregator.LyricsContribution | ext/src/main/java/dev/brahmkshatriya/echo/extension/LyricsTranslator.kt:100-117 | definition of one lyrics extension's share of the candidates; `LyricsContributionCases` states its cases |
| Aggregator.MusicContribution | ext/src/main/java/dev/brahmkshatriya/echo/extension/LyricsTranslator.kt:119-134 | definition of one music extension's share of the candidates; `MusicContributionCases` states its cases |
| Aggregator.LyricsContributionCases | ext/src/main/java/dev/brahmkshatriya/echo/extension/LyricsTranslator.kt:100-117 | a disabled, failing or self lyrics extension, or one whose search fails, contributes nothing; any other contributes its tagged results |
| Aggregator.MusicContributionCases | ext/src/main/java/dev/brahmkshatriya/echo/extension/LyricsTranslator.kt:119-134 | a disabled or failing music extension, one that is not a lyrics client, or one whose search fails, contributes nothing; any other contributes its tagged results |
| Aggregator.CollectProvenance | ext/src/main/java/dev/brahmkshatriya/echo/extension/LyricsTranslator.kt:100-134 | every collected candidate comes from the contribution of one provider |
| Aggregator.LyricsCandidateProvenance | ext/src/main/java/dev/brahmkshatriya/echo/extension/LyricsTranslator.kt:100-117 | every lyrics-extension candidate is a result of a contributing extension passed through `updateMetadata` with it |
| Aggregator.MusicCandidateProvenance | ext/src/main/java/dev/brahmkshatriya/echo/extension/LyricsTranslator.kt:119-134 | every music-extension candidate is a result of a contributing extension passed through `updateMetadata` with it |
| Aggregator.FilterName | ext/src/main/java/dev/brahmkshatriya/echo/extension/LyricsTranslator.kt:137-138 | the name filter keeps every occurrence of a candidate whose match is as asked, and none of the others |
| Aggregator.FilterId | ext/src/main/java/dev/brahmkshatriya/echo/extension/LyricsTranslator.kt:139-143 | the id filter keeps every occurrence of a candidate whose match is as asked, and none of the others |
| Aggregator.Ordered | ext/src/main/java/dev/brahmkshatriya/echo/extension/LyricsTranslator.kt:136-144 | definition: `preferredLyrics + currentClient + otherLyrics`; `OrderedCounts` and `OrderedParts` state its properties |
| Aggregator.OrderedCounts | ext/src/main/java/dev/brahmkshatriya/echo/extension/LyricsTranslator.kt:137-144 | as multisets the reordering is the candidates plus those matching both name and client; its length is the sum of the three parts |
| Aggregator.OrderedParts | ext/src/main/java/dev/brahmkshatriya/echo/extension/LyricsTranslator.kt:136-144 | the first part holds the name matches, the second the client matches, the third those matching neither, compared case-insensitively; every candidate appears |
| Aggregator.FilterNameAppend | ext/src/main/java/dev/brahmkshatriya/echo/extension/LyricsTranslator.kt:137-143 | the name filter keeps the candidates' order |
| Aggregator.FilterIdAppend | ext/src/main/java/dev/brahmkshatriya/echo/extension/LyricsTranslator.kt:139-143 | the id filter keeps the candidates' order |
| Aggregator.LyricsExtensionsFirst | ext/src/main/java/dev/brahmkshatriya/echo/extension/LyricsTranslator.kt:85-88 | a stub whose id a lyrics extension has is resolved there, whatever the music extensions are |
| Aggregator.LoadDispatch | ext/src/main/java/dev/brahmkshatriya/echo/extension/LyricsTranslator.kt:80-95 | a body is translated with the selected language; a stub without an id fails with the `!!`; an id no extension has fails with `Extension not found` |
| Aggregator.TaggedStubResolves | ext/src/main/java/dev/brahmkshatriya/echo/extension/LyricsTranslator.kt:84-87 | a candidate tagged by an extension with a unique id resolves to that extension |

## Left out

- Concurrency. The cache's `Mutex` and the coroutine dispatch of chunk requests
  (`withContext`, `async`/`awaitAll`) are left out. The model runs sequentially and keeps the
  chunk answers in chunk order, as `awaitAll` does.
- The network translator and `String.hashCode`. Both are abstract parameters, so hash
  collisions are only guarded by the all-keys check that the code performs. The backend is a
  pure function of its request; the requests `TranslateList` makes are its ghost output.
- Wall-clock `Date()`. A logical clock replaces it. Millisecond ties, which `minByOrNull`
  breaks by iteration order, cannot occur in the model.
- Host framework calls. `runMutatedCatching` is taken to rethrow what its block throws. The
  `instance.value().getOrThrow()`, `searchTrackLyrics(...).loadList(null)` and `loadLyrics`
  calls of other clients are given data: `LyricsApi.search` and `LyricsApi.load` in `Models`.
  Searches do not depend on the track in the model.
- The settings screen (`settingItems`), the `Language` sorting and default-index arithmetic,
  the setters for the settings and extension lists, `searchTrackLyrics`' `PagedData` wrapper,
  and `println` logging.
- `lowercase()` is modelled for ASCII letters only.
- Integer width. Kotlin's `Int` is 32 bits: the sums `sumOf { it.length }`, `currentLength` and
  `firstHalfLength` (Translation.kt lines 123-164) would wrap past 2^31 - 1, and `hashCode()` gives
  a 32-bit value that `CacheKey` prints. The model's integers are unbounded: lengths never wrap and
  `hash` may return any integer. Inputs of more than 2^31 - 1 code units are thus not modelled.
- Strings with an unpaired surrogate. Kotlin allows them, but a Dafny `char` is a Unicode scalar
  value, so the model has no such string.
- Aggregator.LoadLyrics: when a stub's id names this translator's own lyrics extension, the
  code calls itself on the same stub without end. The model returns the error
  `StackOverflowError` there instead of not terminating.
- Aggregator.LoadLyrics: the messages of the host's exceptions are not part of the source. For
  an extension whose instance fails to load (`getOrThrow`) the model uses
  `Extension instance failed to load`, and for the `!!` on a stub without an id it uses
  `NullPointerException`.
- The build script `ext/build.gradle.kts`: it holds nothing to verify.
