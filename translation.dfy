/**
 * The translation pipeline of Translation.kt: `translateList` turns a list of
 * lines into a map from each line to its translation, consulting and filling
 * the translation cache, and the three `translate` functions rebuild a
 * lyrics body from that map.
 *
 * The backend is the abstract `Translator` (`None` is a failed or empty
 * answer) and `String.hashCode` is the abstract `hash`. An exception the
 * source throws is the outcome `Thrown` with the exception's message.
 */
module Translation {
  import opened Wrappers
  import opened KotlinStd
  import opened Models
  import opened Chunking
  import opened LRUCache

  /** The capacity of `translationCache` (Translation.kt:46). */
  const CacheCapacity: int := 1000

  /** `TimeBasedLRUCache<Map<String, String>>(1000)`: the shared cache, empty at start (Translation.kt:46). */
  method NewTranslationCache() returns (cache: TimeBasedLRUCache<map<string, string>>)
    ensures fresh(cache) && cache.Valid()
    ensures cache.maxSize == CacheCapacity && cache.cache == map[]
  {
    cache := new TimeBasedLRUCache(CacheCapacity);
  }

  /** What `translateList` gives: a map, `null`, or an exception with its message. */
  datatype ListOutcome = Done(translations: map<string, string>) | Absent | Thrown(message: string)

  /** `list.joinToString("").hashCode().toString()` (Translation.kt:56). */
  function CacheKey(list: seq<string>, hash: string -> int): (key: string)
    ensures |key| >= 1 && forall i :: 0 < i < |key| ==> '0' <= key[i] <= '9'
  {
    DecimalString(hash(Concat(list)))
  }

  /**
   * Two lists share a cache key exactly when their concatenations hash alike;
   * so lists with the same concatenation always share one.
   */
  lemma CacheKeyIsHash(a: seq<string>, b: seq<string>, hash: string -> int)
    ensures CacheKey(a, hash) == CacheKey(b, hash) <==> hash(Concat(a)) == hash(Concat(b))
    ensures Concat(a) == Concat(b) ==> CacheKey(a, hash) == CacheKey(b, hash)
  {
    DecimalStringInjective(hash(Concat(a)), hash(Concat(b)));
  }

  /** Different lists can share a key: ["ab", "c"] and ["a", "bc"] do, whatever the hash. */
  lemma SharedKey(hash: string -> int)
    ensures CacheKey(["ab", "c"], hash) == CacheKey(["a", "bc"], hash)
  {
    assert Concat(["ab", "c"]) == "abc" by { assert ["ab", "c"][1..] == ["c"] && ["c"][1..] == []; }
    assert Concat(["a", "bc"]) == "abc" by { assert ["a", "bc"][1..] == ["bc"] && ["bc"][1..] == []; }
  }

  /** `list.all { m.containsKey(it) }` (Translation.kt:58). */
  predicate Covers(m: map<string, string>, list: seq<string>)
  {
    forall i :: 0 <= i < |list| ==> list[i] in m
  }

  /** `list.map { it.replace("\n", " ") }` (Translation.kt:65). */
  function Normalize(list: seq<string>): (r: seq<string>)
    ensures |r| == |list|
    ensures forall i :: 0 <= i < |r| ==> '\n' !in r[i] && |r[i]| == |list[i]|
    ensures forall i :: 0 <= i < |r| ==> r[i] == ReplaceNewlines(list[i])
  {
    seq(|list|, i requires 0 <= i < |list| => ReplaceNewlines(list[i]))
  }

  /** One chunk's request (Translation.kt:77-90): its '\n'-join is translated and the answer split on '\n'. */
  function TranslateChunk(chunk: seq<string>, language: Language, translator: Translator): (r: Option<seq<string>>)
    ensures r.None? <==> translator(JoinLines(chunk), language).None?
    ensures r.Some? ==> && |r.value| == Occurrences(translator(JoinLines(chunk), language).value, '\n') + 1
                        && forall i :: 0 <= i < |r.value| ==> '\n' !in r.value[i]
  {
    match translator(JoinLines(chunk), language)
    case None => None
    case Some(text) => Some(SplitLines(text))
  }

  /** The texts sent to the backend for `chunks`: one '\n'-join per chunk (Translation.kt:77). */
  function ChunkRequests(chunks: seq<seq<string>>): (r: seq<string>)
    ensures |r| == |chunks|
  {
    seq(|chunks|, i requires 0 <= i < |chunks| => JoinLines(chunks[i]))
  }

  /** `chunks.map { … }.awaitAll()`: the answers in chunk order. */
  function ChunkResults(chunks: seq<seq<string>>, language: Language, translator: Translator): (r: seq<Option<seq<string>>>)
    ensures |r| == |chunks|
    ensures forall i :: 0 <= i < |r| ==> r[i] == TranslateChunk(chunks[i], language, translator)
  {
    seq(|chunks|, i requires 0 <= i < |chunks| => TranslateChunk(chunks[i], language, translator))
  }

  /** `results.any { it == null }` (Translation.kt:94): some chunk has no answer, so dropping the nulls loses one. */
  predicate AnyFailed<T>(results: seq<Option<T>>): (b: bool)
    ensures b <==> |FilterNotNull(results)| < |results|
  {
    exists i :: 0 <= i < |results| && results[i].None?
  }

  /** `filterNotNull()` (Translation.kt:100): the present values, in order; as many as there are results exactly when none is missing. */
  function FilterNotNull<T>(results: seq<Option<T>>): (r: seq<T>)
    ensures |r| <= |results|
    ensures |r| == |results| <==> forall i :: 0 <= i < |results| ==> results[i].Some?
    ensures |r| == |results| ==> forall i :: 0 <= i < |r| ==> r[i] == results[i].value
  {
    if results == [] then []
    else
      var rest := FilterNotNull(results[1..]);
      assert (forall i :: 0 <= i < |results| ==> results[i].Some?)
             <==> results[0].Some? && forall i :: 0 <= i < |results[1..]| ==> results[1..][i].Some? by {
        forall i | 0 <= i < |results[1..]| ensures results[1..][i] == results[i + 1] { }
      }
      match results[0]
      case None => rest
      case Some(v) => [v] + rest
  }

  /** A thrown exception when `hardFail`, `null` otherwise. */
  function Failure(hardFail: bool, message: string): (r: ListOutcome)
    ensures hardFail <==> r.Thrown?
    ensures !hardFail <==> r == Absent
    ensures r.Thrown? ==> r.message == message
  {
    if hardFail then Thrown(message) else Absent
  }

  /** The cached map `translateList` returns without translating (Translation.kt:56-62), if any. */
  function CachedHit(entries: Entries<map<string, string>>, list: seq<string>, hash: string -> int): (r: Option<map<string, string>>)
    ensures r.Some? ==> CacheKey(list, hash) in entries && r.value == entries[CacheKey(list, hash)].1 && Covers(r.value, list)
    ensures CacheKey(list, hash) in entries && Covers(entries[CacheKey(list, hash)].1, list) ==> r.Some?
  {
    var key := CacheKey(list, hash);
    if key in entries && Covers(entries[key].1, list) then Some(entries[key].1) else None
  }

  /** `translateList` after a cache miss (Translation.kt:64-114). */
  function MissOutcome(list: seq<string>, language: Language, hardFail: bool, translator: Translator): ListOutcome
  {
    var chunks := ChunksOf(Normalize(list));
    if |Flatten(chunks)| != |list| then Failure(hardFail, "Chunking failed")
    else
      var results := ChunkResults(chunks, language, translator);
      if AnyFailed(results) then Failure(hardFail, "Chunk failed to translate")
      else
        var translated := Flatten(FilterNotNull(results));
        if |translated| != |list| then Failure(hardFail, "Translation count mismatch")
        else Done(ZipToMap(list, translated))
  }

  /** What `translateList(list, language, hardFail)` gives when the cache holds `entries` (Translation.kt:48-115). */
  function ListOutcomeOf(entries: Entries<map<string, string>>, list: seq<string>, language: Language,
                         hardFail: bool, translator: Translator, hash: string -> int): ListOutcome
  {
    if list == [] then Done(map[])
    else
      match CachedHit(entries, list, hash)
      case Some(m) => Done(m)
      case None => MissOutcome(list, language, hardFail, translator)
  }

  /** The access time the cache gives the entry `put` stores, once `get(key)` has run on `entries`. */
  function ClockAfterGet<T>(entries: Entries<T>, key: string, clock: nat): nat
  {
    if key in entries then clock + 1 else clock
  }

  /** `translationMap[text] ?: text`. */
  function TextFor(m: map<string, string>, text: string): string
  {
    if text in m then m[text] else text
  }

  /** The texts of the timed lines (Translation.kt:30). */
  function Texts(items: seq<Item>): (r: seq<string>)
    ensures |r| == |items|
    ensures forall i :: 0 <= i < |r| ==> r[i] == items[i].text
  {
    seq(|items|, i requires 0 <= i < |items| => items[i].text)
  }

  /** The timed lines once each text is looked up in `m`, timings kept (Translation.kt:32-37). */
  function Rebuilt(items: seq<Item>, m: map<string, string>): seq<Item>
  {
    seq(|items|, i requires 0 <= i < |items| => Item(TextFor(m, items[i].text), items[i].startTime, items[i].endTime))
  }

  /**
   * The cache (`after`, `clockAfter`) that `translateList(list, …)` leaves
   * when it starts from (`entries`, `clock`): untouched for an empty list;
   * otherwise the `get` of the key (Translation.kt:57), followed, after a miss
   * that succeeded, by the `put` of the new map (Translation.kt:111).
   */
  ghost predicate ListCacheEffect(entries: Entries<map<string, string>>, clock: nat, maxSize: int, list: seq<string>,
                                  language: Language, hardFail: bool, translator: Translator, hash: string -> int,
                                  after: Entries<map<string, string>>, clockAfter: nat)
  {
    if list == [] then after == entries && clockAfter == clock
    else
      var key := CacheKey(list, hash);
      var stamp := ClockAfterGet(entries, key, clock);
      var outcome := MissOutcome(list, language, hardFail, translator);
      if CachedHit(entries, list, hash).None? && outcome.Done? then
        PutSpec(Touched(entries, key, clock), stamp, maxSize, key, outcome.translations, after) && clockAfter == stamp + 1
      else
        after == Touched(entries, key, clock) && clockAfter == stamp
  }

  /** The cache `Lyrics.translate(language)` leaves (Translation.kt:12-44): the effect of its one `translateList`, if any. */
  ghost predicate LyricsCacheEffect(entries: Entries<map<string, string>>, clock: nat, maxSize: int, lyrics: Lyrics,
                                    language: Option<Language>, translator: Translator, hash: string -> int,
                                    after: Entries<map<string, string>>, clockAfter: nat)
  {
    match language
    case None => after == entries && clockAfter == clock
    case Some(lang) =>
      match lyrics.lyrics
      case Some(Timed(items)) =>
        ListCacheEffect(entries, clock, maxSize, Texts(items), lang, true, translator, hash, after, clockAfter)
      case Some(Simple(text)) =>
        ListCacheEffect(entries, clock, maxSize, [text], lang, true, translator, hash, after, clockAfter)
      case _ => after == entries && clockAfter == clock
  }

  // ---------------------------------------------------------------------
  // The outcomes of the three `translate`s

  /** `translate(Timed)` (Translation.kt:29-38), always called with `hardFail = true`. */
  function TimedOutcome(entries: Entries<map<string, string>>, items: seq<Item>, language: Language,
                        translator: Translator, hash: string -> int): Result<seq<Item>, string>
  {
    match ListOutcomeOf(entries, Texts(items), language, true, translator, hash)
    case Done(m) => Ok(Rebuilt(items, m))
    case Absent => Ok(items)
    case Thrown(message) => Err(message)
  }

  /** `translate(Simple)` (Translation.kt:40-44). */
  function SimpleOutcome(entries: Entries<map<string, string>>, text: string, language: Language,
                         translator: Translator, hash: string -> int): Result<string, string>
  {
    match ListOutcomeOf(entries, [text], language, true, translator, hash)
    case Done(m) => Ok(TextFor(m, text))
    case Absent => Ok(text)
    case Thrown(message) => Err(message)
  }

  /** `Lyrics.translate(language)` (Translation.kt:12-27). */
  function LyricsOutcome(entries: Entries<map<string, string>>, lyrics: Lyrics, language: Option<Language>,
                         translator: Translator, hash: string -> int): Result<Lyrics, string>
  {
    match language
    case None => Ok(lyrics)
    case Some(lang) =>
      match lyrics.lyrics
      case Some(Timed(items)) =>
        (match TimedOutcome(entries, items, lang, translator, hash)
         case Ok(r) => Ok(lyrics.(lyrics := Some(Timed(r))))
         case Err(e) => Err(e))
      case Some(Simple(text)) =>
        (match SimpleOutcome(entries, text, lang, translator, hash)
         case Ok(t) => Ok(lyrics.(lyrics := Some(Simple(t))))
         case Err(e) => Err(e))
      case _ => Ok(lyrics)
  }

  // ---------------------------------------------------------------------
  // The source's procedures over the shared cache

  /**
   * `translateList` (Translation.kt:48-115). The cache is looked up, and on a
   * miss written only when every chunk was translated and the line count
   * matched.
   */
  method TranslateList(cache: TimeBasedLRUCache<map<string, string>>, list: seq<string>, language: Language,
                       hardFail: bool, translator: Translator, hash: string -> int)
    returns (r: ListOutcome, ghost requests: seq<string>)
    requires cache.Valid()
    modifies cache
    ensures cache.Valid()
    ensures r == ListOutcomeOf(old(cache.cache), list, language, hardFail, translator, hash)
    ensures list == [] || CachedHit(old(cache.cache), list, hash).Some? ==> requests == []
    ensures list != [] && CachedHit(old(cache.cache), list, hash).None? ==>
              requests == ChunkRequests(ChunksOf(Normalize(list))) && requests != []
    ensures ListCacheEffect(old(cache.cache), old(cache.clock), cache.maxSize, list, language, hardFail, translator, hash,
                            cache.cache, cache.clock)
  {
    requests := [];
    if list == [] {
      return Done(map[]), requests;
    }
    var key := CacheKey(list, hash);
    var cached := Lookup(cache, list, hash);
    if cached.Some? {
      return Done(cached.value), requests;
    }
    r, requests := TranslateMiss(list, language, hardFail, translator);
    if r.Done? {
      cache.Put(key, r.translations);
    }
  }

  /** The cache lookup of `translateList` (Translation.kt:56-62): a hit only when it covers every line. */
  method Lookup(cache: TimeBasedLRUCache<map<string, string>>, list: seq<string>, hash: string -> int)
    returns (hit: Option<map<string, string>>)
    requires cache.Valid()
    modifies cache
    ensures cache.Valid()
    ensures hit == CachedHit(old(cache.cache), list, hash)
    ensures cache.cache == Touched(old(cache.cache), CacheKey(list, hash), old(cache.clock))
    ensures cache.clock == ClockAfterGet(old(cache.cache), CacheKey(list, hash), old(cache.clock))
  {
    var cached := cache.Get(CacheKey(list, hash));
    if cached.Some? && Covers(cached.value, list) {
      hit := cached;
    } else {
      hit := None;
    }
  }

  /** The part of `translateList` after a cache miss (Translation.kt:64-110): chunk, translate, check, zip. */
  method TranslateMiss(list: seq<string>, language: Language, hardFail: bool, translator: Translator)
    returns (r: ListOutcome, ghost requests: seq<string>)
    ensures r == MissOutcome(list, language, hardFail, translator)
    ensures requests == ChunkRequests(ChunksOf(Normalize(list)))
    ensures list != [] ==> requests != []
  {
    var chunks := SplitIntoChunks(Normalize(list));
    requests := ChunkRequests(chunks);
    if list != [] {
      ChunksOfShape(Normalize(list));
    }
    // The count check of Translation.kt:66 never fires: chunking is a partition.
    assert |Flatten(chunks)| == |list|;
    var results := ChunkResults(chunks, language, translator);
    if AnyFailed(results) {
      return Failure(hardFail, "Chunk failed to translate"), requests;
    }
    var translated := Flatten(FilterNotNull(results));
    if |translated| != |list| {
      return Failure(hardFail, "Translation count mismatch"), requests;
    }
    return Done(ZipToMap(list, translated)), requests;
  }

  /** The `forEach` of `translate(Timed)` (Translation.kt:32-36). */
  method RebuildTimed(items: seq<Item>, m: map<string, string>) returns (r: seq<Item>)
    ensures |r| == |items|
    ensures forall i :: 0 <= i < |r| ==> r[i].startTime == items[i].startTime && r[i].endTime == items[i].endTime
    ensures forall i :: 0 <= i < |r| ==> r[i].text == (if items[i].text in m then m[items[i].text] else items[i].text)
  {
    r := [];
    for i := 0 to |items|
      invariant |r| == i
      invariant forall k :: 0 <= k < i ==> r[k] == Item(TextFor(m, items[k].text), items[k].startTime, items[k].endTime)
    {
      var translatedText := TextFor(m, items[i].text);
      r := r + [Item(translatedText, items[i].startTime, items[i].endTime)];
    }
  }

  /** `translate(Timed)` (Translation.kt:29-38). */
  method TranslateTimed(cache: TimeBasedLRUCache<map<string, string>>, items: seq<Item>, language: Language,
                        translator: Translator, hash: string -> int) returns (r: Result<seq<Item>, string>)
    requires cache.Valid()
    modifies cache
    ensures cache.Valid()
    ensures r == TimedOutcome(old(cache.cache), items, language, translator, hash)
    ensures ListCacheEffect(old(cache.cache), old(cache.clock), cache.maxSize, Texts(items), language, true, translator, hash,
                            cache.cache, cache.clock)
  {
    var translations, _ := TranslateList(cache, Texts(items), language, true, translator, hash);
    match translations
    case Done(m) =>
      var rebuilt := RebuildTimed(items, m);
      assert rebuilt == Rebuilt(items, m);
      r := Ok(rebuilt);
    case Absent =>
      r := Ok(items);
    case Thrown(message) =>
      r := Err(message);
  }

  /** `translate(Simple)` (Translation.kt:40-44). */
  method TranslateSimple(cache: TimeBasedLRUCache<map<string, string>>, text: string, language: Language,
                         translator: Translator, hash: string -> int) returns (r: Result<string, string>)
    requires cache.Valid()
    modifies cache
    ensures cache.Valid()
    ensures r == SimpleOutcome(old(cache.cache), text, language, translator, hash)
    ensures ListCacheEffect(old(cache.cache), old(cache.clock), cache.maxSize, [text], language, true, translator, hash,
                            cache.cache, cache.clock)
  {
    var translations, _ := TranslateList(cache, [text], language, true, translator, hash);
    match translations
    case Done(m) => r := Ok(TextFor(m, text));
    case Absent => r := Ok(text);
    case Thrown(message) => r := Err(message);
  }

  /** `Lyrics.translate(language)` (Translation.kt:12-27). */
  method TranslateLyrics(cache: TimeBasedLRUCache<map<string, string>>, lyrics: Lyrics, language: Option<Language>,
                         translator: Translator, hash: string -> int) returns (r: Result<Lyrics, string>)
    requires cache.Valid()
    modifies cache
    ensures cache.Valid()
    ensures r == LyricsOutcome(old(cache.cache), lyrics, language, translator, hash)
    ensures language.None? ==> cache.cache == old(cache.cache) && cache.clock == old(cache.clock)
    ensures LyricsCacheEffect(old(cache.cache), old(cache.clock), cache.maxSize, lyrics, language, translator, hash,
                              cache.cache, cache.clock)
  {
    if language.None? {
      return Ok(lyrics);
    }
    match lyrics.lyrics
    case Some(Timed(items)) =>
      var t := TranslateTimed(cache, items, language.value, translator, hash);
      r := if t.Ok? then Ok(lyrics.(lyrics := Some(Timed(t.value)))) else Err(t.error);
    case Some(Simple(text)) =>
      var t := TranslateSimple(cache, text, language.value, translator, hash);
      r := if t.Ok? then Ok(lyrics.(lyrics := Some(Simple(t.value)))) else Err(t.error);
    case _ =>
      r := Ok(lyrics);
  }

  // ---------------------------------------------------------------------
  // Properties

  /** The chunk count check of Translation.kt:66 can never fail: the chunks partition the normalised lines. */
  lemma ChunkingKeepsCount(list: seq<string>)
    ensures Flatten(ChunksOf(Normalize(list))) == Normalize(list)
    ensures |Flatten(ChunksOf(Normalize(list)))| == |list|
  {
    ChunksOfPartition(Normalize(list));
  }

  /** Splitting a chunk's '\n'-join on '\n' gives the chunk back (Translation.kt:65, 77, 90). */
  lemma ChunkJoinSplits(list: seq<string>, i: nat)
    requires list != [] && i < |ChunksOf(Normalize(list))|
    ensures SplitLines(JoinLines(ChunksOf(Normalize(list))[i])) == ChunksOf(Normalize(list))[i]
  {
    var chunks := ChunksOf(Normalize(list));
    ChunksOfShape(Normalize(list));
    ChunkingKeepsCount(list);
    forall j | 0 <= j < |chunks[i]| ensures '\n' !in chunks[i][j] {
      FlattenMember(chunks, i, j);
    }
    SplitJoinLines(chunks[i]);
  }

  /**
   * A backend that answers every request with its input makes `translateList`
   * succeed on a miss, mapping each line to its normalised form.
   */
  lemma EchoTranslatorSucceeds(list: seq<string>, language: Language, hardFail: bool, translator: Translator)
    requires list != []
    requires forall s :: translator(s, language) == Some(s)
    ensures MissOutcome(list, language, hardFail, translator) == Done(ZipToMap(list, Normalize(list)))
  {
    var chunks := ChunksOf(Normalize(list));
    ChunkingKeepsCount(list);
    var results := ChunkResults(chunks, language, translator);
    forall i | 0 <= i < |results| ensures results[i] == Some(chunks[i]) {
      ChunkJoinSplits(list, i);
    }
    assert !AnyFailed(results);
    assert FilterNotNull(results) == chunks;
  }

  /** A map `translateList` gives has a translation for every input line. */
  lemma DoneCoversEveryLine(entries: Entries<map<string, string>>, list: seq<string>, language: Language,
                            hardFail: bool, translator: Translator, hash: string -> int)
    ensures var r := ListOutcomeOf(entries, list, language, hardFail, translator, hash);
            r.Done? ==> Covers(r.translations, list)
  {
    if list != [] && CachedHit(entries, list, hash).None? && MissOutcome(list, language, hardFail, translator).Done? {
      var chunks := ChunksOf(Normalize(list));
      ChunkingKeepsCount(list);
      var translated := Flatten(FilterNotNull(ChunkResults(chunks, language, translator)));
      assert |translated| == |list|;
    }
  }

  /**
   * On a miss, a successful map pairs each line with the translated line at its
   * position (for a repeated line, its last position), and holds no other key.
   */
  lemma DoneOnMissIsZip(list: seq<string>, language: Language, hardFail: bool, translator: Translator)
    ensures var o := MissOutcome(list, language, hardFail, translator);
            var translated := Flatten(FilterNotNull(ChunkResults(ChunksOf(Normalize(list)), language, translator)));
            o.Done? ==>
              && |translated| == |list|
              && (forall k :: k in o.translations ==> k in list)
              && (forall i :: 0 <= i < |list| && LastOccurrence(list, i) ==> o.translations[list[i]] == translated[i])
  {
    var translated := Flatten(FilterNotNull(ChunkResults(ChunksOf(Normalize(list)), language, translator)));
    if MissOutcome(list, language, hardFail, translator).Done? {
      forall i | 0 <= i < |list| && LastOccurrence(list, i) ensures ZipToMap(list, translated)[list[i]] == translated[i] {
        ZipToMapAt(list, translated, i);
      }
    }
  }

  /** With `hardFail` no failure yields `null`, and without it no failure throws. */
  lemma HardFailDecides(entries: Entries<map<string, string>>, list: seq<string>, language: Language,
                        hardFail: bool, translator: Translator, hash: string -> int)
    ensures hardFail ==> !ListOutcomeOf(entries, list, language, hardFail, translator, hash).Absent?
    ensures !hardFail ==> !ListOutcomeOf(entries, list, language, hardFail, translator, hash).Thrown?
  {
  }

  /** A cache hit that covers every line is returned as it is, whatever the backend would answer. */
  lemma CoveringHitIsReturned(entries: Entries<map<string, string>>, list: seq<string>, language: Language,
                              hardFail: bool, translator: Translator, hash: string -> int)
    requires list != [] && CacheKey(list, hash) in entries && Covers(entries[CacheKey(list, hash)].1, list)
    ensures ListOutcomeOf(entries, list, language, hardFail, translator, hash) == Done(entries[CacheKey(list, hash)].1)
  {
  }

  /**
   * After a miss that succeeded, the next `translateList` of the same lines
   * is a covering cache hit, so it returns the same map whatever the
   * language, `hardFail` flag or backend of that call, and by the contract of
   * `TranslateList` sends nothing to the backend.
   * `entries` and `clock` are the cache before the first call and `after` the
   * cache its `put` left (the state `TranslateList` ensures).
   */
  lemma SecondCallHits(entries: Entries<map<string, string>>, clock: nat, maxSize: int, list: seq<string>,
                       language: Language, hardFail: bool, translator: Translator, hash: string -> int,
                       after: Entries<map<string, string>>,
                       language': Language, hardFail': bool, translator': Translator)
    requires AllBefore(entries, clock) && maxSize >= 1 && list != []
    requires CachedHit(entries, list, hash).None? && MissOutcome(list, language, hardFail, translator).Done?
    requires PutSpec(Touched(entries, CacheKey(list, hash), clock), ClockAfterGet(entries, CacheKey(list, hash), clock),
                     maxSize, CacheKey(list, hash), MissOutcome(list, language, hardFail, translator).translations, after)
    ensures CachedHit(after, list, hash) == Some(MissOutcome(list, language, hardFail, translator).translations)
    ensures ListOutcomeOf(after, list, language', hardFail', translator', hash) == MissOutcome(list, language, hardFail, translator)
  {
    var key := CacheKey(list, hash);
    var m := MissOutcome(list, language, hardFail, translator).translations;
    var stamp := ClockAfterGet(entries, key, clock);
    assert AllBefore(Touched(entries, key, clock), stamp);
    PutKeepsNewEntry(Touched(entries, key, clock), stamp, maxSize, key, m, after);
    DoneCoversEveryLine(entries, list, language, hardFail, translator, hash);
  }

  /** `translate(Timed)` keeps the line count and every timing, and looks each text up with a fallback. */
  lemma TimedKeepsTimings(entries: Entries<map<string, string>>, items: seq<Item>, language: Language,
                          translator: Translator, hash: string -> int)
    requires TimedOutcome(entries, items, language, translator, hash).Ok?
    ensures var r := TimedOutcome(entries, items, language, translator, hash).value;
            && |r| == |items|
            && (forall i :: 0 <= i < |r| ==> r[i].startTime == items[i].startTime && r[i].endTime == items[i].endTime)
  {
  }

  /** When the backend answers every line, each timed text becomes its translation. */
  lemma TimedTextsTranslated(entries: Entries<map<string, string>>, items: seq<Item>, language: Language,
                             translator: Translator, hash: string -> int)
    ensures var o := ListOutcomeOf(entries, Texts(items), language, true, translator, hash);
            var r := TimedOutcome(entries, items, language, translator, hash);
            o.Done? ==>
              && r.Ok?
              && forall i :: 0 <= i < |items| ==> items[i].text in o.translations && r.value[i].text == o.translations[items[i].text]
  {
    DoneCoversEveryLine(entries, Texts(items), language, true, translator, hash);
  }

  /** `translate(Simple)` gives the map's entry for the text when the list is translated. */
  lemma SimpleTextTranslated(entries: Entries<map<string, string>>, text: string, language: Language,
                             translator: Translator, hash: string -> int)
    requires ListOutcomeOf(entries, [text], language, true, translator, hash).Done?
    ensures var m := ListOutcomeOf(entries, [text], language, true, translator, hash).translations;
            && text in m
            && SimpleOutcome(entries, text, language, translator, hash) == Ok(m[text])
  {
    DoneCoversEveryLine(entries, [text], language, true, translator, hash);
  }

  /**
   * `Lyrics.translate` with no language is the identity, and otherwise changes
   * at most the body, keeping its kind; a body that is neither timed nor
   * simple is left as it is.
   */
  lemma LyricsTranslationKeepsMetadata(entries: Entries<map<string, string>>, lyrics: Lyrics, language: Option<Language>,
                                       translator: Translator, hash: string -> int)
    ensures language.None? ==> LyricsOutcome(entries, lyrics, language, translator, hash) == Ok(lyrics)
    ensures var r := LyricsOutcome(entries, lyrics, language, translator, hash);
            r.Ok? ==> && r.value.id == lyrics.id && r.value.title == lyrics.title
                      && r.value.subtitle == lyrics.subtitle && r.value.extras == lyrics.extras
                      && r.value.lyrics.Some? == lyrics.lyrics.Some?
                      && (lyrics.lyrics.Some? ==> r.value.lyrics.value.Timed? == lyrics.lyrics.value.Timed?
                                                  && r.value.lyrics.value.Simple? == lyrics.lyrics.value.Simple?)
    ensures lyrics.lyrics.None? || lyrics.lyrics == Some(OtherKind) ==>
              LyricsOutcome(entries, lyrics, language, translator, hash) == Ok(lyrics)
  {
  }
}
