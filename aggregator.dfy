/**
 * The policy of LyricsTranslator.kt: which language to translate to, which
 * providers contribute candidates to a search and in what order, and how a
 * chosen candidate is loaded and translated.
 *
 * Providers are the records of `Models`: an extension's handle together with
 * what its client answers. The settings are passed in, and so are the
 * backend's `Language.entries`.
 */
module Aggregator {
  import opened Wrappers
  import opened KotlinStd
  import opened Models
  import opened TagHelpers
  import opened LRUCache
  import opened Translation

  const TranslateLyricsKey := "translateLyrics"
  const TranslationLanguageKey := "translationLanguage"
  const PreferLyricsFromKey := "preferLyricsFrom"

  // ---------------------------------------------------------------------
  // Settings

  /** `Language.entries.find { it.code == code }`: the first language with that code. */
  function FindLanguage(languages: seq<Language>, code: string): Option<Language>
  {
    Find(languages, (l: Language) => l.code == code)
  }

  /**
   * `selectedLanguage()` (LyricsTranslator.kt:65-71): no translation when the
   * switch is explicitly off; otherwise the language whose code is stored,
   * with English for an unset or unknown code.
   */
  function SelectedLanguage(settings: Settings, languages: seq<Language>): (r: Option<Language>)
    ensures r.None? <==> settings.GetBoolean(TranslateLyricsKey) == Some(false)
    ensures r.Some? && settings.GetString(TranslationLanguageKey).None? ==> r.value == English
    ensures r.Some? && settings.GetString(TranslationLanguageKey).Some? ==>
              var code := settings.GetString(TranslationLanguageKey).value;
              if exists i :: 0 <= i < |languages| && languages[i].code == code
              then r.value in languages && r.value.code == code
              else r.value == English
  {
    if settings.GetBoolean(TranslateLyricsKey) == Some(false) then None
    else
      match settings.GetString(TranslationLanguageKey)
      case None => Some(English)
      case Some(code) =>
        match FindLanguage(languages, code)
        case Some(l) => Some(l)
        case None => Some(English)
  }

  /** `preferLyricsFrom()` (LyricsTranslator.kt:73-75). */
  function PreferLyricsFrom(settings: Settings): Option<string>
  {
    settings.GetString(PreferLyricsFromKey)
  }

  // ---------------------------------------------------------------------
  // What each provider contributes to a search (LyricsTranslator.kt:100-134)

  /** The candidates a provider found, each tagged with the provider (`.map { it.updateMetadata(extension) }`). */
  function Tagged<I>(found: seq<Lyrics>, ext: Extension<I>): seq<Lyrics>
  {
    seq(|found|, j requires 0 <= j < |found| => UpdateMetadata(found[j], ext))
  }

  /**
   * A lyrics extension's contribution (LyricsTranslator.kt:100-117): nothing
   * when it is disabled, when its instance fails, when it is this translator,
   * or when its search throws.
   */
  function LyricsContribution(ext: Extension<LyricsInstance>): seq<Lyrics>
  {
    if !ext.enabled then []
    else
      match ext.instance
      case LyricsClient(api) => (if api.search.Ok? then Tagged(api.search.value, ext) else [])
      case _ => []
  }

  /**
   * A music extension's contribution (LyricsTranslator.kt:119-134): nothing
   * when it is disabled, when its instance fails, when its client is not a
   * `LyricsClient` (the failed cast is caught), or when its search throws.
   */
  function MusicContribution(ext: Extension<MusicInstance>): seq<Lyrics>
  {
    if !ext.enabled then []
    else
      match ext.instance
      case MusicClient(Some(api)) => (if api.search.Ok? then Tagged(api.search.value, ext) else [])
      case _ => []
  }

  /** The provider's search succeeded, so it contributes its tagged results. */
  predicate LyricsContributes(ext: Extension<LyricsInstance>)
  {
    ext.enabled && ext.instance.LyricsClient? && ext.instance.api.search.Ok?
  }

  predicate MusicContributes(ext: Extension<MusicInstance>)
  {
    ext.enabled && ext.instance.MusicClient? && ext.instance.lyricsApi.Some? && ext.instance.lyricsApi.value.search.Ok?
  }

  /** `exts.mapNotNull { … }.flatten()`: the contributions one after the other, in provider order. */
  function Collect<I>(exts: seq<Extension<I>>, contribution: Extension<I> -> seq<Lyrics>): (r: seq<Lyrics>)
    ensures r == [] <==> forall i :: 0 <= i < |exts| ==> contribution(exts[i]) == []
  {
    if exts == [] then []
    else
      assert forall i :: 1 <= i < |exts| ==> exts[i] == exts[1..][i - 1];
      contribution(exts[0]) + Collect(exts[1..], contribution)
  }

  /** All candidates before ordering (LyricsTranslator.kt:99-135): lyrics extensions first, then music extensions. */
  function Potential(lyricsExtensions: seq<Extension<LyricsInstance>>, musicExtensions: seq<Extension<MusicInstance>>): seq<Lyrics>
  {
    Collect(lyricsExtensions, LyricsContribution) + Collect(musicExtensions, MusicContribution)
  }

  // ---------------------------------------------------------------------
  // Ordering by preference (LyricsTranslator.kt:136-144)

  /** `it.extras["lyricExtensionName"]?.lowercase() == preferred.lowercase()`; an absent tag never matches. */
  predicate NameMatches(c: Lyrics, preferred: string)
  {
    NameKey in c.extras && Lowercase(c.extras[NameKey]) == Lowercase(preferred)
  }

  /** `it.extras["lyricExtensionId"]?.lowercase() == clientId.lowercase()`; an absent tag never matches. */
  predicate IdMatches(c: Lyrics, clientId: string)
  {
    IdKey in c.extras && Lowercase(c.extras[IdKey]) == Lowercase(clientId)
  }

  /** `filter` on the name comparison: the candidates whose match is `keep`, in order. */
  function FilterName(cs: seq<Lyrics>, preferred: string, keep: bool): (r: seq<Lyrics>)
    ensures forall c {:trigger multiset(r)[c]} :: multiset(r)[c] == if NameMatches(c, preferred) == keep then multiset(cs)[c] else 0
  {
    if cs == [] then []
    else
      assert cs == [cs[0]] + cs[1..];
      (if NameMatches(cs[0], preferred) == keep then [cs[0]] else []) + FilterName(cs[1..], preferred, keep)
  }

  /** `filter` on the client id comparison: the candidates whose match is `keep`, in order. */
  function FilterId(cs: seq<Lyrics>, clientId: string, keep: bool): (r: seq<Lyrics>)
    ensures forall c {:trigger multiset(r)[c]} :: multiset(r)[c] == if IdMatches(c, clientId) == keep then multiset(cs)[c] else 0
  {
    if cs == [] then []
    else
      assert cs == [cs[0]] + cs[1..];
      (if IdMatches(cs[0], clientId) == keep then [cs[0]] else []) + FilterId(cs[1..], clientId, keep)
  }

  /** `preferredLyrics + currentClient + otherLyrics` */
  function Ordered(all: seq<Lyrics>, preferred: string, clientId: string): seq<Lyrics>
  {
    FilterName(all, preferred, true) + FilterId(all, clientId, true)
      + FilterId(FilterName(all, preferred, false), clientId, false)
  }

  /** What `getAllLyrics(clientId, track)` returns (LyricsTranslator.kt:98-145). */
  function AllLyrics(settings: Settings, lyricsExtensions: seq<Extension<LyricsInstance>>,
                     musicExtensions: seq<Extension<MusicInstance>>, clientId: string): seq<Lyrics>
  {
    var potential := Potential(lyricsExtensions, musicExtensions);
    match PreferLyricsFrom(settings)
    case None => potential
    case Some(preferred) => Ordered(potential, preferred, clientId)
  }

  /**
   * `getAllLyrics` (LyricsTranslator.kt:98-145): the candidates of both kinds
   * of provider, reordered when a preference is set.
   */
  method GetAllLyrics(settings: Settings, lyricsExtensions: seq<Extension<LyricsInstance>>,
                      musicExtensions: seq<Extension<MusicInstance>>, clientId: string) returns (r: seq<Lyrics>)
    ensures r == AllLyrics(settings, lyricsExtensions, musicExtensions, clientId)
    ensures PreferLyricsFrom(settings).None? ==>
              r == Collect(lyricsExtensions, LyricsContribution) + Collect(musicExtensions, MusicContribution)
    ensures PreferLyricsFrom(settings).Some? ==>
              multiset(r) == multiset(Potential(lyricsExtensions, musicExtensions))
                             + multiset(FilterId(FilterName(Potential(lyricsExtensions, musicExtensions),
                                                            PreferLyricsFrom(settings).value, true), clientId, true))
  {
    var potentialLyrics: seq<Lyrics> := [];
    potentialLyrics := potentialLyrics + Collect(lyricsExtensions, LyricsContribution);
    potentialLyrics := potentialLyrics + Collect(musicExtensions, MusicContribution);
    assert potentialLyrics == Potential(lyricsExtensions, musicExtensions);
    var preferred := PreferLyricsFrom(settings);
    if preferred.None? {
      return potentialLyrics;
    }
    var preferredLyrics := FilterName(potentialLyrics, preferred.value, true);
    var currentClient := FilterId(potentialLyrics, clientId, true);
    var otherLyrics := FilterId(FilterName(potentialLyrics, preferred.value, false), clientId, false);
    r := preferredLyrics + currentClient + otherLyrics;
    assert r == Ordered(potentialLyrics, preferred.value, clientId);
    OrderedCounts(potentialLyrics, preferred.value, clientId);
  }

  // ---------------------------------------------------------------------
  // Loading a candidate (LyricsTranslator.kt:80-95)

  /** `exts.find { it.id == id }`: the first extension with that id. */
  function FindById<I>(exts: seq<Extension<I>>, id: string): Option<Extension<I>>
  {
    Find(exts, (e: Extension<I>) => e.id == id)
  }

  /** The message of the `!!` on a stub without an id tag. */
  const MissingIdMessage := "NullPointerException"
  /** The message of `throw Exception("Extension not found")`. */
  const NotFoundMessage := "Extension not found"
  /** The message of `instance.value().getOrThrow()` on an instance that failed to load. */
  const InstanceFailedMessage := "Extension instance failed to load"
  /** A stub resolved to this translator itself makes `loadLyrics` call itself on the same stub without end. */
  const SelfLoadMessage := "StackOverflowError"

  /** The client a stub's extension resolves to: its lyrics API, none (not a `LyricsClient`), or an error. */
  function LyricsClientOf(found: Option<Extension<LyricsInstance>>, music: Option<Extension<MusicInstance>>): (r: Result<Option<LyricsApi>, string>)
    ensures found.Some? ==> (r.Ok? <==> found.value.instance.LyricsClient?)
    ensures found.Some? && r.Ok? ==> r.value == Some(found.value.instance.api)
    ensures found.None? && music.Some? ==> (r.Ok? <==> music.value.instance.MusicClient?)
    ensures found.None? && music.Some? && r.Ok? ==> r.value == music.value.instance.lyricsApi
    ensures found.None? && music.None? ==> r == Err(NotFoundMessage)
  {
    match found
    case Some(ext) =>
      (match ext.instance
       case LyricsInstanceFailed => Err(InstanceFailedMessage)
       case TranslatorInstance => Err(SelfLoadMessage)
       case LyricsClient(api) => Ok(Some(api)))
    case None =>
      match music
      case Some(ext) =>
        (match ext.instance
         case MusicInstanceFailed => Err(InstanceFailedMessage)
         case MusicClient(api) => Ok(api))
      case None => Err(NotFoundMessage)
  }

  /** What `loadLyrics(lyrics)` gives when the translation cache holds `entries` (LyricsTranslator.kt:80-95). */
  function LoadOutcome(entries: Entries<map<string, string>>, lyrics: Lyrics, settings: Settings, languages: seq<Language>,
                       lyricsExtensions: seq<Extension<LyricsInstance>>, musicExtensions: seq<Extension<MusicInstance>>,
                       translator: Translator, hash: string -> int): Result<Lyrics, string>
  {
    var language := SelectedLanguage(settings, languages);
    if lyrics.lyrics.Some? then LyricsOutcome(entries, lyrics, language, translator, hash)
    else
      match GetIdFromLyric(lyrics)
      case None => Err(MissingIdMessage)
      case Some(id) =>
        match LyricsClientOf(FindById(lyricsExtensions, id), FindById(musicExtensions, id))
        case Err(e) => Err(e)
        case Ok(None) => Ok(lyrics)
        case Ok(Some(api)) =>
          match api.load
          case Err(e) => Err(e)
          case Ok(loaded) => LyricsOutcome(entries, loaded, language, translator, hash)
  }

  /**
   * The lyrics `loadLyrics` passes to `translate`, if it gets that far
   * (LyricsTranslator.kt:81-92): the argument when it has a body, else what
   * the resolved client loads; none for a stub without an id, an unknown id,
   * an instance that failed to load, this translator itself, a client that is
   * not a `LyricsClient`, or a failed `load`.
   */
  function ToTranslate(lyrics: Lyrics, lyricsExtensions: seq<Extension<LyricsInstance>>,
                       musicExtensions: seq<Extension<MusicInstance>>): Option<Lyrics>
  {
    if lyrics.lyrics.Some? then Some(lyrics)
    else
      match GetIdFromLyric(lyrics)
      case None => None
      case Some(id) =>
        match LyricsClientOf(FindById(lyricsExtensions, id), FindById(musicExtensions, id))
        case Ok(Some(api)) => if api.load.Ok? then Some(api.load.value) else None
        case _ => None
  }

  /** `loadLyrics` (LyricsTranslator.kt:80-95). */
  method LoadLyrics(cache: TimeBasedLRUCache<map<string, string>>, lyrics: Lyrics, settings: Settings, languages: seq<Language>,
                    lyricsExtensions: seq<Extension<LyricsInstance>>, musicExtensions: seq<Extension<MusicInstance>>,
                    translator: Translator, hash: string -> int) returns (r: Result<Lyrics, string>)
    requires cache.Valid()
    modifies cache
    ensures cache.Valid()
    ensures r == LoadOutcome(old(cache.cache), lyrics, settings, languages, lyricsExtensions, musicExtensions, translator, hash)
    ensures ToTranslate(lyrics, lyricsExtensions, musicExtensions).None? ==>
              cache.cache == old(cache.cache) && cache.clock == old(cache.clock)
    ensures ToTranslate(lyrics, lyricsExtensions, musicExtensions).Some? ==>
              LyricsCacheEffect(old(cache.cache), old(cache.clock), cache.maxSize,
                                ToTranslate(lyrics, lyricsExtensions, musicExtensions).value,
                                SelectedLanguage(settings, languages), translator, hash, cache.cache, cache.clock)
  {
    if lyrics.lyrics.Some? {
      r := TranslateLyrics(cache, lyrics, SelectedLanguage(settings, languages), translator, hash);
      return;
    }
    var id := GetIdFromLyric(lyrics);
    if id.None? {
      return Err(MissingIdMessage);
    }
    var client := LyricsClientOf(FindById(lyricsExtensions, id.value), FindById(musicExtensions, id.value));
    if client.Err? {
      return Err(client.error);
    }
    if client.value.None? {
      return Ok(lyrics);
    }
    var loaded := client.value.value.load;
    if loaded.Err? {
      return Err(loaded.error);
    }
    r := TranslateLyrics(cache, loaded.value, SelectedLanguage(settings, languages), translator, hash);
  }

  // ---------------------------------------------------------------------
  // Properties

  /**
   * `loadLyrics` is `translate` of what it loads: when it loads something its
   * outcome is that of `Lyrics.translate` on it, and otherwise its outcome
   * does not depend on the translation cache.
   */
  lemma LoadIsTranslateOfLoaded(entries: Entries<map<string, string>>, entries': Entries<map<string, string>>,
                                lyrics: Lyrics, settings: Settings, languages: seq<Language>,
                                lyricsExtensions: seq<Extension<LyricsInstance>>, musicExtensions: seq<Extension<MusicInstance>>,
                                translator: Translator, hash: string -> int)
    ensures var t := ToTranslate(lyrics, lyricsExtensions, musicExtensions);
            t.Some? ==> LoadOutcome(entries, lyrics, settings, languages, lyricsExtensions, musicExtensions, translator, hash)
                        == LyricsOutcome(entries, t.value, SelectedLanguage(settings, languages), translator, hash)
    ensures ToTranslate(lyrics, lyricsExtensions, musicExtensions).None? ==>
              LoadOutcome(entries, lyrics, settings, languages, lyricsExtensions, musicExtensions, translator, hash)
              == LoadOutcome(entries', lyrics, settings, languages, lyricsExtensions, musicExtensions, translator, hash)
  {
  }

  /** Collecting over two lists of providers is collecting over each in turn. */
  lemma {:induction false} CollectAppend<I>(a: seq<Extension<I>>, b: seq<Extension<I>>, contribution: Extension<I> -> seq<Lyrics>)
    ensures Collect(a + b, contribution) == Collect(a, contribution) + Collect(b, contribution)
  {
    if a == [] {
      assert a + b == b;
    } else {
      assert (a + b)[1..] == a[1..] + b;
      CollectAppend(a[1..], b, contribution);
    }
  }

  /** A provider that contributes nothing can be dropped without changing the others' candidates. */
  lemma SilentProviderIsSkipped<I>(a: seq<Extension<I>>, e: Extension<I>, b: seq<Extension<I>>, contribution: Extension<I> -> seq<Lyrics>)
    requires contribution(e) == []
    ensures Collect(a + [e] + b, contribution) == Collect(a + b, contribution)
  {
    CollectAppend(a + [e], b, contribution);
    CollectAppend(a, [e], contribution);
    CollectAppend(a, b, contribution);
    assert Collect([e], contribution) == contribution(e) + Collect([], contribution);
  }

  /** Disabled lyrics extensions, failing ones, this translator and failed searches contribute nothing, and only they. */
  lemma LyricsContributionCases(ext: Extension<LyricsInstance>)
    ensures !LyricsContributes(ext) ==> LyricsContribution(ext) == []
    ensures LyricsContributes(ext) ==> LyricsContribution(ext) == Tagged(ext.instance.api.search.value, ext)
    ensures !ext.enabled || ext.instance.TranslatorInstance? ==> LyricsContribution(ext) == []
  {
  }

  /** Disabled music extensions, failing ones, non-lyrics clients and failed searches contribute nothing, and only they. */
  lemma MusicContributionCases(ext: Extension<MusicInstance>)
    ensures !MusicContributes(ext) ==> MusicContribution(ext) == []
    ensures MusicContributes(ext) ==> MusicContribution(ext) == Tagged(ext.instance.lyricsApi.value.search.value, ext)
  {
  }

  /** Every collected candidate is some provider's search result passed through `UpdateMetadata` with that provider. */
  lemma {:induction false} CollectProvenance<I>(exts: seq<Extension<I>>, contribution: Extension<I> -> seq<Lyrics>, k: nat)
    requires k < |Collect(exts, contribution)|
    ensures exists i, j :: 0 <= i < |exts| && 0 <= j < |contribution(exts[i])|
                           && Collect(exts, contribution)[k] == contribution(exts[i])[j]
  {
    var first := contribution(exts[0]);
    if k < |first| {
      assert Collect(exts, contribution)[k] == contribution(exts[0])[k];
    } else {
      CollectProvenance(exts[1..], contribution, k - |first|);
      var i, j :| 0 <= i < |exts[1..]| && 0 <= j < |contribution(exts[1..][i])|
                  && Collect(exts[1..], contribution)[k - |first|] == contribution(exts[1..][i])[j];
      assert exts[1..][i] == exts[i + 1];
    }
  }

  /** Each candidate of a search carries the tag of the lyrics extension that found it. */
  lemma LyricsCandidateProvenance(exts: seq<Extension<LyricsInstance>>, k: nat)
    requires k < |Collect(exts, LyricsContribution)|
    ensures exists i, j :: && 0 <= i < |exts| && LyricsContributes(exts[i])
                           && 0 <= j < |exts[i].instance.api.search.value|
                           && Collect(exts, LyricsContribution)[k] == UpdateMetadata(exts[i].instance.api.search.value[j], exts[i])
  {
    CollectProvenance(exts, LyricsContribution, k);
    var i, j :| 0 <= i < |exts| && 0 <= j < |LyricsContribution(exts[i])|
                && Collect(exts, LyricsContribution)[k] == LyricsContribution(exts[i])[j];
    LyricsContributionCases(exts[i]);
  }

  /** Each candidate of a search carries the tag of the music extension that found it. */
  lemma MusicCandidateProvenance(exts: seq<Extension<MusicInstance>>, k: nat)
    requires k < |Collect(exts, MusicContribution)|
    ensures exists i, j :: && 0 <= i < |exts| && MusicContributes(exts[i])
                           && 0 <= j < |exts[i].instance.lyricsApi.value.search.value|
                           && Collect(exts, MusicContribution)[k] == UpdateMetadata(exts[i].instance.lyricsApi.value.search.value[j], exts[i])
  {
    CollectProvenance(exts, MusicContribution, k);
    var i, j :| 0 <= i < |exts| && 0 <= j < |MusicContribution(exts[i])|
                && Collect(exts, MusicContribution)[k] == MusicContribution(exts[i])[j];
    MusicContributionCases(exts[i]);
  }

  /**
   * With a preference set, the ordering loses no candidate and duplicates
   * exactly those that match both the preferred name and the client id:
   * as multisets, the output is the input plus the candidates matching both.
   */
  lemma OrderedCounts(all: seq<Lyrics>, preferred: string, clientId: string)
    ensures multiset(Ordered(all, preferred, clientId))
            == multiset(all) + multiset(FilterId(FilterName(all, preferred, true), clientId, true))
    ensures |Ordered(all, preferred, clientId)| == |all| + |FilterId(FilterName(all, preferred, true), clientId, true)|
  {
    var named := FilterName(all, preferred, true);
    var current := FilterId(all, clientId, true);
    var others := FilterId(FilterName(all, preferred, false), clientId, false);
    var both := FilterId(named, clientId, true);
    var lhs := multiset(Ordered(all, preferred, clientId));
    var rhs := multiset(all) + multiset(both);
    assert lhs == multiset(named) + multiset(current) + multiset(others);
    forall c ensures lhs[c] == rhs[c] {
      assert lhs[c] == multiset(named)[c] + multiset(current)[c] + multiset(others)[c];
      assert multiset(both)[c] == if IdMatches(c, clientId) then multiset(named)[c] else 0;
    }
    assert lhs == rhs;
    assert |lhs| == |rhs|;
  }

  /** The parts of the ordering: who comes first, second and last. */
  lemma OrderedParts(all: seq<Lyrics>, preferred: string, clientId: string, c: Lyrics)
    ensures c in FilterName(all, preferred, true) <==> c in all && NameMatches(c, preferred)
    ensures c in FilterId(all, clientId, true) <==> c in all && IdMatches(c, clientId)
    ensures (c in FilterId(FilterName(all, preferred, false), clientId, false))
            <==> (c in all && !NameMatches(c, preferred) && !IdMatches(c, clientId))
    ensures c in all ==> c in Ordered(all, preferred, clientId)
  {
    assert c in FilterName(all, preferred, true) <==> multiset(FilterName(all, preferred, true))[c] > 0;
    assert c in FilterId(all, clientId, true) <==> multiset(FilterId(all, clientId, true))[c] > 0;
    var n := FilterName(all, preferred, false);
    assert c in n <==> multiset(n)[c] > 0;
    assert c in FilterId(n, clientId, false) <==> multiset(FilterId(n, clientId, false))[c] > 0;
    assert c in all <==> multiset(all)[c] > 0;
  }

  /** The filters keep the candidates' order: filtering a concatenation filters each part. */
  lemma {:induction false} FilterNameAppend(a: seq<Lyrics>, b: seq<Lyrics>, preferred: string, keep: bool)
    ensures FilterName(a + b, preferred, keep) == FilterName(a, preferred, keep) + FilterName(b, preferred, keep)
  {
    if a == [] {
      assert a + b == b;
    } else {
      var head := if NameMatches(a[0], preferred) == keep then [a[0]] else [];
      calc {
        FilterName(a + b, preferred, keep);
        { assert (a + b)[0] == a[0] && (a + b)[1..] == a[1..] + b; }
        head + FilterName(a[1..] + b, preferred, keep);
        { FilterNameAppend(a[1..], b, preferred, keep); }
        head + (FilterName(a[1..], preferred, keep) + FilterName(b, preferred, keep));
        (head + FilterName(a[1..], preferred, keep)) + FilterName(b, preferred, keep);
      }
    }
  }

  lemma {:induction false} FilterIdAppend(a: seq<Lyrics>, b: seq<Lyrics>, clientId: string, keep: bool)
    ensures FilterId(a + b, clientId, keep) == FilterId(a, clientId, keep) + FilterId(b, clientId, keep)
  {
    if a == [] {
      assert a + b == b;
    } else {
      var head := if IdMatches(a[0], clientId) == keep then [a[0]] else [];
      calc {
        FilterId(a + b, clientId, keep);
        { assert (a + b)[0] == a[0] && (a + b)[1..] == a[1..] + b; }
        head + FilterId(a[1..] + b, clientId, keep);
        { FilterIdAppend(a[1..], b, clientId, keep); }
        head + (FilterId(a[1..], clientId, keep) + FilterId(b, clientId, keep));
        (head + FilterId(a[1..], clientId, keep)) + FilterId(b, clientId, keep);
      }
    }
  }

  /** A stub that names an extension known to both lists is loaded from the lyrics extension. */
  lemma LyricsExtensionsFirst(entries: Entries<map<string, string>>, lyrics: Lyrics, settings: Settings, languages: seq<Language>,
                              lyricsExtensions: seq<Extension<LyricsInstance>>, musicExtensions: seq<Extension<MusicInstance>>,
                              otherMusic: seq<Extension<MusicInstance>>, translator: Translator, hash: string -> int)
    requires lyrics.lyrics.None? && GetIdFromLyric(lyrics).Some?
    requires exists i :: 0 <= i < |lyricsExtensions| && lyricsExtensions[i].id == GetIdFromLyric(lyrics).value
    ensures LoadOutcome(entries, lyrics, settings, languages, lyricsExtensions, musicExtensions, translator, hash)
            == LoadOutcome(entries, lyrics, settings, languages, lyricsExtensions, otherMusic, translator, hash)
  {
  }

  /** The dispatch of `loadLyrics`: its error cases and the stub a non-lyrics client leaves as it is. */
  lemma LoadDispatch(entries: Entries<map<string, string>>, lyrics: Lyrics, settings: Settings, languages: seq<Language>,
                     lyricsExtensions: seq<Extension<LyricsInstance>>, musicExtensions: seq<Extension<MusicInstance>>,
                     translator: Translator, hash: string -> int)
    ensures var r := LoadOutcome(entries, lyrics, settings, languages, lyricsExtensions, musicExtensions, translator, hash);
            && (lyrics.lyrics.Some? ==> r == LyricsOutcome(entries, lyrics, SelectedLanguage(settings, languages), translator, hash))
            && (lyrics.lyrics.None? && IdKey !in lyrics.extras ==> r == Err(MissingIdMessage))
            && (lyrics.lyrics.None? && IdKey in lyrics.extras
                && (forall i :: 0 <= i < |lyricsExtensions| ==> lyricsExtensions[i].id != lyrics.extras[IdKey])
                && (forall i :: 0 <= i < |musicExtensions| ==> musicExtensions[i].id != lyrics.extras[IdKey])
                ==> r == Err(NotFoundMessage))
  {
  }

  /** A tagged candidate names the extension that loads it: tagging then looking the tag up finds that provider. */
  lemma TaggedStubResolves<I>(l: Lyrics, exts: seq<Extension<I>>, i: nat)
    requires i < |exts| && forall j :: 0 <= j < |exts| && j != i ==> exts[j].id != exts[i].id
    ensures GetIdFromLyric(UpdateMetadata(l, exts[i])).Some?
    ensures FindById(exts, GetIdFromLyric(UpdateMetadata(l, exts[i])).value) == Some(exts[i])
  {
    TagRoundTrip(l, exts[i]);
    var r := FindById(exts, exts[i].id);
    var k :| 0 <= k < |exts| && exts[k] == r.value && r.value.id == exts[i].id
             && forall j :: 0 <= j < k ==> exts[j].id != exts[i].id;
  }
}
