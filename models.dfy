/**
 * The host framework's types as the translator sees them: lyrics candidates,
 * provider extensions with what their client answers, settings and the
 * translation backend's languages.
 */
module Models {
  import opened Wrappers

  /** One timed line (`Lyrics.Item`). */
  datatype Item = Item(text: string, startTime: int, endTime: int)

  /** A lyrics body: `Lyrics.Timed`, `Lyrics.Simple`, or a kind the translator passes through untouched. */
  datatype Body = Timed(list: seq<Item>) | Simple(text: string) | OtherKind

  /** A lyrics candidate; `lyrics == None` is a stub that only carries its provenance in `extras`. */
  datatype Lyrics = Lyrics(
    id: string,
    title: string,
    subtitle: Option<string>,
    lyrics: Option<Body>,
    extras: map<string, string>)

  /** What a `LyricsClient` answers: its search results, and what loading a stub gives. */
  datatype LyricsApi = LyricsApi(search: Result<seq<Lyrics>, string>, load: Result<Lyrics, string>)

  /** The instance of a lyrics extension: failing to load, this translator itself, or another lyrics client. */
  datatype LyricsInstance = LyricsInstanceFailed | TranslatorInstance | LyricsClient(api: LyricsApi)

  /** The instance of a music extension; `lyricsApi == None` when its client is not a `LyricsClient`. */
  datatype MusicInstance = MusicInstanceFailed | MusicClient(lyricsApi: Option<LyricsApi>)

  /** An extension handle: identity, the enabled flag of its metadata, and its instance. */
  datatype Extension<I> = Extension(id: string, name: string, enabled: bool, instance: I)

  /** The extension's stored settings: `getBoolean` and `getString` give `null` for an unset key. */
  datatype Settings = Settings(booleans: map<string, bool>, strings: map<string, string>)
  {
    function GetBoolean(key: string): Option<bool>
    {
      if key in booleans then Some(booleans[key]) else None
    }

    function GetString(key: string): Option<string>
    {
      if key in strings then Some(strings[key]) else None
    }
  }

  /** A language of the translation backend, identified by its code. */
  datatype Language = Language(name: string, code: string)

  const English := Language("ENGLISH", "en")

  /** The backend call `translateCatching(text, language, AUTO)`: the translated text, or `None` on failure. */
  type Translator = (string, Language) -> Option<string>
}
