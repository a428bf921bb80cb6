/**
 * lyricsTranslator/helpers/Other.kt: tagging a candidate with the extension
 * it came from, reading that tag back, and two small list helpers.
 */
module TagHelpers {
  import opened Wrappers
  import opened Models
  import opened KotlinStd

  const IdKey := "lyricExtensionId"
  const NameKey := "lyricExtensionName"

  /** `findAll` from position `from` on, over the code units of a string. */
  function FindAllFrom(units: seq<CodeUnit>, c: CodeUnit, from: nat): (r: seq<nat>)
    requires from <= |units|
    ensures forall k :: 0 <= k < |r| ==> from <= r[k] < |units| && units[r[k]] == c
    ensures forall i :: from <= i < |units| && units[i] == c ==> i in r
    ensures forall k, l :: 0 <= k < l < |r| ==> r[k] < r[l]
    decreases |units| - from
  {
    if from == |units| then []
    else (if units[from] == c then [from] else []) + FindAllFrom(units, c, from + 1)
  }

  /**
   * `String.findAll(char)`: exactly the indices holding the `Char` `c`,
   * ascending; as in Kotlin, indices count UTF-16 code units.
   */
  function FindAll(s: string, c: CodeUnit): (r: seq<nat>)
    ensures forall k :: 0 <= k < |r| ==> r[k] < Length(s) && Utf16(s)[r[k]] == c
    ensures forall i :: 0 <= i < Length(s) && Utf16(s)[i] == c ==> i in r
    ensures forall k, l :: 0 <= k < l < |r| ==> r[k] < r[l]
  {
    FindAllFrom(Utf16(s), c, 0)
  }

  /** In a string with no character outside the BMP, `findAll` gives the positions of the character itself. */
  lemma FindAllPlain(s: string, c: char)
    requires !Astral(c) && forall i :: 0 <= i < |s| ==> !Astral(s[i])
    ensures var r := FindAll(s, c as int);
            && (forall k :: 0 <= k < |r| ==> r[k] < |s| && s[r[k]] == c)
            && (forall i :: 0 <= i < |s| && s[i] == c ==> i in r)
  {
    LengthCounts(s);
  }

  /** `T.listOf()`: the one-element list holding the receiver. */
  function ListOf<T>(x: T): (r: seq<T>)
    ensures |r| == 1 && r[0] == x
  {
    [x]
  }

  /** The displayed subtitle after tagging: the extension name, then the old subtitle if there was one. */
  function TaggedSubtitle(name: string, previous: Option<string>): string
  {
    match previous
    case None => name
    case Some(s) => name + ": " + s
  }

  /** `Lyrics.updateMetadata(extension)` */
  function UpdateMetadata<I>(l: Lyrics, ext: Extension<I>): (r: Lyrics)
    ensures r.id == l.id && r.title == l.title && r.lyrics == l.lyrics
    ensures l.subtitle == None ==> r.subtitle == Some(ext.name)
    ensures l.subtitle.Some? ==> r.subtitle == Some(ext.name + ": " + l.subtitle.value)
    ensures r.extras.Keys == l.extras.Keys + {IdKey, NameKey}
    ensures r.extras[IdKey] == ext.id && r.extras[NameKey] == ext.name
    ensures forall k :: k in l.extras && k != IdKey && k != NameKey ==> r.extras[k] == l.extras[k]
  {
    l.(subtitle := Some(TaggedSubtitle(ext.name, l.subtitle)),
       extras := l.extras + map[IdKey := ext.id, NameKey := ext.name])
  }

  /** `Lyrics.getIdFromLyric()` */
  function GetIdFromLyric(l: Lyrics): (r: Option<string>)
    ensures r.Some? <==> IdKey in l.extras
    ensures r.Some? ==> r.value == l.extras[IdKey]
  {
    if IdKey in l.extras then Some(l.extras[IdKey]) else None
  }

  /** The tag written by `UpdateMetadata` is the one `GetIdFromLyric` reads. */
  lemma TagRoundTrip<I>(l: Lyrics, ext: Extension<I>)
    ensures GetIdFromLyric(UpdateMetadata(l, ext)) == Some(ext.id)
  {
  }
}
