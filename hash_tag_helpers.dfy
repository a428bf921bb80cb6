/**
 * helpers/Other.kt: the older variant of the tagging helpers, which records
 * only the extension id, under the key `lyricHashcode`. Its `findAll` and
 * `listOf` (lines 6-11) are the same text as in lyricsTranslator/helpers/Other.kt
 * and are `TagHelpers.FindAll` and `TagHelpers.ListOf`.
 */
module HashTagHelpers {
  import opened Wrappers
  import opened Models
  import TagHelpers

  const HashKey := "lyricHashcode"

  /** `Lyrics.updateMetadata(extension)` of this variant. */
  function UpdateMetadata<I>(l: Lyrics, ext: Extension<I>): (r: Lyrics)
    ensures r.id == l.id && r.title == l.title && r.lyrics == l.lyrics
    ensures l.subtitle == None ==> r.subtitle == Some(ext.name)
    ensures l.subtitle.Some? ==> r.subtitle == Some(ext.name + ": " + l.subtitle.value)
    ensures r.extras.Keys == l.extras.Keys + {HashKey}
    ensures r.extras[HashKey] == ext.id
    ensures forall k :: k in l.extras && k != HashKey ==> r.extras[k] == l.extras[k]
  {
    l.(subtitle := Some(TagHelpers.TaggedSubtitle(ext.name, l.subtitle)),
       extras := l.extras[HashKey := ext.id])
  }

  /** `Lyrics.getIdFromLyric()` of this variant. */
  function GetIdFromLyric(l: Lyrics): (r: Option<string>)
    ensures r.Some? <==> HashKey in l.extras
    ensures r.Some? ==> r.value == l.extras[HashKey]
  {
    if HashKey in l.extras then Some(l.extras[HashKey]) else None
  }

  lemma TagRoundTrip<I>(l: Lyrics, ext: Extension<I>)
    ensures GetIdFromLyric(UpdateMetadata(l, ext)) == Some(ext.id)
  {
  }
}
