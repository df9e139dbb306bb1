/**
 * File type detection by extension (utils/files/typedetect.go). Go's MIME
 * table (mime.TypeByExtension) is a parameter: a function from a dotted
 * extension to a MIME type, "" when the extension is unknown.
 */
module TypeDetect {

  const VideoExtensions: seq<string> := [".mp4", ".mkv", ".avi", ".mov", ".wmv", ".flv", ".webm"]
  const AudioExtensions: seq<string> := [".mp3", ".wav", ".aac", ".flac", ".ogg", ".m4a", ".wma"]

  /** The type reported for a non-empty extension the MIME table does not know. */
  const OctetStream := "application/octet-stream"

  /** slices.Contains: a linear scan of the list. */
  function ListContains(list: seq<string>, x: string): (r: bool)
    ensures r <==> x in list
  {
    if list == [] then false
    else
      assert list == [list[0]] + list[1..];
      list[0] == x || ListContains(list[1..], x)
  }

  /** A non-empty extension with a leading dot added when it has none. */
  function Dotted(extension: string): (d: string)
    requires extension != ""
    ensures d != "" && d[0] == '.'
    ensures extension[0] == '.' ==> d == extension
    ensures extension[0] != '.' ==> d == "." + extension
  {
    if extension[0] != '.' then "." + extension else extension
  }

  /** GetMimeTypeByExtension: "" for "", otherwise the table's type for the dotted extension, or the octet-stream fallback. */
  function GetMimeTypeByExtension(extension: string, typeByExtension: string -> string): (r: string)
    ensures extension == "" ==> r == ""
    ensures extension != "" ==> r != ""
    ensures extension != "" && typeByExtension(Dotted(extension)) != "" ==> r == typeByExtension(Dotted(extension))
    ensures extension != "" && typeByExtension(Dotted(extension)) == "" ==> r == OctetStream
  {
    if extension == "" then ""
    else
      var mimeType := typeByExtension(Dotted(extension));
      if mimeType == "" then OctetStream else mimeType
  }

  /** "x" and ".x" are looked up alike. */
  lemma DotIsOptional(x: string, typeByExtension: string -> string)
    requires x != "" && x[0] != '.'
    ensures GetMimeTypeByExtension(x, typeByExtension) == GetMimeTypeByExtension("." + x, typeByExtension)
  {
  }

  function IsVideo(extension: string): (r: bool)
    ensures r <==> extension in VideoExtensions
  {
    ListContains(VideoExtensions, extension)
  }

  function IsAudio(extension: string): (r: bool)
    ensures r <==> extension in AudioExtensions
  {
    ListContains(AudioExtensions, extension)
  }

  /** IsVideo accepts exactly the seven listed extensions. */
  lemma VideoExactly(extension: string)
    ensures IsVideo(extension) <==>
      extension in {".mp4", ".mkv", ".avi", ".mov", ".wmv", ".flv", ".webm"}
  {
  }

  /** IsAudio accepts exactly the seven listed extensions. */
  lemma AudioExactly(extension: string)
    ensures IsAudio(extension) <==>
      extension in {".mp3", ".wav", ".aac", ".flac", ".ogg", ".m4a", ".wma"}
  {
  }

  /** No extension is both a video and an audio extension. */
  lemma VideoAndAudioDisjoint(extension: string)
    ensures !(IsVideo(extension) && IsAudio(extension))
  {
  }

  /** Neither test adds a dot: an extension without one is neither video nor audio. */
  lemma UndottedIsNeither(extension: string)
    requires extension == "" || extension[0] != '.'
    ensures !IsVideo(extension) && !IsAudio(extension)
  {
  }
}
