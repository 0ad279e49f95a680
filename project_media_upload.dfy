/**
 * The project media gallery editor: a list of media addresses that grows by
 * typed URLs, shrinks by index, and classifies each address as a video or an
 * image for display.
 */
module ProjectMediaUpload {
  import opened Wrappers
  import opened JsString
  import opened Seqs

  /** The file extensions shown as video, in lower case. */
  const VideoExtensions: seq<string> := [".mp4", ".webm", ".ogg", ".mov"]

  /** The last `|e|` characters of `url`, lower-cased, are `e`. */
  predicate HasExtension(url: string, e: string) {
    |e| <= |url| && LowerAsciiString(url[|url| - |e|..]) == e
  }

  /** The classification stated by position: an extension at the very end, or a host name anywhere. */
  ghost predicate IsVideoByPosition(url: string) {
    || (exists j :: 0 <= j < |VideoExtensions| && HasExtension(url, VideoExtensions[j]))
    || (exists i :: OccursAt(url, "youtube.com", i))
    || (exists i :: OccursAt(url, "youtu.be", i))
  }

  lemma LowerAsciiSuffix(url: string, n: nat)
    requires n <= |url|
    ensures LowerAsciiString(url)[|url| - n..] == LowerAsciiString(url[|url| - n..])
  {
  }

  lemma EndsWithIgnoreCaseIff(url: string, e: string)
    requires LowerAsciiString(e) == e
    ensures EndsWithIgnoreCase(url, e) <==> HasExtension(url, e)
  {
    if |e| <= |url| {
      LowerAsciiSuffix(url, |e|);
    }
  }

  /**
   * `/\.(mp4|webm|ogg|mov)$/i` matches, or the address mentions `youtube.com`
   * or `youtu.be`: exactly when one of the four extensions ends the address,
   * in any letter case, or a host name occurs in it.
   */
  function IsVideo(url: string): (video: bool)
    ensures video <==> IsVideoByPosition(url)
  {
    assert LowerAsciiString(".mp4") == ".mp4" && LowerAsciiString(".webm") == ".webm";
    assert LowerAsciiString(".ogg") == ".ogg" && LowerAsciiString(".mov") == ".mov";
    EndsWithIgnoreCaseIff(url, ".mp4");
    EndsWithIgnoreCaseIff(url, ".webm");
    EndsWithIgnoreCaseIff(url, ".ogg");
    EndsWithIgnoreCaseIff(url, ".mov");
    IncludesIff(url, "youtube.com");
    IncludesIff(url, "youtu.be");
    assert HasExtension(url, ".mp4") ==> HasExtension(url, VideoExtensions[0]);
    assert HasExtension(url, ".webm") ==> HasExtension(url, VideoExtensions[1]);
    assert HasExtension(url, ".ogg") ==> HasExtension(url, VideoExtensions[2]);
    assert HasExtension(url, ".mov") ==> HasExtension(url, VideoExtensions[3]);
    || EndsWithIgnoreCase(url, ".mp4") || EndsWithIgnoreCase(url, ".webm")
    || EndsWithIgnoreCase(url, ".ogg") || EndsWithIgnoreCase(url, ".mov")
    || Includes(url, "youtube.com") || Includes(url, "youtu.be")
  }

  /** Any address ending in a video extension, whatever the letter case, is a video. */
  lemma VideoExtensionAnyCase(prefix: string, ext: string)
    requires LowerAsciiString(ext) in VideoExtensions
    ensures IsVideo(prefix + ext)
  {
    var url := prefix + ext;
    assert url[|url| - |ext|..] == ext;
    var j :| 0 <= j < |VideoExtensions| && VideoExtensions[j] == LowerAsciiString(ext);
    assert HasExtension(url, VideoExtensions[j]);
  }

  /** Any address mentioning either YouTube host name is a video, wherever the name occurs. */
  lemma YouTubeIsVideo(before: string, host: string, after: string)
    requires host == "youtube.com" || host == "youtu.be"
    ensures IsVideo(before + host + after)
  {
    var url := before + host + after;
    assert url[|before|..|before| + |host|] == host;
    assert OccursAt(url, host, |before|);
  }

  /** The editor's state: the gallery being edited and the URL input's text. */
  class MediaUpload {
    var mediaItems: seq<string>
    var urlInput: string

    /** The gallery starts as the given media, or empty when there are none. */
    constructor(media: Option<seq<string>>)
      ensures mediaItems == (if media.Some? then media.value else [])
      ensures urlInput == ""
    {
      mediaItems := if media.Some? then media.value else [];
      urlInput := "";
    }

    /** Typing into the URL input. */
    method SetUrlInput(text: string)
      modifies this
      ensures urlInput == text && mediaItems == old(mediaItems)
    {
      urlInput := text;
    }

    /**
     * "Add URL": blank input is refused and nothing changes; otherwise the
     * trimmed address is appended and the input is cleared.
     */
    method HandleAddUrl() returns (added: bool)
      modifies this
      ensures added <==> !IsBlank(old(urlInput))
      ensures !added ==> mediaItems == old(mediaItems) && urlInput == old(urlInput)
      ensures added ==> mediaItems == old(mediaItems) + [Trim(old(urlInput))] && urlInput == ""
      ensures added ==> mediaItems[|mediaItems| - 1] != [] && IsTrimmed(mediaItems[|mediaItems| - 1])
    {
      var url := Trim(urlInput);
      if url == [] {
        return false;
      }
      mediaItems := mediaItems + [url];
      urlInput := "";
      return true;
    }

    /** Drop the item at `index`; later items shift down. */
    method HandleRemove(index: int)
      modifies this
      ensures mediaItems == RemoveAt(old(mediaItems), index)
      ensures 0 <= index < |old(mediaItems)| ==>
        mediaItems == old(mediaItems)[..index] + old(mediaItems)[index + 1..]
      ensures !(0 <= index < |old(mediaItems)|) ==> mediaItems == old(mediaItems)
      ensures urlInput == old(urlInput)
    {
      RemoveAtShifts(mediaItems, index);
      mediaItems := RemoveAt(mediaItems, index);
    }

    /** Hand the gallery to the caller's save callback, unchanged. */
    method HandleSave() returns (saved: seq<string>)
      ensures saved == mediaItems
    {
      saved := mediaItems;
    }
  }
}
