/**
 * The special-events editor: a local copy of the document's `specialEvents`
 * list, edited record by record through copies, and merged back into the
 * document under that one key.
 */
module SpecialEventsEditDialog {
  import opened Wrappers
  import opened Json
  import opened Seqs
  import opened ListText
  import opened Records
  import opened EditModeContext

  const SectionKey: string := "specialEvents"

  /** The record "Add Event" appends: six empty strings and no tags. */
  function NewEvent(): (e: Json)
    ensures e.JObj? && e.fields.Keys == {"title", "date", "location", "description", "imageUrl", "badge", "tags"}
    ensures forall k :: k in e.fields && k != "tags" ==> e.fields[k] == JStr("")
    ensures e.fields["tags"] == JArr([])
  {
    JObj(map[
      "title" := JStr(""), "date" := JStr(""), "location" := JStr(""), "description" := JStr(""),
      "imageUrl" := JStr(""), "badge" := JStr(""), "tags" := JArr([])])
  }

  /** The tags stored for the text typed into the tags input. */
  function TagsValue(text: string): (v: Json)
    ensures v.JArr? && AllStrings(v.items)
  {
    var tags := ParseCommaList(text);
    JArr(Strs(tags))
  }

  /**
   * The tags input's text, `event.tags?.join(', ') || ''`: empty when the
   * record has no tags, `None` when `tags` is a value without `join` (the
   * source fails there).
   */
  function TagsText(event: Doc): (t: Option<string>)
    ensures "tags" !in event || event["tags"] == JNull ==> t == Some("")
    ensures "tags" in event && event["tags"].JArr? ==> t == Some(JoinValues(event["tags"].items, ", "))
    ensures t == None <==> "tags" in event && !event["tags"].JNull? && !event["tags"].JArr?
  {
    if "tags" !in event || event["tags"] == JNull then Some("")
    else if event["tags"].JArr? then Some(JoinValues(event["tags"].items, ", "))
    else None
  }

  /** Trimmed, non-empty, comma-free tags are shown so that reading the text back gives them again. */
  lemma TagsRoundTrip(event: Doc, tags: seq<string>)
    requires forall i :: 0 <= i < |tags| ==> CleanCommaItem(tags[i])
    requires "tags" in event && event["tags"] == JArr(Strs(tags))
    ensures TagsText(event) == Some(FormatCommaList(tags))
    ensures TagsValue(TagsText(event).value) == JArr(Strs(tags))
  {
    JoinStrs(tags, ", ");
    CommaRoundTrip(tags);
  }

  /** Whatever was typed, re-reading the shown tags gives the stored tags back. */
  lemma TagsStable(event: Doc, text: string)
    requires "tags" in event && event["tags"] == TagsValue(text)
    ensures TagsText(event).Some?
    ensures TagsValue(TagsText(event).value) == TagsValue(text)
  {
    TagsRoundTrip(event, ParseCommaList(text));
  }

  /** An image upload in flight: the event's position and the list its handler closed over. */
  datatype Upload = Upload(index: int, captured: seq<Json>)

  class Dialog {
    var events: seq<Json>

    /** The local list starts as the document's events, or empty. */
    constructor(profileData: Doc)
      requires ListOrEmpty(profileData, SectionKey).Some?
      ensures events == ListOrEmpty(profileData, SectionKey).value
    {
      events := ListOrEmpty(profileData, SectionKey).value;
    }

    /** The effect on `profileData.specialEvents`: the local list follows the document. */
    method Resync(profileData: Doc)
      requires ListOrEmpty(profileData, SectionKey).Some?
      modifies this
      ensures events == ListOrEmpty(profileData, SectionKey).value
    {
      events := ListOrEmpty(profileData, SectionKey).value;
    }

    /** Append one empty event; the earlier events are kept as they are. */
    method HandleAddEvent()
      modifies this
      ensures |events| == |old(events)| + 1
      ensures events[..|old(events)|] == old(events) && events[|old(events)|] == NewEvent()
    {
      events := events + [NewEvent()];
    }

    /** Drop the event at `index`; later events shift down. */
    method HandleRemoveEvent(index: int)
      modifies this
      ensures events == RemoveAt(old(events), index)
      ensures 0 <= index < |old(events)| ==> events == old(events)[..index] + old(events)[index + 1..]
      ensures !(0 <= index < |old(events)|) ==> events == old(events)
    {
      RemoveAtShifts(events, index);
      events := RemoveAt(events, index);
    }

    /** Replace event `index` by a copy with `field` set; every other event and field is kept. */
    method HandleEventChange(index: int, field: string, value: Json)
      requires 0 <= index < |events|
      modifies this
      ensures events == SetField(old(events), index, field, value)
    {
      events := SetField(events, index, field, value);
    }

    /** Store the comma-separated tags typed for event `index`. */
    method HandleTagsChange(index: int, text: string)
      requires 0 <= index < |events|
      modifies this
      ensures events == SetField(old(events), index, "tags", TagsValue(text))
      ensures forall i :: 0 <= i < |events[index].fields["tags"].items| ==>
        CleanCommaItem(events[index].fields["tags"].items[i].s)
    {
      HandleEventChange(index, "tags", TagsValue(text));
    }

    /** The remove-image button: `imageUrl` becomes empty, nothing else changes. */
    method ClearImage(index: int)
      requires 0 <= index < |events|
      modifies this
      ensures events == SetField(old(events), index, "imageUrl", JStr(""))
    {
      HandleEventChange(index, "imageUrl", JStr(""));
    }

    /**
     * The start of an image upload for event `index`. Signed out, no upload
     * starts; otherwise the asynchronous handler goes on with the list of the
     * render that started it.
     */
    method StartImageUpload(index: int, signedIn: bool) returns (upload: Option<Upload>)
      requires 0 <= index < |events|
      ensures upload.Some? <==> signedIn
      ensures upload.Some? ==> upload.value.index == index && upload.value.captured == events
    {
      if !signedIn {
        return None;
      }
      upload := Some(Upload(index, events));
    }

    /**
     * The end of an image upload, as written: a successful upload's public
     * address is set as `imageUrl` on a copy of the CAPTURED list, which then
     * replaces the current list; a failed upload changes nothing. The
     * upload itself is a parameter.
     */
    method FinishImageUpload(upload: Upload, publicUrl: Option<string>)
      requires 0 <= upload.index < |upload.captured|
      modifies this
      ensures publicUrl.None? ==> events == old(events)
      ensures publicUrl.Some? ==> events == SetField(upload.captured, upload.index, "imageUrl", JStr(publicUrl.value))
    {
      if publicUrl.Some? {
        events := SetField(upload.captured, upload.index, "imageUrl", JStr(publicUrl.value));
      }
    }

    /**
     * The end of an image upload as evidently intended: the address is set
     * on the list as it is when the upload finishes, so edits made meanwhile
     * are kept; if the event is gone by then, the list is left as it is.
     */
    method FinishImageUploadOnCurrent(upload: Upload, publicUrl: Option<string>)
      modifies this
      ensures publicUrl.Some? && 0 <= upload.index < |old(events)| ==>
        events == SetField(old(events), upload.index, "imageUrl", JStr(publicUrl.value))
      ensures publicUrl.None? || !(0 <= upload.index < |old(events)|) ==> events == old(events)
    {
      if publicUrl.Some? && 0 <= upload.index < |events| {
        events := SetField(events, upload.index, "imageUrl", JStr(publicUrl.value));
      }
    }

    /** Merge the local list into the document under `specialEvents` only. */
    method HandleSave(provider: EditModeProvider)
      modifies provider
      ensures provider.profileData == WithKey(old(provider.profileData), SectionKey, JArr(events))
      ensures provider.Valid() && provider.isEditMode == old(provider.isEditMode)
      ensures provider.storage == old(provider.storage)[CacheKey := provider.profileData]
    {
      provider.UpdateProfileData(WithKey(provider.profileData, SectionKey, JArr(events)));
    }
  }

  /** After a save, re-reading the document's events gives exactly the saved list. */
  lemma SavedEventsReadBack(doc: Doc, events: seq<Json>)
    ensures ListOrEmpty(WithKey(doc, SectionKey, JArr(events)), SectionKey) == Some(events)
  {
  }

  /**
   * As written, a title typed while an image uploads is lost when the upload
   * finishes: the event gets the new image but its title reverts.
   */
  method UploadDropsTitleTypedMeanwhile(d: Dialog, index: int, title: string, url: string)
    requires 0 <= index < |d.events| && d.events[index].JObj? && "title" in d.events[index].fields
    requires d.events[index].fields["title"] != JStr(title)
    modifies d
    ensures 0 <= index < |d.events| && d.events[index].JObj?
    ensures "imageUrl" in d.events[index].fields && "title" in d.events[index].fields
    ensures d.events[index].fields["imageUrl"] == JStr(url)
    ensures d.events[index].fields["title"] == old(d.events[index].fields["title"])
    ensures d.events[index].fields["title"] != JStr(title)
  {
    var upload := d.StartImageUpload(index, true);
    d.HandleEventChange(index, "title", JStr(title));
    d.FinishImageUpload(upload.value, Some(url));
  }

  /** With the update applied to the current list, the title typed meanwhile is kept beside the new image. */
  method UploadKeepsTitleTypedMeanwhile(d: Dialog, index: int, title: string, url: string)
    requires 0 <= index < |d.events|
    modifies d
    ensures 0 <= index < |d.events| && d.events[index].JObj?
    ensures "imageUrl" in d.events[index].fields && "title" in d.events[index].fields
    ensures d.events[index].fields["imageUrl"] == JStr(url)
    ensures d.events[index].fields["title"] == JStr(title)
  {
    var upload := d.StartImageUpload(index, true);
    d.HandleEventChange(index, "title", JStr(title));
    d.FinishImageUploadOnCurrent(upload.value, Some(url));
  }
}
