/**
 * The testimonials editor: a local copy of the document's `testimonials`
 * list, edited record by record through copies, with a 1-to-5 star rating
 * picked from a fixed list, merged back under that one key.
 */
module TestimonialsEditDialog {
  import opened Wrappers
  import opened Json
  import opened Seqs
  import opened Records
  import opened JsNumber
  import opened EditModeContext

  const SectionKey: string := "testimonials"

  /** The values the rating select offers, best first. */
  const RatingOptions: seq<string> := ["5", "4", "3", "2", "1"]

  /** The record "Add Testimonial" appends: five stars and six empty strings. */
  function NewTestimonial(): (t: Json)
    ensures t.JObj? && t.fields.Keys == {"clientName", "clientRole", "company", "feedback", "rating", "projectName", "date"}
    ensures t.fields["rating"] == JNum(5)
    ensures forall k :: k in t.fields && k != "rating" ==> t.fields[k] == JStr("")
  {
    JObj(map[
      "clientName" := JStr(""), "clientRole" := JStr(""), "company" := JStr(""), "feedback" := JStr(""),
      "rating" := JNum(5), "projectName" := JStr(""), "date" := JStr("")])
  }

  /** A parsed number as stored in the record (a failed parse is stored as `null`). */
  function ParsedValue(p: Parsed): (v: Json)
    ensures p.Num? ==> v == JNum(p.n)
    ensures p.NaN? ==> v == JNull
  {
    if p.Num? then JNum(p.n) else JNull
  }

  /** The star count an option stands for: the option is its decimal form. */
  function Stars(option: string): (n: int)
    requires option in RatingOptions
    ensures 1 <= n <= 5 && NumberToString(n) == option
  {
    assert NumberToString(5) == "5" && NumberToString(4) == "4" && NumberToString(3) == "3";
    assert NumberToString(2) == "2" && NumberToString(1) == "1";
    if option == "5" then 5
    else if option == "4" then 4
    else if option == "3" then 3
    else if option == "2" then 2
    else 1
  }

  /** `parseInt` of a chosen option: the option's whole number of stars, from 1 to 5. */
  function RatingValue(option: string): (v: Json)
    requires option in RatingOptions
    ensures v == JNum(Stars(option))
    ensures 1 <= v.n <= 5
  {
    var parsed := ParseInt(option);
    ParseIntOfNumberToString(Stars(option));
    ParsedValue(parsed)
  }

  /** The select shows `rating.toString()`: a stored rating from 1 to 5 is one of the options and reads back as itself. */
  lemma RatingShownIsOption(n: int)
    requires 1 <= n <= 5
    ensures NumberToString(n) in RatingOptions
    ensures RatingValue(NumberToString(n)) == JNum(n)
  {
    assert NumberToString(5) == "5" && NumberToString(4) == "4" && NumberToString(3) == "3";
    assert NumberToString(2) == "2" && NumberToString(1) == "1";
  }

  class Dialog {
    var testimonials: seq<Json>

    /** The local list starts as the document's testimonials, or empty. */
    constructor(profileData: Doc)
      requires ListOrEmpty(profileData, SectionKey).Some?
      ensures testimonials == ListOrEmpty(profileData, SectionKey).value
    {
      testimonials := ListOrEmpty(profileData, SectionKey).value;
    }

    /** The effect on `profileData.testimonials`: the local list follows the document. */
    method Resync(profileData: Doc)
      requires ListOrEmpty(profileData, SectionKey).Some?
      modifies this
      ensures testimonials == ListOrEmpty(profileData, SectionKey).value
    {
      testimonials := ListOrEmpty(profileData, SectionKey).value;
    }

    /** Append one five-star, otherwise empty testimonial; earlier ones are kept. */
    method HandleAddTestimonial()
      modifies this
      ensures |testimonials| == |old(testimonials)| + 1
      ensures testimonials[..|old(testimonials)|] == old(testimonials)
      ensures testimonials[|old(testimonials)|] == NewTestimonial()
    {
      testimonials := testimonials + [NewTestimonial()];
    }

    /** Drop the testimonial at `index`; later ones shift down. */
    method HandleRemoveTestimonial(index: int)
      modifies this
      ensures testimonials == RemoveAt(old(testimonials), index)
      ensures 0 <= index < |old(testimonials)| ==>
        testimonials == old(testimonials)[..index] + old(testimonials)[index + 1..]
      ensures !(0 <= index < |old(testimonials)|) ==> testimonials == old(testimonials)
    {
      RemoveAtShifts(testimonials, index);
      testimonials := RemoveAt(testimonials, index);
    }

    /** Replace testimonial `index` by a copy with `field` set; everything else is kept. */
    method HandleTestimonialChange(index: int, field: string, value: Json)
      requires 0 <= index < |testimonials|
      modifies this
      ensures testimonials == SetField(old(testimonials), index, field, value)
    {
      testimonials := SetField(testimonials, index, field, value);
    }

    /** Pick a rating from the select: the record holds a whole number from 1 to 5. */
    method HandleRatingChange(index: int, option: string)
      requires 0 <= index < |testimonials|
      requires option in RatingOptions
      modifies this
      ensures testimonials == SetField(old(testimonials), index, "rating", RatingValue(option))
      ensures testimonials[index].fields["rating"].JNum?
      ensures 1 <= testimonials[index].fields["rating"].n <= 5
    {
      HandleTestimonialChange(index, "rating", RatingValue(option));
    }

    /** Merge the local list into the document under `testimonials` only. */
    method HandleSave(provider: EditModeProvider)
      modifies provider
      ensures provider.profileData == WithKey(old(provider.profileData), SectionKey, JArr(testimonials))
      ensures provider.Valid() && provider.isEditMode == old(provider.isEditMode)
      ensures provider.storage == old(provider.storage)[CacheKey := provider.profileData]
    {
      provider.UpdateProfileData(WithKey(provider.profileData, SectionKey, JArr(testimonials)));
    }
  }
}
