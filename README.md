# Portfolio site: profile document, editors and contact form

This project models the logic of a one-page portfolio site. Every section of the site reads
from one profile document: hero, experiences, pet projects, hackathons, special events,
testimonials, skills and so on. An edit-mode provider holds that document, mirrors it into
the browser's local storage, and lets editors replace it.

The model covers:

- **The provider.** Its first and later visits, the edit-mode toggle, and the
  whole-document update with the cache kept in step (`EditModeContext`).
- **The generic list editor.** It is used for several list sections (`ArrayEditDialog`).
  Its records are JavaScript objects that it shares with its caller, so it is a class
  over `Record` objects.
- **The dedicated editors:**
  - special events, with comma-separated tags and an image upload (`SpecialEventsEditDialog`);
  - testimonials, with a 1-to-5 star rating (`TestimonialsEditDialog`);
  - the two skill lists (`SkillsEditDialog`);
  - a project's media gallery, with its video-or-image rule (`ProjectMediaUpload`).
- **Reading sections.** The pet-projects list (`PetProjects`). The project page: its
  route parameter, the not-found view, the Previous/Next buttons and the author shown
  (`ProjectDetail`). The hackathons section with its bullet rule (`Hackathons`).
- **The contact form** (`Contact`). Its schema is a table of checks per field: trim,
  length bounds, e-mail format. The model builds the per-field error map from the
  schema's issues and composes the mail that a valid form opens.

The browser built-ins that this logic depends on are modelled explicitly:

- `trim` over the ECMAScript white-space set, `split`, `join`, `startsWith`, `endsWith`,
  `includes`, and ASCII lower-casing (`JsString`);
- `parseInt` and number-to-string (`JsNumber`);
- JSON values, truthiness, and `obj[key] || []` (`Json`);
- object spread on records (`Records`);
- the comma-list and one-per-line text formats that the editors parse and show (`ListText`).

State that the source changes in place is modelled as classes:

- the provider;
- the list editor and its records;
- the events and testimonials dialogs;
- the media editor;
- the contact form.

Pure computations are modelled as functions, with lemmas that relate them. Examples:

- showing a list and reading it back gives the same list;
- saving the skills twice changes nothing more;
- a save touches exactly one key of the document;
- a field shows an error exactly when it breaks its constraint.

## Model

| member | source | states |
|---|---|---|
| JsString.Trim | src/components/ProjectMediaUpload.tsx:21-26 | the result has no white space at either end, uses only characters of the input, and is empty exactly when the input is blank |
| JsString.TrimStartSuffix | src/components/ProjectMediaUpload.tsx:26 | trimming the start leaves a suffix of the input |
| JsString.TrimEndPrefix | src/components/ProjectMediaUpload.tsx:26 | trimming the end leaves a prefix of the input |
| JsString.TrimBothEnds | src/components/ProjectMediaUpload.tsx:26 | after trimming, neither end of the string is white space |
| JsString.TrimKeepsCharacters | src/components/ProjectMediaUpload.tsx:26 | every character of the trimmed string comes from the input |
| JsString.TrimEmptyIff | src/components/ProjectMediaUpload.tsx:21 | trimming leaves nothing exactly when the input is all white space, so the blank-URL check rejects exactly blank input |
| JsString.TrimIdempotent | src/components/ProjectMediaUpload.tsx:26 | trimming a trimmed string changes nothing |
| JsString.TrimOfTrimmed | src/components/ProjectMediaUpload.tsx:26 | a string without white space at its ends is its own trim |
| JsString.TrimPadded | src/components/SpecialEventsEditDialog.tsx:87 | blank text in front of a string does not change its trim |
| JsString.Split | src/components/SpecialEventsEditDialog.tsx:87 | `split` yields at least one piece and no piece contains the separator |
| JsString.JoinSplit | src/components/SpecialEventsEditDialog.tsx:87 | joining the pieces of a split with the separator gives back the input |
| JsString.SplitJoin | src/components/ArrayEditDialog.tsx:41 | splitting the join of separator-free pieces gives back those pieces |
| JsString.SplitConcat | src/components/ArrayEditDialog.tsx:41 | splitting `a + sep + b` gives the pieces of `a` followed by those of `b` |
| JsString.IncludesIff | src/components/ProjectMediaUpload.tsx:59 | `includes` holds exactly when the text occurs at some position |
| JsString.LowerAsciiString | src/components/ProjectMediaUpload.tsx:59 | lower-casing keeps the length and maps every character |
| JsNumber.DigitPrefix | src/pages/ProjectDetail.tsx:14 | `parseInt` reads the longest leading run of digits, and the character after it is not a digit |
| JsNumber.ParseInt | src/pages/ProjectDetail.tsx:14 | `parseInt`: a blank string reads as `NaN`, and one that starts with a non-zero digit reads as a number that is not negative |
| JsNumber.DecimalString | src/pages/ProjectDetail.tsx:266 | a number's decimal form is non-empty, all digits, and has no leading zero |
| JsNumber.NumberToString | src/pages/ProjectDetail.tsx:266 | a number's string form is non-empty, all digits after an optional leading `-`, and starts with `-` exactly when the number is negative |
| JsNumber.DecimalValue | src/pages/ProjectDetail.tsx:266 | a number's decimal digits have that number as their value |
| JsNumber.DigitPrefixOfDigits | src/pages/ProjectDetail.tsx:14 | the digit run of an all-digit string is the whole string |
| JsNumber.ParseIntOfNumberToString | src/components/TestimonialsEditDialog.tsx:119-120 | `parseInt` of a number's string form gives the number back, negative numbers included |
| Json.WithKey | src/components/SpecialEventsEditDialog.tsx:92-95 | the spread with one key set: that key holds the value and every other key is kept |
| Json.WithKeySame | src/components/SkillsEditDialog.tsx:19-23 | writing back the value a key already holds leaves the document as it was |
| Json.ListOrEmpty | src/components/SpecialEventsEditDialog.tsx:21 | `doc[key] \|\| []` is the empty list for a missing or falsy key and the elements of an array; it fails exactly for a truthy non-array |
| Json.Strs | src/components/SkillsEditDialog.tsx:21 | a list of strings maps position by position to JSON strings |
| Json.StringsOf | src/components/SkillsEditDialog.tsx:15 | the strings read from an all-string list convert back to that list |
| Json.JoinStrs | src/components/SkillsEditDialog.tsx:15 | joining JSON strings writes exactly the strings joined |
| Seqs.Map | src/components/SkillsEditDialog.tsx:21 | `map` keeps the length and applies the function at every position |
| Seqs.Filter | src/components/ArrayEditDialog.tsx:41 | `filter` keeps only elements that pass, and keeps every element that passes |
| Seqs.FilterPreserves | src/components/ArrayEditDialog.tsx:41 | a property of every element survives filtering |
| Seqs.MapAppend | src/components/SkillsEditDialog.tsx:21 | mapping a concatenation maps each part |
| Seqs.FilterAppend | src/components/ArrayEditDialog.tsx:41 | filtering a concatenation filters each part |
| Seqs.KeepOtherPositionsSlices | src/components/ArrayEditDialog.tsx:30 | filtering out one position is the list without that element |
| Seqs.RemoveAtShifts | src/components/ArrayEditDialog.tsx:30 | removing an index in range drops exactly that element and the later ones shift down; an index out of range changes nothing |
| ListText.ParseCommaList | src/components/SpecialEventsEditDialog.tsx:87 | every item read from a comma list is trimmed, non-empty and comma-free |
| ListText.ParseLines | src/components/ArrayEditDialog.tsx:41 | every line kept is non-blank and has no line break |
| ListText.CommaListConcat | src/components/SpecialEventsEditDialog.tsx:87 | the items of `a + "," + b` are the items of `a` followed by those of `b` |
| ListText.LinesConcat | src/components/ArrayEditDialog.tsx:41 | the lines of `a + "\n" + b` are the lines of `a` followed by those of `b` |
| ListText.CommaListSingle | src/components/SpecialEventsEditDialog.tsx:87 | comma-free text reads as no item when blank, else as its trim |
| ListText.PaddedItem | src/components/SpecialEventsEditDialog.tsx:207 | a clean item after blank padding reads back as that item |
| ListText.CommaRoundTripPadded | src/components/SpecialEventsEditDialog.tsx:207 | a clean list shown as `a, b, c` after any blank padding reads back as the same list |
| ListText.CommaRoundTripStep | src/components/SpecialEventsEditDialog.tsx:207 | one step of the comma round trip: the first item and the rest read back separately |
| ListText.JoinStep | src/components/SpecialEventsEditDialog.tsx:207 | a comma list of two or more items is its first item, a comma, and the rest after a space |
| ListText.CommaRoundTrip | src/components/SpecialEventsEditDialog.tsx:207 | a list of clean items, joined with `, ` and read back, is the same list |
| ListText.CommaParseIdempotent | src/components/SpecialEventsEditDialog.tsx:87 | reading back a list that was read from any text gives the same list |
| ListText.LinesRoundTrip | src/components/ArrayEditDialog.tsx:80 | clean lines, joined with line breaks and read back, are the same lines |
| ListText.LinesKeepsClean | src/components/ArrayEditDialog.tsx:41 | the blank-line filter keeps a list of non-blank lines whole |
| ListText.LinesParseIdempotent | src/components/ArrayEditDialog.tsx:41 | reading back lines that were read from any text gives the same lines |
| ListText.LineSingle | src/components/ArrayEditDialog.tsx:41 | text without a line break is no line when blank, else that one line |
| Records.Spread | src/components/SpecialEventsEditDialog.tsx:50 | spreading an object copies its fields; `null`, booleans and numbers spread to nothing |
| Records.SetField | src/components/SpecialEventsEditDialog.tsx:48-52 | the edit replaces one record by a copy with the field set; other records and other fields are kept |
| Records.SetFieldTwice | src/components/TestimonialsEditDialog.tsx:51-55 | setting the same field twice is the same as setting it to the last value |
| Records.SetFieldCommutes | src/components/TestimonialsEditDialog.tsx:51-55 | edits of different records or different fields commute |
| Records.SetFieldSame | src/components/TestimonialsEditDialog.tsx:51-55 | setting a field to the value it holds changes nothing |
| EditModeContext.DefaultProfileData | src/contexts/EditModeContext.tsx:12-69 | the default document has exactly the hero, experiences, projects, two skill lists, certifications and education |
| EditModeContext.DefaultLacksSections | src/contexts/EditModeContext.tsx:12-69 | the default document has no pet projects, hackathons, special events or testimonials |
| EditModeContext.InitialProfileData | src/contexts/EditModeContext.tsx:73-76 | the provider starts with the cached document if there is one, else the default |
| EditModeContext.EditModeProvider.constructor | src/contexts/EditModeContext.tsx:71-80 | mounting starts out of edit mode, with the initial document, and caches it |
| EditModeContext.EditModeProvider.ToggleEditMode | src/contexts/EditModeContext.tsx:82-84 | the flag flips; the document and the cache are untouched |
| EditModeContext.EditModeProvider.UpdateProfileData | src/contexts/EditModeContext.tsx:86-88 | the document is replaced whole and the cache entry follows it; edit mode is unchanged |
| EditModeContext.ToggleTwice | src/contexts/EditModeContext.tsx:82-84 | toggling twice restores the flag and never touches the document |
| EditModeContext.FirstVisit | src/contexts/EditModeContext.tsx:73-80 | an empty cache gives the default document, which is then cached |
| EditModeContext.ReturnVisit | src/contexts/EditModeContext.tsx:73-80 | a later visit shows the document last cached |
| EditModeContext.UseEditMode | src/contexts/EditModeContext.tsx:97-103 | the hook gives the provider's value, and fails with its message exactly outside a provider |
| ArrayEditDialog.DefaultValue | src/components/ArrayEditDialog.tsx:24 | a new field value is `[]` for an array field and `''` otherwise |
| ArrayEditDialog.Names | src/components/ArrayEditDialog.tsx:23-25 | every configured field name is among the names |
| ArrayEditDialog.NamesOnly | src/components/ArrayEditDialog.tsx:23-25 | every name comes from some configured field |
| ArrayEditDialog.NewItem | src/components/ArrayEditDialog.tsx:21-27 | a new record has one key per field name, holding the empty value of the last field with that name |
| ArrayEditDialog.NewItemStep | src/components/ArrayEditDialog.tsx:23-25 | one iteration of the field loop assigns the next field's empty value |
| ArrayEditDialog.ArrayFieldText | src/components/ArrayEditDialog.tsx:80 | a value that is not an array is shown as empty text |
| ArrayEditDialog.ArrayFieldValue | src/components/ArrayEditDialog.tsx:41 | typed text is stored as a list of strings |
| ArrayEditDialog.ArrayFieldRoundTrip | src/components/ArrayEditDialog.tsx:41 | clean lines are shown so that reading the text back gives them again |
| ArrayEditDialog.ArrayFieldStable | src/components/ArrayEditDialog.tsx:80 | re-reading what an array field shows after an edit changes nothing |
| ArrayEditDialog.Dialog.Contents | src/components/ArrayEditDialog.tsx:57 | the list as JSON, record by record |
| ArrayEditDialog.Dialog.constructor | src/components/ArrayEditDialog.tsx:19 | the list starts as the caller's array, sharing its records |
| ArrayEditDialog.Dialog.HandleAdd | src/components/ArrayEditDialog.tsx:21-27 | one fresh record holding every field's empty value is appended; the earlier records are kept |
| ArrayEditDialog.Dialog.HandleRemove | src/components/ArrayEditDialog.tsx:29-31 | the record at the index is dropped and later ones shift down; an index out of range changes nothing |
| ArrayEditDialog.Dialog.HandleChange | src/components/ArrayEditDialog.tsx:33-37 | as written: the shared record at the index is assigned in place, and the list keeps the same records |
| ArrayEditDialog.Dialog.HandleArrayChange | src/components/ArrayEditDialog.tsx:39-43 | as written: the shared record gets the typed lines in place |
| ArrayEditDialog.Dialog.HandleChangeCopy | src/components/ArrayEditDialog.tsx:33-37 | corrected: a fresh copy with the field set replaces the record; every other record is kept |
| ArrayEditDialog.Dialog.HandleArrayChangeCopy | src/components/ArrayEditDialog.tsx:39-43 | corrected: a fresh copy holding the typed lines replaces the record |
| ArrayEditDialog.Dialog.HandleSave | src/components/ArrayEditDialog.tsx:45-48 | the current list is handed to the save callback unchanged |
| ArrayEditDialog.SaveSection | src/components/PetProjects.tsx:12-17 | a section save sets exactly one top-level key to the list and keeps every other key |
| ArrayEditDialog.CancelledEditReachesCaller | src/components/ArrayEditDialog.tsx:33-37 | an edit typed and then cancelled has still changed the caller's record |
| ArrayEditDialog.CancelledEditStaysLocal | src/components/ArrayEditDialog.tsx:33-37 | with the copying handler the dialog shows the edit, and the method may modify none of the caller's records |
| SpecialEventsEditDialog.NewEvent | src/components/SpecialEventsEditDialog.tsx:28-41 | a new event has six empty text fields and no tags |
| SpecialEventsEditDialog.TagsValue | src/components/SpecialEventsEditDialog.tsx:86-89 | the typed tags are stored as a list of strings |
| SpecialEventsEditDialog.TagsText | src/components/SpecialEventsEditDialog.tsx:207 | the tags input shows the tags joined by `, `, empty text when there are none, and fails for a non-array |
| SpecialEventsEditDialog.TagsRoundTrip | src/components/SpecialEventsEditDialog.tsx:207 | clean tags are shown so that reading the text back gives them again |
| SpecialEventsEditDialog.TagsStable | src/components/SpecialEventsEditDialog.tsx:86-89 | re-reading the shown tags after any edit gives the stored tags |
| SpecialEventsEditDialog.Dialog.constructor | src/components/SpecialEventsEditDialog.tsx:21 | the local list starts as the document's events, or empty |
| SpecialEventsEditDialog.Dialog.Resync | src/components/SpecialEventsEditDialog.tsx:24-26 | the local list follows the document's events |
| SpecialEventsEditDialog.Dialog.HandleAddEvent | src/components/SpecialEventsEditDialog.tsx:28-41 | one empty event is appended; the earlier ones are kept |
| SpecialEventsEditDialog.Dialog.HandleRemoveEvent | src/components/SpecialEventsEditDialog.tsx:43-46 | the event at the index is dropped and later ones shift down |
| SpecialEventsEditDialog.Dialog.HandleEventChange | src/components/SpecialEventsEditDialog.tsx:48-52 | the event is replaced by a copy with the field set |
| SpecialEventsEditDialog.Dialog.HandleTagsChange | src/components/SpecialEventsEditDialog.tsx:86-89 | the typed tags are stored, each trimmed, non-empty and comma-free |
| SpecialEventsEditDialog.Dialog.ClearImage | src/components/SpecialEventsEditDialog.tsx:136 | the remove-image button empties `imageUrl` and nothing else |
| SpecialEventsEditDialog.Dialog.StartImageUpload | src/components/SpecialEventsEditDialog.tsx:54-60 | signed out no upload starts; otherwise the upload goes on with the event's position and the list as it is now |
| SpecialEventsEditDialog.Dialog.FinishImageUpload | src/components/SpecialEventsEditDialog.tsx:66-83 | a failed upload changes nothing; a successful one replaces the list by the list captured at the start with the public address as that event's `imageUrl` |
| SpecialEventsEditDialog.Dialog.FinishImageUploadOnCurrent | src/components/SpecialEventsEditDialog.tsx:76 | corrected: the public address is set on the list as it is when the upload finishes; an event gone by then changes nothing |
| SpecialEventsEditDialog.UploadDropsTitleTypedMeanwhile | src/components/SpecialEventsEditDialog.tsx:49-50 | as written, a title typed during an upload reverts when it finishes, while the image is set |
| SpecialEventsEditDialog.UploadKeepsTitleTypedMeanwhile | src/components/SpecialEventsEditDialog.tsx:76 | corrected, a title typed during an upload is kept beside the new image |
| SpecialEventsEditDialog.Dialog.HandleSave | src/components/SpecialEventsEditDialog.tsx:91-98 | the list is merged into the document under `specialEvents` only; the flag is kept, and local storage changes only in the cached document's entry |
| SpecialEventsEditDialog.SavedEventsReadBack | src/components/SpecialEventsEditDialog.tsx:21 | after a save, reading the events back gives the saved list |
| TestimonialsEditDialog.NewTestimonial | src/components/TestimonialsEditDialog.tsx:31-44 | a new testimonial has a five-star rating and six empty text fields |
| TestimonialsEditDialog.ParsedValue | src/components/TestimonialsEditDialog.tsx:120 | a parsed number is stored as that number, and a failed parse as `null` |
| TestimonialsEditDialog.Stars | src/components/TestimonialsEditDialog.tsx:126-130 | each rating option stands for a whole number from 1 to 5 written in decimal |
| TestimonialsEditDialog.RatingValue | src/components/TestimonialsEditDialog.tsx:120 | `parseInt` of a chosen option is that option's star count, from 1 to 5 |
| TestimonialsEditDialog.RatingShownIsOption | src/components/TestimonialsEditDialog.tsx:119 | a stored rating from 1 to 5 is shown as one of the options and reads back as itself |
| TestimonialsEditDialog.Dialog.constructor | src/components/TestimonialsEditDialog.tsx:25 | the local list starts as the document's testimonials, or empty |
| TestimonialsEditDialog.Dialog.Resync | src/components/TestimonialsEditDialog.tsx:27-29 | the local list follows the document's testimonials |
| TestimonialsEditDialog.Dialog.HandleAddTestimonial | src/components/TestimonialsEditDialog.tsx:31-44 | one new five-star testimonial is appended; the earlier ones are kept |
| TestimonialsEditDialog.Dialog.HandleRemoveTestimonial | src/components/TestimonialsEditDialog.tsx:46-49 | the testimonial at the index is dropped and later ones shift down |
| TestimonialsEditDialog.Dialog.HandleTestimonialChange | src/components/TestimonialsEditDialog.tsx:51-55 | the testimonial is replaced by a copy with the field set |
| TestimonialsEditDialog.Dialog.HandleRatingChange | src/components/TestimonialsEditDialog.tsx:120 | picking an option stores a whole number from 1 to 5 |
| TestimonialsEditDialog.Dialog.HandleSave | src/components/TestimonialsEditDialog.tsx:57-64 | the list is merged into the document under `testimonials` only; the flag is kept, and local storage changes only in the cached document's entry |
| SkillsEditDialog.InitialText | src/components/SkillsEditDialog.tsx:15-16 | a list is shown joined by `, `, and the dialog fails when the key holds no array |
| SkillsEditDialog.SkillsValue | src/components/SkillsEditDialog.tsx:21-22 | the typed text is stored as a list of strings |
| SkillsEditDialog.SkillsAreClean | src/components/SkillsEditDialog.tsx:21-22 | every stored skill is trimmed, non-empty and comma-free |
| SkillsEditDialog.SaveSkills | src/components/SkillsEditDialog.tsx:18-23 | both skill lists are replaced from their texts and every other key is kept |
| SkillsEditDialog.CleanSkillsRoundTrip | src/components/SkillsEditDialog.tsx:15-22 | a clean list is shown so that reading the text back gives it again |
| SkillsEditDialog.SaveWithoutEdits | src/components/SkillsEditDialog.tsx:15-23 | opening and saving without edits leaves a document with clean skill lists as it was |
| SkillsEditDialog.ShownReadsBack | src/components/SkillsEditDialog.tsx:15-22 | a clean list read back from its shown text is the stored list |
| SkillsEditDialog.SaveSame | src/components/SkillsEditDialog.tsx:18-23 | saving texts that read as the stored lists changes nothing |
| SkillsEditDialog.SaveIdempotent | src/components/SkillsEditDialog.tsx:15-23 | after any save, reopening and saving again changes nothing |
| ProjectMediaUpload.LowerAsciiSuffix | src/components/ProjectMediaUpload.tsx:59 | lower-casing commutes with taking a suffix |
| ProjectMediaUpload.EndsWithIgnoreCaseIff | src/components/ProjectMediaUpload.tsx:59 | a case-insensitive suffix match is the lower-cased tail equal to the extension |
| ProjectMediaUpload.IsVideo | src/components/ProjectMediaUpload.tsx:58-60 | an address is a video exactly when one of the four extensions ends it in any letter case, or a YouTube host occurs in it |
| ProjectMediaUpload.VideoExtensionAnyCase | src/components/ProjectMediaUpload.tsx:59 | any address ending in a video extension, in any case, is a video |
| ProjectMediaUpload.YouTubeIsVideo | src/components/ProjectMediaUpload.tsx:59 | any address mentioning `youtube.com` or `youtu.be`, anywhere, is a video |
| ProjectMediaUpload.MediaUpload.constructor | src/components/ProjectMediaUpload.tsx:17-18 | the gallery starts as the given media or empty, with an empty URL input |
| ProjectMediaUpload.MediaUpload.SetUrlInput | src/components/ProjectMediaUpload.tsx:18 | typing sets the URL input and leaves the gallery alone |
| ProjectMediaUpload.MediaUpload.HandleAddUrl | src/components/ProjectMediaUpload.tsx:20-29 | blank input is refused and changes nothing; otherwise the trimmed address is appended and the input cleared |
| ProjectMediaUpload.MediaUpload.HandleRemove | src/components/ProjectMediaUpload.tsx:47-50 | the item at the index is dropped and later ones shift down |
| ProjectMediaUpload.MediaUpload.HandleSave | src/components/ProjectMediaUpload.tsx:52-56 | the gallery is handed to the save callback unchanged |
| PetProjects.PetProjectsAsWritten | src/components/PetProjects.tsx:10 | as written: the list is there exactly when the section holds an array, and otherwise rendering fails |
| PetProjects.FirstVisitFails | src/components/PetProjects.tsx:26 | on the default document the list as written fails |
| PetProjects.PetProjectsOrEmpty | src/pages/ProjectDetail.tsx:13 | corrected: a missing section reads as the empty list, and an array reads as itself |
| PetProjects.FirstVisitShowsNone | src/pages/ProjectDetail.tsx:13 | on the default document the list read with a default is empty |
| ProjectDetail.ProjectIndex | src/pages/ProjectDetail.tsx:14 | a missing or empty route parameter parses as `"0"`, any other as itself |
| ProjectDetail.Lookup | src/pages/ProjectDetail.tsx:15-17 | a project is found exactly when the index is a number within the list and names a truthy entry, and that entry is shown |
| ProjectDetail.Resolve | src/pages/ProjectDetail.tsx:13-17 | the page finds a project exactly when the parsed parameter indexes a truthy entry of the pet projects, and shows that entry |
| ProjectDetail.RouteParam | src/App.tsx:26-28 | a route has a parameter exactly when it is `/project/` followed by one non-empty segment without `/` and then only trailing slashes, and the parameter is that segment |
| ProjectDetail.BarePrefixIsNotAProjectRoute | src/App.tsx:26-28 | `/project/` and `/project//` have no parameter, so they fall through to the not-found route |
| ProjectDetail.RouteReadsBack | src/pages/ProjectDetail.tsx:266 | the route built for an index parses back to that index |
| ProjectDetail.NavigationInBounds | src/pages/ProjectDetail.tsx:264-274 | each navigation button shown (`ShowPrevious`: past the first position; `ShowNext`: before the last) leads to a position inside the list, and its route reads back as that position |
| ProjectDetail.AuthorName | src/pages/ProjectDetail.tsx:46 | the author is a truthy `hero.name`, else the owner's name; it is always truthy |
| ProjectDetail.DefaultAuthor | src/pages/ProjectDetail.tsx:70 | the default document shows the owner's name |
| ProjectDetail.FeaturesShown | src/pages/ProjectDetail.tsx:139-141 | the features list is shown exactly when `features` is a non-empty array; a non-empty string passes the length test and then fails at `map` |
| ProjectDetail.DefaultHasNoProjectPages | src/pages/ProjectDetail.tsx:13-17 | on the default document every project route shows the not-found view |
| Hackathons.BulletPoint | src/components/Hackathons.tsx:36 | a rendered point starts with the bullet and ends with the point |
| Hackathons.BulletPointUnchangedIff | src/components/Hackathons.tsx:36 | a point is left unchanged exactly when it already starts with the bullet |
| Hackathons.BulletPointIdempotent | src/components/Hackathons.tsx:36 | rendering a rendered point again changes nothing |
| Hackathons.NewHackathon | src/components/Hackathons.tsx:51-56 | "Add" creates empty year, title and organization and no points, and no other key |
| Hackathons.RenderedPoints | src/components/Hackathons.tsx:34-38 | the points render one bullet per stored point; rendering fails exactly when `points` is not a list of strings |
| Hackathons.EditedPointsRender | src/components/Hackathons.tsx:34-38 | points typed into the editor render as one bullet per non-blank line |
| Hackathons.NewHackathonRendersNoPoints | src/components/Hackathons.tsx:34-38 | a new hackathon renders no points |
| Hackathons.DefaultHasNoHackathons | src/components/Hackathons.tsx:9 | on the default document the section reads as empty instead of failing |
| Hackathons.HandleSave | src/components/Hackathons.tsx:11-16 | the list goes under `hackathons`, no other key changes, the flag is kept, and local storage changes only in the cached document's entry |
| Hackathons.SavedHackathonsReadBack | src/components/Hackathons.tsx:9-16 | reading the section back after a save gives the saved list, and other keys are kept |
| Contact.With | src/components/Contact.tsx:30 | one field takes the typed value and the others are kept |
| Contact.CheckIssues | src/components/Contact.tsx:11-14 | every issue raised for a field names that field |
| Contact.CheckIssuesEmptyIff | src/components/Contact.tsx:11-14 | a field raises no issue exactly when it passes every check |
| Contact.FieldIssuesIff | src/components/Contact.tsx:11-14 | a field's schema raises no issue exactly when the field satisfies it |
| Contact.SatisfiesBounds | src/components/Contact.tsx:11-14 | the trimmed name is 1 to 100 characters, the e-mail well formed and at most 255, the phone at most 20, the message 1 to 1000 |
| Contact.IssuesEmptyIff | src/components/Contact.tsx:10-15 | the form raises no issue exactly when each of its fields satisfies its schema |
| Contact.IssuesOfAll | src/components/Contact.tsx:10-15 | the form's issues are the name's, then the e-mail's, phone's and message's |
| Contact.Validate | src/components/Contact.tsx:47 | parsing succeeds exactly when the trimmed form satisfies the schema and then yields the trimmed form; otherwise it yields the non-empty list of issues |
| Contact.ValidIffBounds | src/components/Contact.tsx:10-15 | the form is valid exactly when the length bounds and the e-mail format hold on the trimmed fields |
| Contact.FieldErrorsLastWins | src/components/Contact.tsx:67-72 | the error map has exactly the fields with an issue, each holding the message of its last issue |
| Contact.BuildFieldErrors | src/components/Contact.tsx:67-72 | the loop over the issues builds the error map |
| Contact.OwnBlock | src/components/Contact.tsx:66-73 | in the issue list, a field's issues form one contiguous block |
| Contact.MergedErrors | src/components/Contact.tsx:66-73 | a field has an entry exactly when it has issues, and the entry is its last issue's message |
| Contact.ErrorShown | src/components/Contact.tsx:66-73 | after a failed submit a field shows an error exactly when it breaks its constraint, with its last issue's message |
| Contact.EmailLengthMessageWins | src/components/Contact.tsx:12 | an e-mail that is both malformed and too long shows the length message |
| Contact.PhoneOrNA | src/components/Contact.tsx:52 | an empty phone is written as `N/A`, any other as itself |
| Contact.ComposeMail | src/components/Contact.tsx:50-53 | the mail goes to the site owner, its subject names the sender, and its body starts with the sender's name and ends with the message as typed |
| Contact.BlankPhoneIsNA | src/components/Contact.tsx:50-53 | a blank phone gives the same mail as a typed `N/A` |
| Contact.ContactForm.constructor | src/components/Contact.tsx:19-26 | the form starts empty, with no errors, not submitting |
| Contact.ContactForm.HandleChange | src/components/Contact.tsx:28-35 | the field takes the value, and its error is cleared only if one is shown |
| Contact.ContactForm.HandleSubmit | src/components/Contact.tsx:40-78 | a valid form yields its mail and resets; an invalid one keeps its values and shows the error map; either way submitting ends |
| Contact.ContactForm.Finish | src/components/Contact.tsx:63-77 | after the schema check: reset and mail, or the error map; submitting ends |

## Left out

- Uploads and sign-in (Supabase): the signed-in test is a parameter of `StartImageUpload` and the upload result one of `FinishImageUpload`; the progress flag, the file name and the toasts are not modelled.
- Local file upload in the media editor (`FileReader`, data URLs) is left out: it is asynchronous browser I/O.
- Opening the mail client (`window.location`, `mailto:`), URL encoding and toasts: the model stops at the `Mail` value before encoding.
- The e-mail format check of the schema library is a parameter `isEmail`; its regular expression is not modelled.
- `Contact.FieldErrorsLastWins`: the source's `err.path[0]` test is always passed, because every issue of this schema names its field.
- Local storage holds a JSON string; the model stores the document itself, so serialisation, parse failures and quota errors are left out.
- Rendering, dialogs opening and closing, drag, timers and routing other than the project route are not modelled.
- `ProjectDetail.RouteParam` matches the prefix `/project/` with its letter case, and returns the segment as it appears in the path: the router also matches the prefix in any letter case and percent-decodes the parameter, and neither is modelled.
- `ProjectDetail.FeaturesShown` treats an object `features` as having no length; an object with its own positive `length` field would also pass the test and then fail at `map`.
- String lengths count code points here, not UTF-16 code units; the schema bounds differ only for characters outside the Basic Multilingual Plane.
- Numbers are integers; `parseInt` of a non-numeric option is stored as `null` in place of `NaN`.
- `Records.Spread` of a string or an array (index keys) is not modelled; records are objects or primitives.
- `SpecialEventsEditDialog.Dialog.HandleEventChange` and `TestimonialsEditDialog.Dialog.HandleTestimonialChange` require an in-range index, as `Records.SetField` does. In the source an index past the end does not throw: `{ ...undefined, [field]: value }` is `{ [field]: value }`, so that one-field record is stored there and the list grows with holes; a negative index adds a property that is not a list element. Every call site passes the position of a record it renders, so the index is in range.
- `ArrayEditDialog.Dialog.HandleChange` and `HandleArrayChange` require an in-range index: with any other index the source assigns to a property of `undefined` and throws.
- The dialogs' constructors and `Resync` require the section to read as a list; a truthy non-list section fails in the source before any edit.
- `ProjectDetail.Resolve` requires `petProjects` to be an array or falsy; indexing a string is not modelled.
- `ArrayEditDialog.Dialog` does not follow later changes of its `data` property: the source has no effect for it either.
- The hero, experience, education, certifications and projects sections are read-only views outside this model; only the bullet rule they share with hackathons is modelled.

## Findings

| source | as written | input that shows it | evidently intended | confidence | as-written member | corrected member |
|---|---|---|---|---|---|---|
| src/components/ArrayEditDialog.tsx:33-43 | the list is copied but the record is assigned in place, so it is the caller's own record that changes | edit any field of an existing record, then press Cancel: the caller's record keeps the edit | update a copy of the record, so that nothing changes until Save | not executed | ArrayEditDialog.CancelledEditReachesCaller | ArrayEditDialog.CancelledEditStaysLocal |
| src/components/SpecialEventsEditDialog.tsx:54-76 | the asynchronous upload handler finishes through the `handleEventChange` of the render that started it, which copies the list of that render | start an image upload, type a new title for any event, then let the upload succeed: the title reverts | set the address on the list as it is when the upload finishes (a functional state update), as the media editor does | not executed | SpecialEventsEditDialog.UploadDropsTitleTypedMeanwhile | SpecialEventsEditDialog.UploadKeepsTitleTypedMeanwhile |
| src/components/PetProjects.tsx:10 | `profileData.petProjects` is read with no default and mapped | a first visit, when the default document has no `petProjects`: `projects.map` throws | read with `\|\| []` as the project page does | not executed | PetProjects.FirstVisitFails | PetProjects.FirstVisitShowsNone |
