# Portfolio app: section state, Hero storage and blob tracking

This project models the state logic of a single-page personal portfolio
written in React, and proves properties about it.

- **The four record sections.** Experience, Education, Stories and Gallery each
  keep a list of records with string keys. They also keep a dialog flag, a draft
  (`formData`), and, except for Gallery, the key of the record being edited.
  - Saving with a truthy editing key overwrites every record with that key by
    the draft. The key itself is kept.
  - Saving without one adds `{ id: <clock>, ...draft }` at the end, or, in
    Stories, at the front.
  - Deleting filters out every record with the key.
  - The shared list logic lives in `RecordList`, over a generic
    `Entry<F>(id, fields)`.
  - Each section is a class whose handlers change its fields.
  - Gallery adds a preview selection and an image element that switches to a
    placeholder after a load error.
- **Hero.** Two settings, a background video URL and a location label.
  - They are read from `localStorage` on mount and written back whenever they
    change. An empty video URL removes its key.
  - Storage exceptions are swallowed.
  - One `blob:` URL is tracked so that it can be revoked when the video is
    replaced or the section unmounts.
  - Storage is a class (`LocalStorage`) holding a map and an `enabled` flag. When
    the flag is off, every call throws.
  - React's effect order is written out as explicit method calls: the first
    commit, the update commit, the cleanup before an effect re-runs, and the
    teardown.
  - `URL.revokeObjectURL` is recorded in a ghost log of revoked URLs.
- **Navigation.** The active section (owned by the app root, starting at
  `"home"`), the mobile menu flag, the six fixed items, and which item is
  highlighted.
- **Contact.** A three-field form edited one field at a time. A submit with an
  empty field is stopped by the browser's check of the `required` inputs.
  Otherwise the handler shows a success toast, recorded in a ghost log, and
  clears every field.

The clock values (`Date.now().toString()` for new keys, and today's
`YYYY-MM-DD` date for a new story) are parameters of the operations that read
them.

## Model

| member | source | states |
|---|---|---|
| RecordList.ReplaceById | src/components/Experience.tsx:64-66 | `map(r => r.id === id ? {...r, ...draft} : r)`: same length, every key kept, records with the key take the draft's fields, all others unchanged |
| RecordList.RemoveById | src/components/Experience.tsx:76-78 | `filter(r => r.id !== id)` never grows the list and returns it unchanged when no record has the key |
| RecordList.RemoveByIdMembers | src/components/Experience.tsx:76-78 | the filter keeps exactly the records whose key differs, and afterwards no record has the key |
| RecordList.RemoveByIdLength | src/components/Experience.tsx:76-78 | the filter removes exactly as many records as carried the key |
| RecordList.RemoveByIdConcat | src/components/Experience.tsx:76-78 | filtering distributes over concatenation, so surviving records keep their order |
| RecordList.RemoveOnly | src/components/Experience.tsx:76-78 | when exactly one record carries the key, deleting removes just that position and shortens the list by one |
| RecordList.RemoveUnique | src/components/Experience.tsx:76-78 | with unique keys, deleting a record's key removes exactly that record |
| RecordList.RemoveByIdIdempotent | src/components/Experience.tsx:76-78 | deleting the same key twice is deleting it once |
| RecordList.RemovedIsGone | src/components/Experience.tsx:76-78 | after a delete no record with the key is found or counted |
| RecordList.RemoveKeepsUnique | src/components/Experience.tsx:76-78 | deleting keeps keys unique |
| RecordList.SaveAppending | src/components/Experience.tsx:62-74 | a truthy editing key replaces by key; otherwise the list grows by one, the old records form its prefix, and the new last record is the draft under the fresh key |
| RecordList.SavePrepending | src/components/Stories.tsx:64-76 | a truthy editing key replaces by key; otherwise the new first record is the draft under the fresh key, followed by the old list |
| RecordList.AppendedIsFound | src/components/Experience.tsx:67-71 | a record appended under a fresh key is the one found under that key |
| RecordList.PrependedIsFound | src/components/Stories.tsx:69-74 | a record put in front is the one found under its key |
| RecordList.EditedIsFound | src/components/Experience.tsx:64-66 | after editing an existing key, the record found under it carries the draft |
| RecordList.SaveKeepsUnique | src/components/Experience.tsx:62-74 | with unique keys and a fresh key, both kinds of save keep keys unique |
| RecordList.EditUntouchedIsIdentity | src/components/Experience.tsx:51-74 | with unique, non-empty keys, opening a record for edit and saving the untouched draft leaves the list as it was (with a duplicate key, every record carrying it takes the draft) |
| RecordList.EmptyKeyEditAppends | src/components/Experience.tsx:63-71 | an editing key of `""` is falsy, so the save appends a copy instead of editing |
| Experience.ExperienceSection.constructor | src/components/Experience.tsx:19-43 | two initial records with unique keys, dialog closed, no editing key, empty draft |
| Experience.ExperienceSection.HandleAdd | src/components/Experience.tsx:45-49 | clears the editing key and the draft and opens the dialog; the list is unchanged |
| Experience.ExperienceSection.HandleEdit | src/components/Experience.tsx:51-60 | remembers the record's key, copies its four fields into the draft, and opens the dialog |
| Experience.ExperienceSection.ChangeDraft | src/components/Experience.tsx:102-129 | an input replaces the draft |
| Experience.ExperienceSection.OnOpenChange | src/components/Experience.tsx:88 | the dialog's own control sets the open flag |
| Experience.ExperienceSection.HandleSave | src/components/Experience.tsx:62-74 | the list becomes the appending save of the draft; unique keys stay unique under a fresh key; the dialog closes; the key and the draft stay |
| Experience.ExperienceSection.HandleDelete | src/components/Experience.tsx:76-78 | the list becomes the filter by key, and unique keys stay unique |
| Education.EducationSection.constructor | src/components/Education.tsx:19-36 | one initial record, dialog closed, no editing key, empty draft |
| Education.EducationSection.HandleAdd | src/components/Education.tsx:38-42 | clears the editing key and the draft and opens the dialog |
| Education.EducationSection.HandleEdit | src/components/Education.tsx:44-53 | remembers the record's key, copies its fields into the draft, and opens the dialog |
| Education.EducationSection.ChangeDraft | src/components/Education.tsx:95-122 | an input replaces the draft |
| Education.EducationSection.OnOpenChange | src/components/Education.tsx:81 | the dialog's own control sets the open flag |
| Education.EducationSection.HandleSave | src/components/Education.tsx:55-67 | appending save of the draft, uniqueness kept under a fresh key, dialog closed |
| Education.EducationSection.HandleDelete | src/components/Education.tsx:69-71 | filter by key, uniqueness kept |
| Stories.StoriesSection.constructor | src/components/Stories.tsx:20-44 | two initial stories with unique keys, dialog closed, no editing key, empty draft |
| Stories.StoriesSection.HandleAdd | src/components/Stories.tsx:46-51 | clears the editing key, sets the draft to today's date with the other fields empty, and opens the dialog |
| Stories.StoriesSection.HandleEdit | src/components/Stories.tsx:53-62 | remembers the story's key, copies its four fields into the draft, and opens the dialog |
| Stories.StoriesSection.ChangeDraft | src/components/Stories.tsx:112-141 | an input replaces the draft |
| Stories.StoriesSection.OnOpenChange | src/components/Stories.tsx:98 | the dialog's own control sets the open flag |
| Stories.StoriesSection.HandleSave | src/components/Stories.tsx:64-76 | an edit replaces by key; otherwise the new story goes in front of the old list; uniqueness kept under a fresh key; dialog closed |
| Stories.StoriesSection.HandleDelete | src/components/Stories.tsx:78-80 | filter by key, uniqueness kept |
| Stories.NewestFirst | src/components/Stories.tsx:69-74 | adding story C to [A, B] gives [C, A, B] |
| Gallery.GallerySection.constructor | src/components/Gallery.tsx:65-95 | three initial items with unique keys (so no empty state), no dialog, no preview, empty draft |
| Gallery.GallerySection.HandleAdd | src/components/Gallery.tsx:97-100 | clears the draft and opens the dialog |
| Gallery.GallerySection.ChangeDraft | src/components/Gallery.tsx:137-162 | an input replaces the draft |
| Gallery.GallerySection.OnOpenChange | src/components/Gallery.tsx:123 | the dialog's own control sets the open flag |
| Gallery.GallerySection.HandleSave | src/components/Gallery.tsx:102-105 | always appends the draft under the fresh key (there is no edit), the new item is found under that key, uniqueness is kept, the empty state is gone, and the dialog closes |
| Gallery.GallerySection.HandleDelete | src/components/Gallery.tsx:107-109 | filter by key, uniqueness kept |
| Gallery.GallerySection.ViewImage | src/components/Gallery.tsx:193 | "View" selects the item, which opens the preview |
| Gallery.GallerySection.ClosePreview | src/components/Gallery.tsx:223-226 | any open/close event of the preview clears the selection, which closes the preview |
| Gallery.GallerySection.PreviewOpen | src/components/Gallery.tsx:223-225 | the preview dialog is rendered exactly while an image is selected; a definition, whose transitions ViewImage, ClosePreview and the constructor prove |
| Gallery.ShowsEmptyState | src/components/Gallery.tsx:210 | the empty-state card is rendered exactly when the gallery has no items; a definition, whose transitions EmptyStateAfterDelete, HandleSave and the constructor prove |
| Gallery.EmptyStateAfterDelete | src/components/Gallery.tsx:210 | after a delete the empty-state card shows exactly when every item carried the deleted key |
| Gallery.ImageWithFallback.constructor | src/components/Gallery.tsx:17-21 | a new image element has not errored |
| Gallery.ImageWithFallback.OnError | src/components/Gallery.tsx:51 | a load error sets the error flag |
| Gallery.ImageWithFallback.Rendered | src/components/Gallery.tsx:26-54 | before an error it shows its own source and alt; after one it shows the placeholder data URL and "Error loading image", keeping the source as the original URL |
| Hero.LocalStorage.GetItem | src/components/Hero.tsx:15-16 | `getItem` throws when storage is disabled, and otherwise returns the stored string or null |
| Hero.LocalStorage.SetItem | src/components/Hero.tsx:27 | `setItem` writes the key when storage is enabled, and otherwise throws and changes nothing |
| Hero.LocalStorage.RemoveItem | src/components/Hero.tsx:28 | `removeItem` deletes the key when storage is enabled, and otherwise throws and changes nothing |
| Hero.Stored | src/components/Hero.tsx:15-16 | `getItem` on working storage returns the stored string exactly when the key is present (a definition, used by LocalStorage.GetItem and the round-trip lemmas) |
| Hero.Restore | src/components/Hero.tsx:17-18 | `if (saved) setX(saved)`: a truthy stored value replaces the current one, anything else keeps it, so the result is empty only when the current value is (a definition; LoadedVideoUrl and LoadedLocationName build on it) |
| Hero.LoadedVideoUrl | src/components/Hero.tsx:6-17 | a freshly mounted section shows a non-empty stored video URL, and otherwise the default; never an empty URL |
| Hero.LoadedLocationName | src/components/Hero.tsx:7-18 | a freshly mounted section shows a non-empty stored location, and otherwise the default; never an empty label |
| Hero.EffectRevokes | src/components/Hero.tsx:45-56 | the effect body revokes the tracked URL exactly when it is a blob URL other than the new one (the truthiness test is implied by the prefix); a definition, whose consequences EffectStep and EachBlobRevokedOnce prove |
| Hero.TrackedAfterEffect | src/components/Hero.tsx:45-60 | after the effect body a blob URL is tracked as the new one; otherwise nothing, or the old value when it was not revoked |
| Hero.CleanupRevokes | src/components/Hero.tsx:62-70 | the cleanup revokes the tracked URL exactly when it is a blob URL; a definition, whose consequences CleanupStep and EachBlobRevokedOnce prove |
| Hero.TrackedAfterCleanup | src/components/Hero.tsx:62-70 | after the cleanup no blob URL is tracked |
| Hero.WithVideoUrl | src/components/Hero.tsx:25-32 | a truthy URL is written under `hero.videoUrl`, an empty one removes that key, and no other key changes |
| Hero.WithLocationName | src/components/Hero.tsx:34-40 | the label is written under `hero.locationName` even when empty, and no other key changes |
| Hero.VideoUrlRoundTrip | src/components/Hero.tsx:13-32 | a non-empty video URL survives a reload; an empty one reloads as the default; the location is unaffected |
| Hero.LocationNameRoundTrip | src/components/Hero.tsx:13-40 | a non-empty label survives a reload; an empty one is stored but reloads as the default; the video is unaffected |
| Hero.ClearedStorageDefaults | src/components/Hero.tsx:6-22 | empty storage shows the two built-in defaults |
| Hero.MountIsStable | src/components/Hero.tsx:13-40 | after mounting, storage holds what is shown, so the next reload shows the same |
| Hero.DefaultIsNotBlob | src/components/Hero.tsx:6 | the default video is not a `blob:` URL |
| Hero.EffectStep | src/components/Hero.tsx:45-60 | the blob effect keeps only blob URLs tracked, tracks the new URL exactly when it is a blob URL, and revokes only a tracked URL other than the new one |
| Hero.CleanupStep | src/components/Hero.tsx:62-70 | the cleanup revokes exactly the tracked blob URL and leaves nothing tracked, so the next effect revokes nothing |
| Hero.EachBlobRevokedOnce | src/components/Hero.tsx:43-72 | over a lifetime, each time a blob URL stops being shown it is revoked once, in the order shown, and nothing else is revoked; this holds for any history |
| Hero.Revocations | src/components/Hero.tsx:43-72 | the revocations of a whole lifetime (each commit: the cleanup, then the effect; then teardown) are all blob URLs |
| Hero.HeroSection.constructor | src/components/Hero.tsx:6-10 | the first render shows the defaults and tracks nothing |
| Hero.HeroSection.LoadEffect | src/components/Hero.tsx:13-22 | schedules an update for a key exactly when its stored value is truthy, with the value a reload shows; a storage exception schedules nothing |
| Hero.HeroSection.PersistVideoEffect | src/components/Hero.tsx:25-32 | storage becomes `WithVideoUrl` of the current URL, or stays as it was when storage throws |
| Hero.HeroSection.PersistLocationEffect | src/components/Hero.tsx:34-40 | storage becomes `WithLocationName` of the current label, or stays as it was when storage throws |
| Hero.HeroSection.BlobEffect | src/components/Hero.tsx:45-60 | tracking and revocation follow `TrackedAfterEffect` and `EffectRevokes` |
| Hero.HeroSection.BlobCleanup | src/components/Hero.tsx:62-70 | tracking and revocation follow `TrackedAfterCleanup` and `CleanupRevokes` |
| Hero.HeroSection.SetVideoUrl | src/components/Hero.tsx:25-72 | setting the current URL does nothing; a new URL revokes the tracked blob, is persisted, and is tracked exactly when it is a blob URL |
| Hero.HeroSection.SetLocationName | src/components/Hero.tsx:34-40 | a new label is persisted; setting the current one does nothing |
| Hero.HeroSection.FirstCommit | src/components/Hero.tsx:13-72 | the load effect reads storage before the persist effects overwrite it with the defaults; nothing is tracked or revoked |
| Hero.HeroSection.Mount | src/components/Hero.tsx:13-72 | after mounting, the section shows the stored truthy values (or the defaults), storage holds exactly what is shown, a stored blob URL is tracked, and nothing is revoked |
| Hero.HeroSection.Unmount | src/components/Hero.tsx:62-70 | teardown revokes the tracked blob URL and tracks nothing |
| Hero.BerlinSurvivesReload | src/components/Hero.tsx:13-40 | setting the location to "Berlin, Germany" and reloading shows "Berlin, Germany" |
| Hero.ClearedStorageShowsDefault | src/components/Hero.tsx:7-22 | with storage cleared, a reload shows "Kottayam, Kerala" |
| Navigation.NavItemsFixed | src/components/Navigation.tsx:16-23 | six items with distinct ids, in the order home, experience, education, stories, gallery, contact |
| Navigation.IsHighlighted | src/components/Navigation.tsx:47-48 | an item is highlighted exactly when its id equals the active section; a definition, whose promises AtMostOneHighlighted and HighlightOnNavItems prove |
| Navigation.HighlightCount | src/components/Navigation.tsx:43-55 | the number of highlighted items is at most the number of items, and zero exactly when no item's id is the active section |
| Navigation.AtMostOneHighlighted | src/components/Navigation.tsx:47-48 | with distinct ids at most one item is highlighted, and one is highlighted exactly when some id equals the active section |
| Navigation.HighlightOnNavItems | src/components/Navigation.tsx:43-55 | the bar highlights exactly one item for each of the six section ids and none for any other string |
| Navigation.Click | src/components/Navigation.tsx:25-28 | a click activates the clicked id and closes the mobile menu; ClickIdempotent proves what follows |
| Navigation.Toggle | src/components/Navigation.tsx:64 | the menu button flips the mobile menu and keeps the active section; ToggleTwice proves what follows |
| Navigation.ClickIdempotent | src/components/Navigation.tsx:25-28 | clicking twice is clicking once, and the result does not depend on the state before |
| Navigation.ToggleTwice | src/components/Navigation.tsx:64 | two presses of the menu button cancel out |
| Navigation.NavigationBar.constructor | App.tsx:12 | the active section starts at "home", with the mobile menu closed |
| Navigation.NavigationBar.HandleNavClick | src/components/Navigation.tsx:25-28 | the bar's state becomes `Click` of the old state |
| Navigation.NavigationBar.ToggleMobileMenu | src/components/Navigation.tsx:64 | the bar's state becomes `Toggle` of the old state |
| Navigation.NavigationBar.MobileItems | src/components/Navigation.tsx:74-89 | the mobile list shows all six items while the menu is open and none otherwise |
| Contact.With | src/components/Contact.tsx:144-171 | `{ ...formData, field: value }` sets that field and keeps the other two; WithOverwrites and WithCommutes prove what follows for sequences of edits |
| Contact.WithOverwrites | src/components/Contact.tsx:144-171 | typing into one input twice keeps only the second value |
| Contact.WithCommutes | src/components/Contact.tsx:144-171 | edits of two different inputs give the same form in either order |
| Contact.ContactSection.constructor | src/components/Contact.tsx:19-23 | the form starts with every field empty and no toast shown |
| Contact.ContactSection.HandleChange | src/components/Contact.tsx:144-171 | the changed field takes the typed value and the other fields keep theirs |
| Contact.ContactSection.HandleSubmit | src/components/Contact.tsx:25-30 | the handler shows "Message sent successfully!" once and clears every field; it checks nothing itself |
| Contact.ContactSection.SubmitEvent | src/components/Contact.tsx:138-174 | a form with an empty `required` field is stopped before the handler and nothing changes; a filled-in form is handled as above |

## Left out

- Rendering (JSX, styling, icons, the UI kit components) is not modelled. Only these rendering decisions are modelled: the navigation highlight, the mobile list, Gallery's empty state, Gallery's preview, and the image fallback. The empty-state card of Stories (src/components/Stories.tsx:154-160) is not modelled.
- The toast library is not modelled. A shown toast is an entry in a ghost log.
- `e.preventDefault()` in the contact form's submit has no state to model.
- The date formatting in Stories (`toLocaleDateString` with the `en-US` locale) is locale data and is not modelled.
- The About section and the rest of the app root's composition are not modelled. Only the active section's initial value is.
- `Date.now()` and `new Date()` are clock reads. They become the `freshId` and `today` parameters.
- `LocalStorage`: the browser's storage is one map with a single enabled flag. A quota-exceeded failure that affects writes only is not modelled.
- `URL.revokeObjectURL` is not modelled. Its call is an entry in the ghost `revoked` log, and its own exceptions are swallowed in the source.
- React scheduling is fixed to one order. StrictMode's double invocation of effects, batching, and concurrent rendering are not modelled.
- Hero.HeroSection.Mount: in the second commit, the location persist effect runs after the blob effect rather than between the two effects. The two touch disjoint state, so the final state is the same.
- ChangeDraft: each dialog's per-field `onChange` handlers (`{ ...formData, field: value }`) are modelled as one replacement of the whole draft.
- Gallery.ImageWithFallback.OnError: the network load of an image is not modelled. A failed load is the `OnError` event.
- RecordList.SaveAppending, RecordList.SavePrepending and the HandleSave methods keep keys unique only under the precondition that the clock value is fresh. The source does not check this, and two saves in the same millisecond would collide.
- Contact.ContactSection.SubmitEvent: the browser also stops a submit whose email does not match the `type="email"` format (src/components/Contact.tsx:155). Email syntax is not modelled, so the model lets through submissions with a malformed email that the browser blocks.
- The contact information and social link lists in Contact are static data with no behaviour and are not modelled.
