# BeventX event photo sharing — a Dafny model of its client-side rules

BeventX is a web app for sharing photos at events. An organiser creates an event through a wizard and gets a short event code. Guests open the event's feed with that code, give a display name and post photos, videos and voice notes. Administrators see payments, users and dashboard counters.

Most of the app is React screens over a hosted backend. This project models the deterministic rules inside those screens and proves properties about them:

- the guest session kept in browser storage and the feed's state;
- the camera countdown and the voice recorder;
- face grouping and tagging;
- the moment-type and dashboard aggregations;
- the event-creation wizard;
- card-number formatting and the Bit payment check;
- the administrators' payment, user and session logic;
- resolving the URL path to a page;
- the page frame's guest mode and copy protection.

Every backend call (queries, creates, updates, uploads, the face recogniser) is a parameter. A list query's answer is an `Ok(rows)` or `Err(message)` value, and a create or update that may fail is a boolean or a `Result`. Randomness and clocks (guest ids, avatar colours, the random event code, timestamps) are parameters too. Timers become explicit tick methods.

Screens whose handlers change component state are classes whose methods change fields. Pure expressions are functions, with lemmas about them. Where the source loops (grouping faces, collecting scan results, grouping stories, formatting a card number), the model is a method with a loop, proved equal to a specification function.

Modules, one per source file, plus three shared ones:

- `Common`: JavaScript truthiness, `trim`, ASCII `toLowerCase`/`toUpperCase`, `includes`, `filter` and sublists.
- `Grouping`: the key order of a plain JavaScript object, and bucketing items by key.
- `Entities`: the backend records.
- `GuestStorage`, `EventFeed`, `GuestEntry`, `Camera`, `VoiceRecorder`, `FaceRecognition`, `EventView`, `MomentStories`, `EventsDashboard`.
- `CreateEvent`, `PaymentPage`, `AdminPayments`, `AdminData`, `AdminUsers`, `AdminAuth`, `Routing`, `Layout`.

## Model

| member | source | states |
|---|---|---|
| GuestStorage.KeysDistinct | src/pages/EventFeed.jsx:65-66 | `guestName_<code>` and `guestId_<code>` never collide, and each key determines its code |
| GuestStorage.Store.GetItem | src/pages/EventFeed.jsx:65-66 | reading a key gives its stored value, and null exactly when the key is absent |
| GuestStorage.Store.SetItem | src/pages/GuestEntry.jsx:83-84 | writing sets that one key and leaves every other key as it was |
| EventFeed.NameEntryRedirect | src/pages/EventFeed.jsx:58-75 | with a code in the URL, the guest is sent to the name-entry page for that same code exactly when the stored name or id for the code is missing or empty; without a code nothing happens |
| EventFeed.FilterChipsSpec | src/pages/EventFeed.jsx:152-159 | the chips are `all` followed by distinct moment types, exactly those non-empty types some post carries, in order of first occurrence (a chip's first post comes before every post of a later chip); the row has no duplicates iff no post's type is `all` |
| EventFeed.FilteredPostsSpec | src/pages/EventFeed.jsx:273-276 | `all` returns the list unchanged; any other filter returns an order-preserving sublist holding exactly the posts of that moment type |
| EventFeed.MomentTagsOrder | src/pages/EventFeed.jsx:152-159 | of two moment types in the chip row, the earlier one's first post comes before every post of the later one |
| EventFeed.StoredNameWins | src/pages/EventFeed.jsx:171-178 | a stored name beats the one passed with the post, whatever id is stored, and `event_id` is always the loaded event's id |
| EventFeed.StoredIdWins | src/pages/EventFeed.jsx:172-179 | a stored id beats the one passed with the post, whatever name is stored |
| EventFeed.InlineIdentityFallback | src/pages/EventFeed.jsx:175-179 | with no stored name, the passed name is the one used and the default label only replaces an absent or empty one; with no stored id, the passed id is the one used and `guest_id` is null unless one was passed |
| EventFeed.ToggleSpec | src/pages/EventFeed.jsx:198-212 | a like or save toggle flips only that post's flag; toggling twice restores every flag, and the map itself when the post had an entry |
| EventFeed.CaptionPreview | src/pages/EventFeed.jsx:615-618 | a caption of at most 80 characters is shown whole; a longer one as its first 80 characters followed by `...` |
| EventFeed.Feed.constructor | src/pages/EventFeed.jsx:22-41 | the feed starts with no event, no posts, empty flag and comment maps, and the `all` filter |
| EventFeed.Feed.LoadEvent | src/pages/EventFeed.jsx:77-163 | no code redirects home; an unknown code or a failed query redirects home; otherwise the first matching event is loaded with its posts, and its chips are derived from them |
| EventFeed.Feed.HandleNewPost | src/pages/EventFeed.jsx:166-193 | with no event nothing happens; a created post is put in front of the list, which otherwise keeps its order; a failed create alerts and changes nothing |
| EventFeed.Feed.ToggleLike | src/pages/EventFeed.jsx:198-204 | the like map becomes the toggled map; posts, saves and comments are untouched |
| EventFeed.Feed.ToggleSave | src/pages/EventFeed.jsx:206-211 | the save map becomes the toggled map; posts, likes and comments are untouched |
| EventFeed.Feed.SetCommentText | src/pages/EventFeed.jsx:861 | the comment input holds what was typed |
| EventFeed.Feed.HandleCommentSubmit | src/pages/EventFeed.jsx:236-252 | a whitespace-only comment is ignored; otherwise exactly one comment with the typed text goes at the end of that post's thread and the input is cleared |
| EventFeed.CommentOnlyTouchesTarget | src/pages/EventFeed.jsx:245-248 | adding a comment grows that post's thread by one and leaves every other thread unchanged |
| GuestEntry.IdentityPassesFeedCheck | src/pages/GuestEntry.jsx:83-84 | the two keys written on success satisfy the feed's identity check for the code, so the feed lets the guest in |
| GuestEntry.MissingIdentityReturnsHere | src/pages/EventFeed.jsx:65-71 | a code with no stored name sends the guest back to the name-entry page for that code |
| GuestEntry.Entry.constructor | src/pages/GuestEntry.jsx:16-25 | a `code` URL parameter starts at the name step with that code; otherwise the code step with an empty code |
| GuestEntry.Entry.SetEventCode | src/pages/GuestEntry.jsx:141-144 | the code field keeps at most 10 typed characters, upper-cased, so it has no lower-case letter |
| GuestEntry.Entry.SetGuestName | src/pages/GuestEntry.jsx:167 | the name field holds what was typed |
| GuestEntry.Entry.ValidateCode | src/pages/GuestEntry.jsx:27-55 | a blank code sets an error and queries nothing; an unknown code sets an error and stays on the code step; a known code moves to the name step; a failed query sets an error |
| GuestEntry.Entry.HandleSubmit | src/pages/GuestEntry.jsx:57-108 | a blank name sets an error and writes nothing; an unknown code or a failed lookup sets an error and writes nothing; for a known code both keys for the entered code are written before the guest record (with the event's id) is created, and the guest is sent to the feed; a failed create leaves the keys and redirects nowhere |
| Camera.IdleStays | src/components/camera/CameraComponent.jsx:53-69 | a timer that is not running, or at 0, is unaffected by ticks and takes no photo |
| Camera.CountdownFiresOnce | src/components/camera/CameraComponent.jsx:53-69 | a countdown from `n` shows `n - k` after `k < n` ticks, and from the `n`-th tick on it has fired exactly once and stopped at 0 |
| Camera.TimerButton | src/components/camera/CameraComponent.jsx:402 | the timer button sets 3 seconds when off and off otherwise |
| Camera.TimerButtonTwice | src/components/camera/CameraComponent.jsx:402 | two presses restore the setting exactly when it was 0 or 3 |
| Camera.PhotoPayload | src/components/camera/CameraComponent.jsx:173-183 | a payload exists iff `file_url` is present; it has type `photo`, that URL and the caption verbatim |
| Camera.CameraScreen.constructor | src/components/camera/CameraComponent.jsx:72-83 | a saved name for the code is used; otherwise the name prompt opens exactly when there is a code |
| Camera.CameraScreen.SetGuestName | src/components/camera/CameraComponent.jsx:300 | the prompt's name field holds what was typed |
| Camera.CameraScreen.SaveGuestName | src/components/camera/CameraComponent.jsx:85-111 | a blank name changes nothing; otherwise the name and the new id are stored under the same code, a guest record uses the code as its `event_id`, and the prompt closes whether or not the record was created |
| Camera.CameraScreen.PressTimerButton | src/components/camera/CameraComponent.jsx:402 | the timer setting becomes `TimerButton` of the old one |
| Camera.CameraScreen.HandleCapture | src/components/camera/CameraComponent.jsx:276-282 | with a timer set the countdown starts and nothing is taken; otherwise one photo is taken at once |
| Camera.CameraScreen.TimerTick | src/components/camera/CameraComponent.jsx:53-69 | one interval tick: the countdown decrements, or at 1 or less stops at 0 and takes one photo |
| Camera.CameraScreen.PhotoTaken | src/components/camera/CameraComponent.jsx:269 | the drawn frame becomes the captured image |
| Camera.CameraScreen.SetCaption | src/components/camera/CameraComponent.jsx:356 | the caption holds what was typed |
| Camera.CameraScreen.UploadPhoto | src/components/camera/CameraComponent.jsx:154-204 | nothing without an image; a failed upload or a missing `file_url` alerts and emits nothing; otherwise the photo capture goes to the feed and the screen closes |
| VoiceRecorder.FormatTime | src/components/camera/VoiceRecorder.jsx:134-138 | the display is the whole minutes unpadded, a colon, and the seconds within the minute as exactly two digits |
| VoiceRecorder.ParseFormat | src/components/camera/VoiceRecorder.jsx:134-138 | reading the display back gives the number of seconds it was made from |
| VoiceRecorder.FormatInjective | src/components/camera/VoiceRecorder.jsx:134-138 | different durations are displayed differently |
| VoiceRecorder.Stopped | src/components/camera/VoiceRecorder.jsx:71-84 | stopping acts only with a recorder and `isRecording` set, and then ends recording and clears the interval; otherwise nothing changes |
| VoiceRecorder.StaleClosureNeverStops | src/components/camera/VoiceRecorder.jsx:54-63 | as written, a recording started from idle is never stopped by the timer: after `k` ticks it is still recording and shows `k` seconds, past 60 too |
| VoiceRecorder.RecordingCappedAt60 | src/components/camera/VoiceRecorder.jsx:55-63 | with the intended stop, after `k` ticks the display shows `min(k, 60)`, and recording and the interval end exactly at the 60th tick |
| VoiceRecorder.IdleUnchanged | src/components/camera/VoiceRecorder.jsx:55-63 | without a running interval, ticks change nothing |
| VoiceRecorder.Recorder.constructor | src/components/camera/VoiceRecorder.jsx:7-15 | the recorder starts idle at 0 seconds with no audio |
| VoiceRecorder.Recorder.StartRecording | src/components/camera/VoiceRecorder.jsx:28-69 | the chunk buffer is emptied first; an opened microphone starts recording and a fresh interval; a refused one alerts and changes nothing else |
| VoiceRecorder.Recorder.DataAvailable | src/components/camera/VoiceRecorder.jsx:36-38 | a chunk is pushed at the end of the buffer |
| VoiceRecorder.Recorder.StopRecording | src/components/camera/VoiceRecorder.jsx:71-84 | the new state is `Stopped` of the old one, with the current `isRecording` |
| VoiceRecorder.Recorder.TimerTick | src/components/camera/VoiceRecorder.jsx:55-63 | one tick of the corrected interval, as `Tick` states |
| VoiceRecorder.Recorder.RecorderStopped | src/components/camera/VoiceRecorder.jsx:40-48 | the buffered chunks become the playable audio |
| VoiceRecorder.Recorder.ResetRecording | src/components/camera/VoiceRecorder.jsx:102-108 | the audio URL is cleared and the time is 0 |
| VoiceRecorder.Recorder.HandleSave | src/components/camera/VoiceRecorder.jsx:110-131 | nothing without audio; a failed upload alerts; otherwise a `voice` note with the uploaded URL, or none when the answer names no `file_url`, and the displayed duration is saved |
| Grouping.OwnKeysOrderShape | src/components/ai/FaceRecognition.jsx:165 | an object's key order holds every created key once, integer-like keys first in ascending order, then the others in creation order |
| Grouping.Decimal | src/components/camera/VoiceRecorder.jsx:137 | `String(n)` is a non-empty run of digits, with no leading zero, whose value is `n` |
| Grouping.SortByIndex | src/components/ai/FaceRecognition.jsx:165 | the integer-like keys are put in ascending numeric order, keeping each key exactly once |
| Grouping.OwnKeysOrderMembers | src/components/ai/FaceRecognition.jsx:165 | the object's keys are exactly the keys created |
| Grouping.FirstKeysSpec | src/components/ai/FaceRecognition.jsx:146-154 | the created keys are distinct, and are exactly the keys some item carries |
| Grouping.FirstKeysOrder | src/components/ai/FaceRecognition.jsx:146-154 | the created keys are in order of first appearance: each key's first item comes before every item of a later key, the creation order `OwnKeysOrderShape` keeps for non-integer keys |
| Grouping.BucketsCoverItems | src/components/ai/FaceRecognition.jsx:146-162 | every item lands in the bucket of exactly one key, so the bucket sizes add up to the number of items |
| Grouping.OrderedBucketsCoverItems | src/components/ai/FaceRecognition.jsx:146-165 | read out in object key order, the buckets still add up to the number of items |
| Grouping.OrderedKeysSpec | src/components/ai/FaceRecognition.jsx:146-165 | the grouping's keys in object order are distinct and are exactly the keys with a non-empty bucket |
| FaceRecognition.GroupSimilarFaces | src/components/ai/FaceRecognition.jsx:135-165 | the loop that fills the dictionary and reads it out returns exactly the specified grouping |
| FaceRecognition.ReadOut | src/components/ai/FaceRecognition.jsx:165 | `Object.values` returns one group per key, in key order |
| FaceRecognition.GroupedIsPartition | src/components/ai/FaceRecognition.jsx:146-165 | the groups hold as many instances as there were faces, and their `face_id`s are pairwise distinct |
| FaceRecognition.GroupedHoldsEveryFace | src/components/ai/FaceRecognition.jsx:146-162 | every face appears as an instance in the group of its own `face_id` |
| FaceRecognition.GroupedProvenance | src/components/ai/FaceRecognition.jsx:147-161 | a group is unnamed and its instances are exactly the faces with its id, in input order |
| FaceRecognition.GroupedSmall | src/components/ai/FaceRecognition.jsx:136-140 | zero faces give no groups; one face gives one unnamed group holding that face |
| FaceRecognition.FailedPhotoSkipped | src/components/ai/FaceRecognition.jsx:94-108 | a photo whose recognition failed contributes no faces, and the photos after it are still scanned |
| FaceRecognition.ScannedProvenance | src/components/ai/FaceRecognition.jsx:94-103 | every scanned face came from a recognised photo and carries that photo's id and URL and the event's id |
| FaceRecognition.CollectFaces | src/components/ai/FaceRecognition.jsx:41-109 | the scan loop accumulates exactly the specified faces, photo by photo |
| FaceRecognition.InstanceTags | src/components/ai/FaceRecognition.jsx:213-221 | a named group yields one tag per instance, carrying the name and `face_id` and the instance's post, event and box |
| FaceRecognition.RenameTouchesOneGroup | src/components/ai/FaceRecognition.jsx:205-209 | with distinct ids, naming a group changes that group's name and no other group |
| FaceRecognition.Scanner.constructor | src/components/ai/FaceRecognition.jsx:14-21 | the panel starts with no groups, no selection and an empty name |
| FaceRecognition.Scanner.ScanForFaces | src/components/ai/FaceRecognition.jsx:23-132 | no photos (or a failed query) alerts and stops before grouping; otherwise the groups are those of the scanned faces, and the page is notified only when there are any |
| FaceRecognition.Scanner.HandleNameFace | src/components/ai/FaceRecognition.jsx:194-198 | the group is selected, the name cleared and the dialog opened |
| FaceRecognition.Scanner.SetPersonName | src/components/ai/FaceRecognition.jsx:19 | the name field holds what was typed |
| FaceRecognition.Scanner.SaveFaceName | src/components/ai/FaceRecognition.jsx:200-228 | a blank name or no selection does nothing; otherwise the groups with the selected id are renamed, one tag per instance is created, and a failure stops the remaining tags |
| EventView.TagsOfSpec | src/pages/EventView.jsx:80-93 | only named groups contribute; each tag comes from an instance of a named group, with its name and id and the instance's post, event and box; every such instance yields its tag |
| EventView.PersonNames | src/pages/EventView.jsx:265 | the people counted are exactly the non-empty names on the tags |
| EventView.RepeatedTagsKeepCount | src/pages/EventView.jsx:95 | reporting the same groups again appends duplicate tags but leaves the people count unchanged |
| EventView.EventTypeToHebrew | src/pages/EventView.jsx:161-171 | the label of a known type; an unknown type is returned as it is |
| EventView.GetCoverImage | src/pages/EventView.jsx:173-189 | the event's own cover when set, else the type's default, else the `other` default |
| EventView.DeleteSpec | src/pages/EventView.jsx:111 | deletion keeps, in order, exactly the posts with another id |
| EventView.EventPage.constructor | src/pages/EventView.jsx:62-66 | the page holds the loaded posts and tags |
| EventView.CollectTags | src/pages/EventView.jsx:78-93 | the nested loops produce exactly the named groups' tags, group by group and instance by instance |
| EventView.PushInstanceTags | src/pages/EventView.jsx:83-91 | the inner loop appends one tag per instance of a named group, in order, after the tags already collected |
| EventView.EventPage.HandleFacesDetected | src/pages/EventView.jsx:75-97 | the named groups' tags are appended after the existing tags, which stay an unchanged prefix |
| EventView.EventPage.DeletePost | src/pages/EventView.jsx:105-116 | declined or failed, nothing changes; otherwise only the posts with that id are removed |
| MomentStories.StoryKey | src/components/stories/MomentStories.jsx:15 | a post's group is its moment type, or `general` when that is empty |
| MomentStories.Collect | src/components/stories/MomentStories.jsx:13-20 | the `reduce` leaves a dictionary whose keys are the posts' keys in order of first appearance, each holding exactly that key's posts in input order |
| MomentStories.GroupPosts | src/components/stories/MomentStories.jsx:14-26 | the `reduce` loop and `Object.entries` return exactly the specified stories |
| MomentStories.Entries | src/components/stories/MomentStories.jsx:26 | one story per key, in key order |
| MomentStories.StoriesPartition | src/components/stories/MomentStories.jsx:14-21 | the group sizes add up to the number of posts, keys are distinct and no group is empty |
| MomentStories.StoriesMembership | src/components/stories/MomentStories.jsx:14-21 | each post is in the group of its key, and each group holds only its key's posts, in input order |
| MomentStories.Thumbnail | src/components/stories/MomentStories.jsx:31 | a bubble shows its first post's media |
| MomentStories.ThumbnailIsFirstOfGroup | src/components/stories/MomentStories.jsx:14-31 | the bubble of a post's group shows that post's media when no earlier post is in the group |
| MomentStories.Label | src/components/stories/MomentStories.jsx:4-11 | known moment types have their label and other keys none |
| MomentStories.UntypedPostsAreGeneral | src/components/stories/MomentStories.jsx:15 | posts without a type are under the `general` bubble, which has a label |
| EventsDashboard.EventStatsBounds | src/pages/EventsDashboard.jsx:71-79 | photos plus videos never exceed the posts, a post of any other kind is in neither count, and the people count never exceeds the tags |
| EventsDashboard.FetchEvents | src/pages/EventsDashboard.jsx:63-87 | the events are listed; the counters come from the first event's posts and tags; a failure leaves them; loading ends either way |
| EventsDashboard.OnlyFirstEventCounts | src/pages/EventsDashboard.jsx:68-74 | posts and tags of any event other than the first leave the counters unchanged |
| EventsDashboard.NoEventsZeroStats | src/pages/EventsDashboard.jsx:35-39 | an organiser without events keeps the zero counters |
| CreateEvent.Target | src/pages/CreateEvent.jsx:398-682 | start and continue move exactly one step forward, back exactly one step back |
| CreateEvent.BackUndoesForward | src/pages/CreateEvent.jsx:474-682 | every back button returns to the step whose forward button led there |
| CreateEvent.ForwardPath | src/pages/CreateEvent.jsx:398-682 | start leads from welcome to the type card, continue from basic info to cover, date and summary; no button leads into basic info, only choosing a type does |
| CreateEvent.ExistingOwnerBlocked | src/pages/CreateEvent.jsx:399 | an owner with an event who is not editing cannot press start, the only way to the type card |
| CreateEvent.TitleRequired | src/pages/CreateEvent.jsx:475 | continue from basic info is disabled while the title is empty |
| CreateEvent.EventTypeEmoji | src/pages/CreateEvent.jsx:246-257 | the emoji of a known type; the calendar default exactly for the others |
| CreateEvent.RandomCode | src/pages/CreateEvent.jsx:223 | the code is at most 4 characters (exactly 4 from a long enough random text), has no lower-case letter, and is characters 2-5 of the text upper-cased |
| CreateEvent.OwnerEmail | src/pages/CreateEvent.jsx:227 | the user's e-mail when there is one, else the placeholder owner; never empty |
| CreateEvent.SubmitRequest | src/pages/CreateEvent.jsx:212-231 | editing sends an update of the five editable fields of the form's id; creating sends the whole form with a fresh code and the owner |
| CreateEvent.CreatedCodeShape | src/pages/CreateEvent.jsx:223-227 | a created event's code is at most four characters with no lower-case letter, and its owner e-mail is never empty |
| CreateEvent.FormOf | src/pages/CreateEvent.jsx:143-152 | the form `loadEvent` fills keeps the event's id, title, type and code, and its cover only when present |
| CreateEvent.Wizard.constructor | src/pages/CreateEvent.jsx:34-51 | the wizard starts on the welcome card with an empty form, not editing |
| CreateEvent.Wizard.CheckExistingEvent | src/pages/CreateEvent.jsx:122-137 | while not editing, an owner with an event is flagged and, unless the URL asks to edit, sent to the dashboard |
| CreateEvent.Wizard.CheckAuth | src/pages/CreateEvent.jsx:98-120 | no user or a failed lookup sends the visitor to the welcome page; otherwise the user is kept and the existing-event check runs |
| CreateEvent.Wizard.LoadEvent | src/pages/CreateEvent.jsx:139-166 | a found event fills the form, shows its cover, turns editing on and returns to welcome; otherwise nothing but loading changes |
| CreateEvent.Wizard.SetField | src/pages/CreateEvent.jsx:168-173 | one text field takes the typed value; the others are unchanged |
| CreateEvent.Wizard.SelectEventType | src/pages/CreateEvent.jsx:175-181 | the type is stored and the basic-info card follows |
| CreateEvent.Wizard.UploadCover | src/pages/CreateEvent.jsx:183-202 | the local preview shows at once; the cover is set only when the upload succeeds |
| CreateEvent.Wizard.Press | src/pages/CreateEvent.jsx:398-682 | a shown, enabled button moves to its target; otherwise the step is unchanged |
| CreateEvent.Wizard.Submit | src/pages/CreateEvent.jsx:204-244 | an empty title or type alerts and sends nothing; otherwise the request is sent during processing, an error returns to the summary, success waits for the delay |
| CreateEvent.Wizard.PressSubmit | src/pages/CreateEvent.jsx:689-690 | the submit button works only on the summary card and not for an owner with an event who is not editing |
| CreateEvent.Wizard.DelayElapsed | src/pages/CreateEvent.jsx:234-237 | after the delay the saved event is shown on the success card |
| PaymentPage.CardDigits | src/pages/Payment.jsx:65-67 | the run `\d{4,16}` finds is the first `min(16, n)` digits of the input, or nothing with fewer than 4 |
| PaymentPage.ChunksSpec | src/pages/Payment.jsx:68-72 | the groups cover the run in order; every group but the last has 4 characters and the last 1 to 4 |
| PaymentPage.FormattedShape | src/pages/Payment.jsx:64-79 | with 4 or more digits, dropping the spaces of the output gives the first `min(16, n)` digits of the input, and the output is at most 19 characters, the field's maximum length |
| PaymentPage.JoinDigits | src/pages/Payment.jsx:75 | joining digit groups with spaces keeps their digits, in order, and adds nothing else |
| PaymentPage.JoinLength | src/pages/Payment.jsx:75 | the joined text is the digits plus one space between each pair of groups |
| PaymentPage.FewDigitsUnchanged | src/pages/Payment.jsx:74-78 | with fewer than 4 digits the input is returned as typed |
| PaymentPage.FormatIdempotent | src/pages/Payment.jsx:64-79 | formatting a formatted number changes nothing |
| PaymentPage.FormatCardNumber | src/pages/Payment.jsx:64-79 | the loop that cuts the run by 4 and joins with spaces returns exactly the specified format |
| PaymentPage.PlanFor | src/pages/Payment.jsx:43-54 | no `plan` parameter gives premium; known ids give their plan (199, 399, 699); an unknown id gives none |
| PaymentPage.SpinnerExactlyForUnknownPlans | src/pages/Payment.jsx:253-259 | the page stays on its spinner exactly for an id that names no plan |
| PaymentPage.BitAcceptedAsWritten | src/pages/Payment.jsx:110-113 | the check as written: the transaction id, the amount and the last digits must all be truthy |
| PaymentPage.BitAccepted | src/pages/Payment.jsx:110-113 | the corrected check accepts exactly what the written one does, minus amounts typed as zero |
| PaymentPage.TypedZeroAccepted | src/pages/Payment.jsx:169-176 | the untouched amount 0 is refused, but an amount typed as `0` is a non-empty string and passes the written check |
| PaymentPage.ZeroAmountRefused | src/pages/Payment.jsx:110-113 | the corrected check refuses every zero amount, untouched or typed |
| AdminPayments.RevenueCons | src/pages/AdminPayments.jsx:143-145 | revenue is the sum of the approved amounts, one payment at a time |
| AdminPayments.FilteredPaymentsSpec | src/pages/AdminPayments.jsx:119-135 | an order-preserving sublist of exactly the payments of the chosen status (any, for `all`) whose lower-cased e-mail or transaction id contains the lower-cased non-empty query; `all` with no query is the whole list |
| AdminPayments.Stats | src/pages/AdminPayments.jsx:138-146 | the total is the list length, the three status counts add up to at most the total, and revenue is the approved sum |
| AdminPayments.OtherStatusUncounted | src/pages/AdminPayments.jsx:139-145 | a payment of another status raises only the total |
| AdminPayments.ApprovedRecord | src/pages/AdminPayments.jsx:74-77 | the approved record is the same payment with status `approved` and every other field unchanged |
| AdminPayments.RejectedRecord | src/pages/AdminPayments.jsx:98-105 | the rejected record has status `rejected` and refund data with the date and reason, and every other field unchanged |
| AdminPayments.ReplaceById | src/pages/AdminPayments.jsx:74 | an update replaces every row with that id and leaves the others |
| AdminPayments.ApprovalAddsRevenue | src/pages/AdminPayments.jsx:71-80 | approving a pending payment with a unique id raises revenue by exactly its amount |
| AdminPayments.RejectionKeepsRevenue | src/pages/AdminPayments.jsx:90-108 | rejecting a pending payment leaves revenue unchanged |
| AdminPayments.RowActions | src/pages/AdminPayments.jsx:323-352 | details always; approve and reject exactly for pending payments; the receipt mail exactly for approved ones |
| AdminPayments.PaymentsPage.constructor | src/pages/AdminPayments.jsx:33-39 | the screen starts with nothing loaded, nothing selected and both dialogs closed |
| Entities.NewestPage | src/components/admin/DataProvider.jsx:77 | a `list('-created_date', 100)` answer is the first `min(n, 100)` rows of the table kept newest first |
| AdminPayments.PaymentsPage.LoadPayments | src/components/admin/DataProvider.jsx:74-85 | the page's list is the newest 100 rows of the table, or empty when the query fails |
| AdminPayments.PaymentsPage.HandleApprovePayment | src/pages/AdminPayments.jsx:61-64 | the payment is selected and the approval dialog opens |
| AdminPayments.PaymentsPage.HandleRejectPayment | src/pages/AdminPayments.jsx:66-69 | the payment is selected and the rejection dialog opens |
| AdminPayments.PaymentsPage.SetRejectReason | src/pages/AdminPayments.jsx:416 | the reason field holds what was typed |
| AdminPayments.PaymentsPage.ConfirmApproval | src/pages/AdminPayments.jsx:71-88 | the selected payment is written back approved, the newest 100 rows reloaded and the dialog closed; a failed write alerts and changes nothing |
| AdminPayments.ReloadShowsWrite | src/pages/AdminPayments.jsx:74-80 | the reload after a write shows the page shown before with the record written into it |
| AdminPayments.PaymentsPage.ConfirmRejection | src/pages/AdminPayments.jsx:90-117 | no reason alerts and writes nothing; otherwise the payment is written back rejected with the reason, the newest 100 rows reloaded, the dialog closed and the reason cleared |
| AdminData.Settle | src/components/admin/DataProvider.jsx:32-43 | a loader ends not loading: the rows with no error, no list for a `null` answer, or after a failure an empty list and the message |
| AdminData.Calculate | src/components/admin/DataProvider.jsx:100-136 | the totals are the list lengths, revenue and pending count are the payment screen's; a null list throws, which zeroes every counter and records the error |
| AdminData.FailedLoaderStillCounts | src/components/admin/DataProvider.jsx:39-42 | a failing loader counts as zero and the other totals are still computed |
| AdminData.TotalsWithinPage | src/components/admin/DataProvider.jsx:100-110 | when every answer respects the 100-row limit, no total and no pending count exceeds 100 |
| AdminData.DashboardAgreesWithPaymentScreen | src/components/admin/DataProvider.jsx:106-110 | the dashboard's revenue and pending count equal the payment screen's, and pending never exceeds the total |
| AdminData.DataProvider.constructor | src/components/admin/DataProvider.jsx:15-29 | every loader and the dashboard start loading with empty lists and zero counters |
| AdminData.DataProvider.LoadUsers | src/components/admin/DataProvider.jsx:32-43 | users are queried newest first, at most 100; the state settles and the rows are returned |
| AdminData.DataProvider.LoadEvents | src/components/admin/DataProvider.jsx:46-57 | events are queried newest first, at most 100; the state settles and the rows are returned |
| AdminData.DataProvider.LoadMedia | src/components/admin/DataProvider.jsx:60-71 | posts are queried newest first, at most 100; the state settles and the rows are returned |
| AdminData.DataProvider.LoadPayments | src/components/admin/DataProvider.jsx:74-85 | payments are queried newest first, at most 100; the state settles and the rows are returned |
| AdminData.DataProvider.CalculateDashboardStats | src/components/admin/DataProvider.jsx:88-137 | all four loaders run, each query newest first and limited to 100, and the counters are computed from what they returned |
| AdminUsers.FilteredUsersSpec | src/pages/AdminUsers.jsx:220-237 | an order-preserving sublist of exactly the users of the chosen status (any, for `all`) whose lower-cased name or e-mail, or raw id, contains the non-empty query |
| AdminUsers.IdSearchIsCaseSensitive | src/pages/AdminUsers.jsx:232 | the id is not lower-cased: an id with capitals is not found by typing it, while the same text in the name is |
| AdminUsers.ToggledFilter | src/pages/AdminUsers.jsx:290 | the filter button turns `all` into `active` and anything else into `all` |
| AdminUsers.ToggleTwice | src/pages/AdminUsers.jsx:290 | two presses restore `all` or `active` |
| AdminUsers.Suspended | src/pages/AdminUsers.jsx:193 | only the users with that id become suspended with the reason; the rest are as they were |
| AdminUsers.Activated | src/pages/AdminUsers.jsx:214 | only the users with that id become active without a reason; the rest are as they were |
| AdminUsers.SuspendThenActivate | src/pages/AdminUsers.jsx:176-217 | suspending an active user without a reason and activating it again gives back the list |
| AdminUsers.DeleteSpec | src/pages/AdminUsers.jsx:166 | deletion keeps, in order, exactly the users with another id |
| AdminUsers.MenuItems | src/pages/AdminUsers.jsx:399-415 | suspend exactly for active users, activate for the others |
| AdminUsers.UsersPage.constructor | src/pages/AdminUsers.jsx:40-43 | the page starts with the users `fetchUsers` installs, the `all` filter and no query |
| AdminUsers.UsersPage.SetSearchQuery | src/pages/AdminUsers.jsx:282 | the query holds what was typed |
| AdminUsers.UsersPage.ToggleFilter | src/pages/AdminUsers.jsx:290 | the filter becomes `ToggledFilter` of the old one |
| AdminUsers.UsersPage.DeleteUser | src/pages/AdminUsers.jsx:151-174 | unconfirmed nothing changes; confirmed and logged, the users with that id are removed; a failed log write alerts and removes none |
| AdminUsers.UsersPage.SuspendUser | src/pages/AdminUsers.jsx:176-198 | a cancelled or empty reason changes nothing; otherwise, once logged, only that user is suspended |
| AdminUsers.UsersPage.ActivateUser | src/pages/AdminUsers.jsx:200-218 | once logged, only that user becomes active and loses its reason |
| AdminAuth.Account | src/components/auth/AdminAuth.jsx:8-55 | only the two fixed e-mail/password pairs have an account, which carries that e-mail, the login time and a token |
| AdminAuth.Current | src/components/auth/AdminAuth.jsx:62-76 | without a truthy token and account record it fails as not logged in; when it succeeds, the record returned is the one stored |
| AdminAuth.StoredRoleIsTrusted | src/components/auth/AdminAuth.jsx:62-96 | any non-empty token beside a stored record with role `super_admin` passes every permission check, with no login |
| AdminAuth.Permitted | src/components/auth/AdminAuth.jsx:89-103 | no one logged in: false; a super administrator: true; anyone else: membership in their permissions |
| AdminAuth.LoginThenCurrent | src/components/auth/AdminAuth.jsx:27-31 | after a successful login the session reads back the account just stored; unknown credentials leave storage as it was |
| AdminAuth.LogoutThenNone | src/components/auth/AdminAuth.jsx:78-87 | after logout no one is logged in and no permission holds |
| AdminAuth.SupportPermissions | src/components/auth/AdminAuth.jsx:36-42 | the support account manages content but not users; the super administrator may do anything |
| AdminAuth.AdminStore.Authenticate | src/components/auth/AdminAuth.jsx:2-60 | a known pair stores the account and its token and returns the account; any other pair fails and writes nothing |
| AdminAuth.AdminStore.Logout | src/components/auth/AdminAuth.jsx:78-87 | both keys are removed and nothing else, after which no one is logged in |
| Routing.StripSlash | src/pages/index.jsx:74-76 | exactly one trailing `/` is removed, and a path without one is kept; the path is the result with at most one `/` put back |
| Routing.LastSegment | src/pages/index.jsx:77 | the text after the last `/`, or all of it: a suffix with no `/`, preceded by a `/` when shorter |
| Routing.BeforeQuery | src/pages/index.jsx:78-80 | the text before the first `?`, or all of it: a prefix with no `?`, followed by a `?` when shorter |
| Routing.Find | src/pages/index.jsx:82 | the key found matches the candidate ignoring case; none is found only when no key matches |
| Routing.CurrentPage | src/pages/index.jsx:73-84 | the page shown is always a key of the page table |
| Routing.PagesDistinctLowered | src/pages/index.jsx:37-71 | no two page keys are equal once lower-cased |
| Routing.PlainSegment | src/pages/index.jsx:74-80 | `/name` and `/name/` leave `name` for the lookup when it holds no `/` or `?` |
| Routing.QuerySegment | src/pages/index.jsx:77-80 | `/name?query` leaves `name` for the lookup |
| Routing.CurrentPageSpec | src/pages/index.jsx:73-84 | the page shown is the key that the last segment names, ignoring case, and the first key `EventFeed` when it names none |
| Routing.ResolvesEveryPage | src/pages/index.jsx:74-83 | every page is reached by `/Name` and `/name`, with one trailing `/`, and with a query after it |
| Routing.RootIsFeed | src/pages/index.jsx:83 | `/` and the empty path show `EventFeed`, the root route's page |
| Layout.Render | src/pages/Layout.jsx:168-190 | `Home` renders only its children; the feed without a code redirects home and renders nothing; otherwise the guest frame exactly in guest mode |
| Layout.RenderAfterEffect | src/pages/Layout.jsx:52-59 | once the effect has run, the guest frame appears exactly for the feed or guest entry with a code, and the feed never has the full frame |
| Layout.RootNeedsCode | src/pages/Layout.jsx:180-187 | the root, which is the feed, sends a visitor without a code home and shows the guest frame with one |
| Layout.ShortcutsAreLowerCaseOnly | src/pages/Layout.jsx:119-131 | Ctrl+c and Meta+s are blocked, and so is PrintScreen; a capital `C` (Shift held) and an unmodified `c` pass |
| Layout.AllowCopyPassesEverything | src/pages/Layout.jsx:106-131 | inside `allow-copy` no key and no context menu is blocked; elsewhere no unmodified key but PrintScreen is blocked, and the context menu always is |

## Left out

- The backend, uploads and the face recogniser are not modelled. Their answers are parameters, and records are created in lists the classes keep.
- OAuth login and logout are not modelled, nor is e-mail sending (the Bit payment mail and the receipt mail).
- Timers are explicit tick methods. Interval scheduling, React effect ordering and re-rendering are not modelled. The processing delay of the creation wizard is a separate step.
- Device I/O is not modelled: the camera stream, canvas drawing and cropping, `MediaRecorder` and blob URLs. The captured frame and the recorded audio URL are parameters.
- The feed's progress animation, confetti, video playback and view switching are not modelled. Neither is the event page's QR code, sharing or download.
- Strings are sequences of Unicode code points; JavaScript's `.length` counts UTF-16 units. So `EventFeed.CaptionPreview` cuts at 80 code points where the source cuts at 80 UTF-16 units, which differs for captions with emoji.
- `toLowerCase` and `toUpperCase` are modelled on ASCII letters only. For the page names this loses nothing, since no non-ASCII character lower-cases to an ASCII letter they contain.
- `trim` is modelled with the common whitespace characters (ASCII space, tab, line breaks, NBSP, BOM, line and paragraph separators), not the full Unicode set.
- Object keys that name `Object.prototype` members are not modelled. A plan id `constructor`, or a `face_id` or moment type such as `toString`, behaves differently in the source.
- `AdminAuth.Current`: stored text that is not an account record counts as a failure. The source returns whatever the JSON parses to: `null`, a number, or a record missing fields. A missing field is modelled as some value of that field. This matters only for the `permissions` of a record whose role is not `super_admin`: the source then throws and `hasPermission` answers false. A partial record such as `{"role":"super_admin"}` passes every check, as `AdminAuth.StoredRoleIsTrusted` shows for any record with that role.
- `EventsDashboard.FetchEvents`: a missing user is not modelled; the redirect to the welcome page in `checkAuth` is UI glue.
- `AdminUsers.UsersPage.constructor`: the hard-coded list of sample users is fixture data, so the constructor takes any list.
- `AdminPayments.PaymentsPage.LoadPayments`: the reload is the data provider's loader; its `loading` flag and error message are in `AdminData`. The table is assumed kept newest first, so the `-created_date` order is its order; creation dates are not modelled.
- `AdminPayments.Revenue`: payment amounts are exact reals. JavaScript adds them as floating-point numbers, so rounding in a revenue sum of non-whole amounts is not modelled; nor are amounts that are not numbers.
- `CreateEvent.Wizard.LoadEvent`: nothing in the source calls `loadEvent`, so no step of the model leads to it.
- UserSettings, Home, SelectPlan, Welcome and the administrators' login screens are not part of this model: they are rendering and redirects.
- The QR components and the email service are not part of this model either.

## Findings

| source | as written | input that shows it | evidently intended | confidence | as-written member | corrected member |
|---|---|---|---|---|---|---|
| src/components/camera/VoiceRecorder.jsx:54-63 | the 60-second interval calls `stopRecording`, which tests the `isRecording` captured when recording started (false), so it never stops | start from idle and let 61 ticks pass: still recording, display 1:01 | recording stops at 60 seconds | high (not executed) | VoiceRecorder.StaleClosureNeverStops | VoiceRecorder.RecordingCappedAt60 |
| src/pages/Payment.jsx:110-113 | the amount field holds the typed string, and the check only tests truthiness | amount typed as `0` with an id and last digits: accepted | a zero amount is refused, as the untouched 0 is | medium (not executed) | PaymentPage.TypedZeroAccepted | PaymentPage.ZeroAmountRefused |
