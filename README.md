# Rescofy page state, in Dafny

Rescofy is a Next.js site for animal rescue. Everything runs in the browser, and each
page keeps its state in React `useState` variables. This project models the
state logic of six pages and proves what that logic guarantees:

- **Shelter locator** (`app/shelters/page.tsx`):
  - the directory of six shelters;
  - ranking: every shelter gets its distance from an observer, then the list is
    sorted stably by that distance;
  - the case-insensitive service-tag filter;
  - the ZIP-code search guard;
  - the service chips of a card.
- **Abuse report** (`app/report/page.tsx`):
  - the report form;
  - evidence-file intake: only images and videos of at most 50 MiB are kept, and at most five files;
  - removing a file by index;
  - the drag-and-drop flag;
  - the submit-disabled rule;
  - the submission's end state.
- **Support** (`app/support/page.tsx`):
  - the donation and volunteer forms and their resets;
  - the per-dog love counters and message lists, which are maps keyed by dog id;
  - the message dialog;
  - the last-two-messages view.
- **Landing** (`app/page.tsx`): the success-story carousel index, with next and
  previous wrap-around and the indicator buttons.
- **Donate** (`app/donate/page.tsx`):
  - preset and custom amount selection;
  - the final amount;
  - the other form fields;
  - the submit-disabled rule;
  - the thank-you screen.
- **Contact** (`app/contact/page.tsx`):
  - the contact form and its reset;
  - the FAQ accordion, which holds one optional open question.

## How the model is built

Each page is a `class` whose fields are that page's `useState` variables, except the
shelter page's `map` state, which holds only the logging stand-in for a map.
- A form object (`formData`, `volunteerForm`) is a datatype held in one field.
- The shelter lists are `seq<Shelter>`.
- The per-dog dictionaries are `map`s.

Each event handler that changes state is a method. Its `ensures` clauses give the new value of every
field, including "unchanged" for the fields it leaves alone. The pure parts are
functions with their properties proved as lemmas:
- the map and sort;
- the filter predicate;
- the upload list;
- the index arithmetic;
- the disabled rules.

The pages' own loops and library calls are built from small shared pieces:
- `Text`: ASCII `trim`, `toLowerCase` and `includes`;
- `Sequences`: `filter`, `slice`, removal by index, and order-preserving subsequences;
- `Wrappers`: `Option`.

Design decisions:
- `calculateDistance` is a parameter of type `(Coord, Coord) -> real`, observer first. The
  ranking is proved for every such function.
- `Array.prototype.sort` is a stable sort, and is modelled as a stable insertion sort.
  `Shelters.StableSortUnique` shows that every stable sort by the same key gives the
  same list, so the choice of algorithm does not matter.
- The sort key is `(a.distance || 0)`: an absent distance counts as 0.
- The delays made with `setTimeout` or a `Promise` are not modelled. A handler that
  waits on one is modelled by the state it reaches once the wait is over.
- The report submission picks one of the three shelters with `Math.random`. The model
  makes an arbitrary choice among them. No rule picks the nearest shelter, and the
  model does not add one.

## Model

| member | source | states |
|---|---|---|
| Text.TrimStart | app/shelters/page.tsx:176 | the result is a suffix of the input; everything cut off is white space; the result does not start with white space |
| Text.TrimEnd | app/support/page.tsx:55 | the result is a prefix of the input; everything cut off is white space; the result does not end with white space |
| Text.Trim | app/support/page.tsx:52-55 | `trim()`: the result is a contiguous slice of the input; only white space is cut at either end; the result has no white space at its ends |
| Text.BlankIffAllWhitespace | app/shelters/page.tsx:176 | a string trims to empty exactly when every character of it is white space |
| Text.TrimIdempotent | app/support/page.tsx:55 | trimming a trimmed string changes nothing |
| Text.IsBlank | app/shelters/page.tsx:176 | the definition of `!s.trim()` (also app/support/page.tsx:52): the trimmed string is empty; `Text.BlankIffAllWhitespace` states what it means |
| Text.LowerChar | app/shelters/page.tsx:195 | ASCII upper-case letters map to their lower-case forms; every other character is kept; no upper-case letter remains |
| Text.Lower | app/shelters/page.tsx:195 | `toLowerCase()` keeps the length and lowers each character in place |
| Text.LowerIdempotent | app/shelters/page.tsx:195 | lowering twice is the same as lowering once |
| Text.Includes | app/shelters/page.tsx:195 | `includes` is true exactly when the needle occurs at some position of the haystack |
| Text.IncludesEmpty | app/shelters/page.tsx:195 | every string includes the empty string |
| Sequences.Filter | app/shelters/page.tsx:194-196 | `filter` gives an order-preserving subsequence; every kept element satisfies the predicate; each element that satisfies it is kept as many times as it occurs, and no other element is kept |
| Sequences.FilterIdempotent | app/shelters/page.tsx:194-196 | filtering a filtered list by the same predicate changes nothing |
| Sequences.WithoutIndex | app/report/page.tsx:114-119 | leaving out the element at position `index` gives the list without exactly that element; an index outside the list leaves it whole |
| Sequences.Take | app/report/page.tsx:90 | `slice(0, n)` is a prefix of length min(n, length) |
| Sequences.TakeLast | app/support/page.tsx:256 | `slice(-n)` is the suffix of length min(n, length) for n > 0, and the whole list for n = 0, as `slice(-0)` is in JavaScript |
| Shelters.MockShelters | app/shelters/page.tsx:39-115 | the directory holds six shelters with ids 1 to 6 in order, none with a distance yet |
| Shelters.WithDistance | app/shelters/page.tsx:152-154 | the `map` step keeps every record in place with its own fields, and sets its distance to the observer-to-shelter distance |
| Shelters.Key | app/shelters/page.tsx:155 | the definition of the sort key `a.distance \|\| 0`; the sort lemmas below are stated in terms of it |
| Shelters.SortByDistance | app/shelters/page.tsx:155 | the definition of the stable sort by `Key`; `Shelters.SortMultiset`, `Shelters.SortSorted` and `Shelters.SortStable` state its properties, and `Shelters.StableSortUnique` that no other stable sort differs from it |
| Shelters.SortMultiset | app/shelters/page.tsx:155 | sorting keeps every record exactly as often as it occurs |
| Shelters.SortSorted | app/shelters/page.tsx:155 | the sorted list is non-decreasing by `distance \|\| 0` |
| Shelters.SortStable | app/shelters/page.tsx:155 | for each distance, the records with that distance keep their relative order |
| Shelters.StableSortUnique | app/shelters/page.tsx:155 | two lists that are both sorted by distance and that order each distance's records alike are equal, so every stable sort gives the same ranking |
| Shelters.Rank | app/shelters/page.tsx:151-158 | the ranked list is a permutation of the annotated directory; it is non-decreasing by distance and stable; every entry carries its own distance from the observer |
| Shelters.SortKeepsEarliestMinimumFirst | app/shelters/page.tsx:155 | a first record whose distance is the minimum stays first after sorting |
| Shelters.ZipSearchRanksShelterOneFirst | app/shelters/page.tsx:179-184 | for a distance that is non-negative and zero from a point to itself, a ZIP search ranks shelter 1 first, at distance 0; the stand-in location is shelter 1's position |
| Shelters.OffersService | app/shelters/page.tsx:195 | the definition of the `some(s => s.toLowerCase().includes(tag.toLowerCase()))` test; `Shelters.FilterByService` keeps exactly the shelters that pass it, and `Shelters.EmergencyMatchesTwentyFourSeven` shows one match |
| Shelters.FilterByService | app/shelters/page.tsx:190-197 | `"all"` gives `shelters` unchanged; any other tag gives the order-preserving subsequence of exactly the shelters with a service whose lower-case form contains the lower-case tag, each as often as it occurs |
| Shelters.FilterByServiceIdempotent | app/shelters/page.tsx:190-197 | applying the same filter to the filtered list changes nothing |
| Shelters.FilterByServiceShrinks | app/shelters/page.tsx:194-196 | the filtered list is never longer than `shelters` |
| Shelters.EmergencyMatchesTwentyFourSeven | app/shelters/page.tsx:195 | the match is case-insensitive and by substring: the tag "emergency" matches the service "24/7 Emergency" |
| Shelters.ServiceChips | app/shelters/page.tsx:384-396 | a card shows at most three chips, the first services in order; a "+n more" chip appears exactly when there are more than three services, and n counts the rest |
| Shelters.SheltersPage.constructor | app/shelters/page.tsx:209-216 | after the mount effect, both lists are the directory in order, no location is known, nothing is loading and the filter is `"all"` |
| Shelters.SheltersPage.UpdateSheltersWithDistance | app/shelters/page.tsx:151-159 | both `shelters` and `filteredShelters` become the ranking from the location, so an earlier filter is dropped; no other field changes |
| Shelters.SheltersPage.SetZipCode | app/shelters/page.tsx:250 | the ZIP input sets only `zipCode` |
| Shelters.SheltersPage.SearchByZipCode | app/shelters/page.tsx:175-186 | an empty or white-space-only ZIP code changes nothing; otherwise the location becomes the stand-in coordinate, both lists become its ranking, and loading ends |
| Shelters.SheltersPage.FilterSheltersByService | app/shelters/page.tsx:189-199 | the tag is stored and the shown list is `shelters` filtered by it, whatever was shown before; the shown list stays a subsequence of `shelters` |
| Shelters.SheltersPage.FocusOnShelter | app/shelters/page.tsx:202-207 | only the selected shelter changes |
| Shelters.FilterTwiceShowsLast | app/shelters/page.tsx:189-199 | filtering by a and then by b shows what filtering by b alone shows, and the remembered tag is b |
| Report.ReportShelters | app/report/page.tsx:42-46 | a report can be connected to one of three shelters |
| Report.IsAcceptable | app/report/page.tsx:83-86 | the definition of the file test: the type starts with `image/` or `video/`, and the size is at most 50 · 1024 · 1024 bytes; `Report.Uploaded` and `Report.UploadKeepsExisting` state that only such files are added |
| Report.Uploaded | app/report/page.tsx:80-92 | no file list leaves the files as they were; otherwise the new list is a prefix of the old files followed by the acceptable new ones, and it is cut only when it reaches five |
| Report.UploadKeepsExisting | app/report/page.tsx:88-91 | with at most five files held, an upload keeps the old files as a prefix and keeps at most five; every added file is acceptable and was among those offered |
| Report.SubmitDisabled | app/report/page.tsx:365 | submit is enabled exactly when it is not submitting and both the description and the address are non-empty |
| Report.FillingRequiredFieldsEnables | app/report/page.tsx:365 | typing a non-empty description and address, in either order, enables the button of any form while nothing is submitting |
| Report.ReportPage.SubmitButtonDisabled | app/report/page.tsx:365 | the definition of the button's state on the page: `Report.SubmitDisabled` of the form and the submitting flag; the constructor's state is disabled |
| Report.WithField | app/report/page.tsx:72-78 | an input change sets only the named text field and leaves the files untouched |
| Report.DragFlag | app/report/page.tsx:97-101 | the definition of `handleDrag`'s branch; `Report.ReportPage.HandleDrag` states its three cases, and `Report.DragFollowsLastDecisive` states its effect over a run of events |
| Report.DragFollowsLastDecisive | app/report/page.tsx:94-102 | after a run of drag events, the flag is set exactly when the last enter, over or leave event was an enter or an over; other event types never move it |
| Report.ReportPage.constructor | app/report/page.tsx:27-39 | the form starts empty, with no files, no location, no connected shelter and no drag in progress, so the submit button is disabled |
| Report.ReportPage.HandleInputChange | app/report/page.tsx:72-78 | the form becomes the form with that field set; no other field changes |
| Report.ReportPage.HandleFileUpload | app/report/page.tsx:80-92 | the files become `Uploaded` of the old files; the old files stay a prefix and there are at most five; no other field changes |
| Report.ReportPage.HandleDrag | app/report/page.tsx:94-102 | the flag becomes true on `dragenter` or `dragover` and false on `dragleave`, and is unchanged on any other event; no other field changes |
| Report.ReportPage.HandleDrop | app/report/page.tsx:104-112 | a drop clears the drag flag and uploads the dropped files only when there is at least one |
| Report.ReportPage.RemoveFile | app/report/page.tsx:114-119 | exactly the file at the index is removed and the others keep their order; an out-of-range index changes nothing |
| Report.ReportPage.HandleSubmit | app/report/page.tsx:121-132 | once the submission is done the report is submitted, submission has ended, and it is connected to one of the three shelters; the form is kept |
| Support.Loves | app/support/page.tsx:227 | the definition of `dogLoves[id] \|\| 0`, the count a card shows (also read at line 47); `Support.LovedOnce` and `Support.ClicksCounted` state how clicks change it |
| Support.Messages | app/support/page.tsx:55 | the definition of `prev[dogId] \|\| []`, a dog's message list with a missing list read as empty; `Support.SupportPage.SendMessage` states how a send changes it |
| Support.LovedOnce | app/support/page.tsx:44-49 | the clicked dog's count becomes its old count plus one, with a missing count read as 0; every other dog's count stays |
| Support.ClicksCounted | app/support/page.tsx:44-49 | after any run of clicks, each dog's count has grown by the number of clicks on it |
| Support.RecentMessages | app/support/page.tsx:256 | a card shows at most two messages, and they are the most recent ones, in order |
| Support.RecentAfterSend | app/support/page.tsx:55 | after a send, a card shows the new message last, after the message before it |
| Support.SentMessageIsTrimmed | app/support/page.tsx:52-55 | a message that is sent is non-empty and has no white space at either end |
| Support.WithVolunteerField | app/support/page.tsx:155-192 | a volunteer input sets only its own field of the form |
| Support.SupportPage.constructor | app/support/page.tsx:6-17 | all fields start empty, with no counters, no messages and no dog selected |
| Support.SupportPage.HandleDonation | app/support/page.tsx:31-36 | the donation submit clears the amount and the message; nothing else changes |
| Support.SupportPage.HandleVolunteer | app/support/page.tsx:38-42 | the volunteer submit clears all four volunteer fields; nothing else changes |
| Support.SupportPage.SetDonationAmount | app/support/page.tsx:107 | a preset button or the amount input sets only the amount |
| Support.SupportPage.SetDonationMessage | app/support/page.tsx:122 | the donation message input sets only the donation message |
| Support.SupportPage.SetVolunteerField | app/support/page.tsx:155-192 | the volunteer form becomes the form with that field set; nothing else changes |
| Support.SupportPage.SendLove | app/support/page.tsx:44-49 | the counters become `LovedOnce` of the old ones; nothing else changes |
| Support.SupportPage.SelectDog | app/support/page.tsx:246 | the message button opens the dialog for that dog only |
| Support.SupportPage.SetCurrentMessage | app/support/page.tsx:278 | typing sets only the draft message |
| Support.SupportPage.SendMessage | app/support/page.tsx:51-60 | a message that is blank after trimming changes nothing, including the draft and the selected dog; otherwise the trimmed message is appended to the dog's list, with a missing list read as empty; other dogs' lists are kept; the draft is cleared and no dog is selected |
| Support.SupportPage.Cancel | app/support/page.tsx:295-298 | Cancel clears the selected dog and the draft; nothing else changes |
| Landing.NextIndex | app/page.tsx:102-104 | next gives an index below n: one more, or 0 after the last |
| Landing.PrevIndex | app/page.tsx:106-108 | previous gives an index below n: one less, or n − 1 before the first |
| Landing.NextPrevInverse | app/page.tsx:102-108 | on a valid index, previous after next and next after previous return the index |
| Landing.NextTimesShifts | app/page.tsx:102-104 | k presses of next from a valid index i give (i + k) mod n |
| Landing.NextCycle | app/page.tsx:102-104 | n presses of next return to the starting index |
| Landing.LandingPage.constructor | app/page.tsx:35-36 | the carousel starts at story 0 |
| Landing.LandingPage.NextStory | app/page.tsx:102-104 | the index becomes `NextIndex` of the old one and stays valid |
| Landing.LandingPage.PrevStory | app/page.tsx:106-108 | the index becomes `PrevIndex` of the old one and stays valid |
| Landing.LandingPage.GoToStory | app/page.tsx:339-342 | an indicator sets the index directly to its own valid position |
| Landing.LandingPage.SetZipCode | app/page.tsx:372 | the ZIP input sets only `zipCode`; the carousel index is kept |
| Donate.SelectAmount | app/donate/page.tsx:84-90 | the amount becomes the chosen one; a non-custom choice clears the custom amount and the custom choice keeps it; all other fields stay |
| Donate.WithField | app/donate/page.tsx:76-82 | an input change sets only the named field |
| Donate.FinalAmount | app/donate/page.tsx:103-105 | the definition of `getFinalAmount`; `Donate.FinalAmountAfterSelect` and `Donate.FinalAmountFollowsTyping` state its properties |
| Donate.FinalAmountAfterSelect | app/donate/page.tsx:84-105 | after selecting a preset, the final amount is that preset; after selecting custom, it is the custom amount typed before |
| Donate.FinalAmountFollowsTyping | app/donate/page.tsx:103-105 | with custom chosen, the final amount is the last custom value typed, and name or e-mail changes do not affect it |
| Donate.SubmitDisabled | app/donate/page.tsx:435 | submit is enabled exactly when it is not submitting and the amount, name and e-mail are all non-empty |
| Donate.EnabledWithEmptyCustomAmount | app/donate/page.tsx:435 | the rule ignores the custom amount: with custom chosen and nothing typed, the button is enabled and the final amount is empty |
| Donate.DonatePage.constructor | app/donate/page.tsx:29-39 | the form starts empty, with payment by card, a one-time donation and no thank-you screen; with no amount yet, the submit button is disabled |
| Donate.DonatePage.SubmitButtonDisabled | app/donate/page.tsx:435 | the definition of the button's state on the page, `Donate.SubmitDisabled` of the form and the submitting flag; the constructor's state is disabled |
| Donate.DonatePage.HandleInputChange | app/donate/page.tsx:76-82 | the form becomes the form with that field set; nothing else changes |
| Donate.DonatePage.HandleAmountSelect | app/donate/page.tsx:84-90 | the form becomes `SelectAmount` of the old form; nothing else changes |
| Donate.DonatePage.SetDonationType | app/donate/page.tsx:291-302 | the one-time and monthly buttons set only the donation type |
| Donate.DonatePage.SetPaymentMethod | app/donate/page.tsx:393-419 | the payment buttons set only the payment method |
| Donate.DonatePage.HandleSubmit | app/donate/page.tsx:92-101 | once payment is done, submission has ended and the thank-you screen shows; the form data is kept |
| Donate.DonatePage.MakeAnotherDonation | app/donate/page.tsx:142 | only the thank-you screen is closed; the form data is kept |
| Contact.WithField | app/contact/page.tsx:16-22 | an input change sets only the named field |
| Contact.Shown | app/contact/page.tsx:297 | the definition of `openFaq === index`, when an answer is shown (also line 290); `Contact.Toggled` and `Contact.AtMostOneShown` state its properties |
| Contact.Toggled | app/contact/page.tsx:90-92 | toggling the open question closes it; toggling any other opens that one alone |
| Contact.AtMostOneShown | app/contact/page.tsx:297 | at most one answer is shown at a time |
| Contact.ToggleTwice | app/contact/page.tsx:90-92 | toggling the same question twice restores the previous state when that question was open, and otherwise leaves none open; from none open it returns to none open |
| Contact.ContactPage.constructor | app/contact/page.tsx:7-14 | the form starts empty, nothing is submitting and no question is open |
| Contact.ContactPage.SubmitDisabled | app/contact/page.tsx:203 | the definition of the button's state: disabled exactly while submitting; `Contact.ContactPage.HandleSubmit` states that it is enabled again after sending |
| Contact.ContactPage.HandleInputChange | app/contact/page.tsx:16-22 | the form becomes the form with that field set; nothing else changes |
| Contact.ContactPage.HandleSubmit | app/contact/page.tsx:24-34 | once sending is done, all four fields are empty and the submit button is enabled again; the open question is kept |
| Contact.ContactPage.ToggleFaq | app/contact/page.tsx:90-92 | the open question becomes `Toggled` of the old one; the form is kept |

## Left out

- `calculateDistance` (app/shelters/page.tsx:118-127): the haversine formula uses
  floating-point trigonometry. The model takes the distance as a parameter and proves
  nothing metric about it.
- `getUserLocation` and the other geolocation callbacks (app/shelters/page.tsx:130-148,
  app/report/page.tsx:48-70 and 134-153, app/page.tsx:117-129) are browser services.
  Their success path on the shelter page runs `updateSheltersWithDistance`, which is
  modelled.
- `initializeMap` (app/shelters/page.tsx:161-172) stores a mock map whose methods only
  log, and `focusOnShelter` calls one of them. The `map` state (app/shelters/page.tsx:34)
  is not modelled.
- `renderStars`, `toFixed` formatting, the JSX markup, `alert`, `scrollIntoView` and
  `window.location.reload` are presentation.
- The browser-enforced `required`, `min` and `maxLength` attributes are left out.
  In two places only such an attribute stops an empty donation:
  - on the donate page, `Donate.EnabledWithEmptyCustomAmount` shows that the button is
    enabled when the custom amount is chosen and nothing is typed;
  - on the support page, the "Donate Now" button (app/support/page.tsx:130-135) has no
    disabled rule at all, and only the amount input's `required` attribute
    (app/support/page.tsx:99) keeps `handleDonation` from running with an empty amount.
- The `setTimeout` and `Promise` delays are not modelled: each handler that waits on one
  is modelled by its end state only. The in-between state, where `isLoading` or
  `isSubmitting` is true, is not observable in the model.
- `Math.random` (app/report/page.tsx:127, 183) is randomness. The shelter choice is an
  arbitrary choice among the three shelters, and the reference ID is not modelled.
- The landing page's `handleFindShelters`, `handleUseLocation`, `handleDonate` and
  `handleTakeAction` (app/page.tsx:111-139) only log. The ZIP input's `zipCode` is
  state that no other modelled handler reads.
- app/layout.tsx holds metadata and a wrapper only.
- The static text arrays (stories, testimonials, FAQ text, contact details, the dogs
  list) are fixture data. Only their counts and the shelter records are used.
- Text.Trim: only the ASCII white-space characters are trimmed (space, tab, line feed,
  carriage return, vertical tab, form feed). JavaScript's `trim` also removes Unicode
  spaces and line terminators.
- Text.Lower: only ASCII letters are lowered. JavaScript's `toLowerCase` also folds
  other Unicode letters.
- Shelters.Key: a `NaN` distance sorts as 0 through `|| 0`. Real numbers have no
  `NaN`, so the model does not have that case.
- Shelters.SheltersPage.UpdateSheltersWithDistance: as in the code, re-ranking resets
  the shown list to every shelter while `filterServices` still names the last tag. The
  selected filter button then no longer matches the list.
