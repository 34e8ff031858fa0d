# dtupaidgig client logic, modelled in Dafny

dtupaidgig is a campus marketplace. Students post paid "gigs" (lab files,
assignments, projects, coding tasks). Other students contact the poster, chat,
make price offers, and get the gig assigned to them. The web client talks
directly to a hosted backend that provides auth, a database, file storage and
realtime notifications. This project models the client-side logic of that
application:

- the chat window: realtime de-duplication, optimistic sends with rollback, and the three-step gig assignment;
- the "Contact Seller" find-or-create flow;
- the session provider: session, profile read or create, and the display-name fallback;
- the gig form: upload path, then upload, then insert;
- the inbox page;
- the close-gig button;
- the review dialog;
- the listing card's urgency and display fallbacks.

The backend is abstract. `Backend.Store` is a class:

- It records every call the client makes, in order, in `log`. Each call's outcome (success, or failure with a message) is chosen by the backend, not by the client.
- It keeps the `conversations` table, because the contact flow reads back what it wrote there. Only inserts are applied to this table. Status updates are logged but not applied, so the statuses held there are those at insert.
- A read whose rows only feed component state is a handler parameter: the chat messages, the profile row, the inbox list. So are the browser's dialogs and random values: `confirm`, `crypto.randomUUID`, `Math.random`, `parseInt`.
- Each component records its navigation and alerts as sequences of strings. Refreshes and close requests are counters.

A workflow that awaits each write and gives up at the first failure is described by `Backend.StopsAtFirstFailure`. The writes that took effect are `Backend.Committed`. `Backend.StoppedRunCommitsPrefix` proves that such a run only ever commits a prefix of its plan, and never undoes anything.

Some behaviours of the code are worth stating plainly, because a reader might expect otherwise:

- A failed profile create is not retried; the user stays as it was (AuthContext.tsx:84-88).
- Session loading has no timeout. Loading ends once the session read and the profile fetch that follows it complete, or once an auth-state change has been handled (AuthContext.tsx:28-35, 39-47).
- Until the profile row arrives, there is no user, not even one built from the session's metadata.
- The sender's own realtime echo is not absorbed. The insert does not carry the optimistic id, so the echo arrives with a new id and is listed a second time (`Chat.OwnEchoIsAppended`).
- The contact lookup is a single-row read. Once two conversations exist for the same gig, requester and solver, the lookup reports none and yet another conversation is created (`Backend.SingleMatch`).

## Model

| member | source | states |
|---|---|---|
| Types.ParseCategory | src/types/index.ts:18 | exactly the five category labels are accepted, each as its own category |
| Types.ParseGigStatus | src/types/index.ts:22 | exactly "Open", "Assigned" and "Completed" are accepted |
| Types.ParseConversationStatus | src/types/index.ts:31 | exactly "Active", "Accepted" and "Closed" are accepted |
| Text.TrimStart | src/components/ChatWindow.tsx:162 | the result is a suffix of the input that starts with a non-space, and only white space was removed |
| Text.TrimEnd | src/components/ChatWindow.tsx:162 | the result is a prefix of the input that ends with a non-space, and only white space was removed |
| Text.TrimEmptyIffBlank | src/components/ChatWindow.tsx:162 | `trim()` (`Text.Trim`, the end trim of the start trim) yields "" exactly for strings made only of JavaScript white space |
| Text.BeforeFirst | src/context/AuthContext.tsx:78 | `split(sep)[0]` is the longest prefix without the separator, followed by the separator or the end |
| Text.BeforeFirstOfJoin | src/context/AuthContext.tsx:78 | the part before the first separator is recovered from `head + sep + rest` |
| Text.AfterLast | src/components/GigForm.tsx:47 | `split(sep).pop()` is the longest suffix without the separator, preceded by the separator or the start |
| Text.AfterLastOfJoin | src/components/GigForm.tsx:47 | the part after the last separator is recovered from `prefix + sep + tail` |
| Text.NatToString | src/components/ChatWindow.tsx:130 | a number renders as decimal digits with no leading zero |
| Text.NatToStringRoundTrip | src/components/ChatWindow.tsx:130 | reading the rendered digits back gives the number |
| Backend.Committed | src/components/ChatWindow.tsx:84-119 | at most one committed write per call; all calls were committed exactly when all succeeded |
| Backend.CommittedOfSucceeded | src/components/ChatWindow.tsx:84-119 | when every call succeeded, the committed writes are exactly the requests sent, in order |
| Backend.StoppedRunCommitsPrefix | src/components/ChatWindow.tsx:84-119 | a run that stops at the first failure commits a prefix of its plan; it commits the whole plan exactly when every step was sent and succeeded |
| Backend.FirstMatch | src/components/ContactSellerButton.tsx:35-41 | no id exactly when no conversation matches gig, requester and solver; an id found belongs to a matching conversation |
| Backend.SingleMatch | src/components/ContactSellerButton.tsx:35-46 | the single-row lookup yields a row exactly when the call succeeded and exactly one conversation matches, and that row matches |
| Backend.CountMatchesAppend | src/components/ContactSellerButton.tsx:49-58 | appending a conversation adds one to the match count exactly when it matches |
| Backend.NoMatchIffCountZero | src/components/ContactSellerButton.tsx:35-46 | the lookup finds nothing exactly when the match count is zero |
| Backend.AppendedMatchIsFound | src/components/ContactSellerButton.tsx:35-46 | a matching conversation appended where none matched is the one a later lookup finds |
| Backend.Store.Send | src/components/DeleteGigButton.tsx:32-35 | a write appends exactly one call, with its outcome, to the log |
| Backend.Store.Lookup | src/components/ContactSellerButton.tsx:35-41 | one lookup call is logged; like a single-row read it succeeds only when exactly one conversation matches, and the row returned is that match, or none |
| Backend.Store.CreateConversation | src/components/ContactSellerButton.tsx:49-58 | one insert is logged; on success the stored row has the requested gig, participants and status and is appended to the table, otherwise the table is unchanged |
| Backend.Store.CreateUser | src/context/AuthContext.tsx:73-82 | one insert is logged; on success the returned profile carries the draft's id, name, avatar and email |
| Chat.WithIncoming | src/components/ChatWindow.tsx:60-65 | a message whose id is listed leaves the list unchanged; any other message is itself appended at the end; nothing listed moves and unique ids stay unique |
| Chat.IncomingIsIdempotent | src/components/ChatWindow.tsx:60-65 | a repeated notification changes nothing |
| Chat.EchoWithSameIdIsDropped | src/components/ChatWindow.tsx:58-65 | a notification with the optimistic entry's id is dropped |
| Chat.OwnEchoIsAppended | src/components/ChatWindow.tsx:178-184 | the sender's own echo, which has a backend id, is appended beside the optimistic entry with the same text and sender |
| Chat.WithoutId | src/components/ChatWindow.tsx:189 | the filter removes every entry with the id and keeps only listed entries |
| Chat.WithoutIdKeepsOthers | src/components/ChatWindow.tsx:189 | every entry with another id is kept as often as it occurred |
| Chat.WithoutIdOfConcat | src/components/ChatWindow.tsx:189 | filtering distributes over concatenation, so order is kept |
| Chat.WithoutAbsentId | src/components/ChatWindow.tsx:189 | filtering an id that is not listed changes nothing |
| Chat.RollbackRemovesOnlyOptimistic | src/components/ChatWindow.tsx:186-191 | rolling back a fresh optimistic entry removes exactly it; the entries around it stay in order |
| Chat.AppendFreshKeepsIdsUnique | src/components/ChatWindow.tsx:176 | appending an entry with a fresh id keeps ids unique |
| Chat.ShowAcceptButton | src/components/ChatWindow.tsx:226 | the accept button shows exactly under the assign header's condition (`Chat.ShowAssignHeader`: the signed-in creator, while the gig is Open), on an offer from someone other than the creator |
| Chat.OfferContentCarriesPrice | src/components/ChatWindow.tsx:130 | an offer's text (`Chat.OfferContent`, rendered with `Text.IntToString`) is "Offered: ₹" followed by digits that read back as the price |
| Chat.AssignPlan | src/components/ChatWindow.tsx:84-111 | the writes are gig to Assigned, conversation to Accepted, then, into this conversation and from the user, the non-offer announcement `Chat.AssignedNotice` ("🎉 Gig assigned to <name>!"); only two are reachable without a user |
| Chat.AssignmentCommitsAllThree | src/components/ChatWindow.tsx:84-114 | a fully successful assignment commits exactly the plan, in order |
| Chat.ChatWindow.constructor | src/components/ChatWindow.tsx:17-21 | empty list and input, and the gig status as given |
| Chat.ChatWindow.LoadMessages | src/components/ChatWindow.tsx:24-39 | with a user, fetched rows replace the list and an error keeps it; without a user nothing happens |
| Chat.ChatWindow.OnRealtimeInsert | src/components/ChatWindow.tsx:55-65 | the list becomes the de-duplicating update of the old list |
| Chat.ChatWindow.EditInput | src/components/ChatWindow.tsx:260 | the input holds the typed text |
| Chat.ChatWindow.SendOptimistic | src/components/ChatWindow.tsx:135-152 | one insert is sent; on success the entry stays at the end; on failure entries with its id are removed and the alert shown; a fresh id means an exact restore, and unique ids are kept |
| Chat.ChatWindow.SendMessage | src/components/ChatWindow.tsx:160-192 | a blank input or no user does nothing; otherwise a non-offer message with the old input is sent optimistically, the input is cleared and is restored only on failure |
| Chat.ChatWindow.SendOffer | src/components/ChatWindow.tsx:122-153 | with a user, an offer carrying the price and the text "Offered: ₹price" is sent optimistically; the input is untouched |
| Chat.ChatWindow.AssignGig | src/components/ChatWindow.tsx:79-120 | declining writes nothing; otherwise the writes stop at the first failure, the status becomes Assigned only after all three succeed, and exactly one success or failure alert is shown |
| Chat.ChatWindow.AcceptOffer | src/components/ChatWindow.tsx:155-158 | a missing or zero price (`Chat.OfferPriceTruthy` false) does nothing; otherwise exactly the assignment runs, whatever the price |
| ContactSeller.ContactSellerButton.constructor | src/components/ContactSellerButton.tsx:15-18 | not loading, nothing navigated or alerted |
| ContactSeller.ContactSellerButton.HandleContact | src/components/ContactSellerButton.tsx:20-82 | no user goes to login and self-contact alerts, both without calls; otherwise a single match is opened, or an Active conversation is created and seeded (`ContactSeller.SeedMessage`, quoting the gig title) before it is opened; any failure alerts and stays; loading ends off |
| ContactSeller.ContactOnce | src/components/ContactSellerButton.tsx:35-72 | with no matching conversation before, a contact whose calls after the (failing) lookup all succeed adds exactly one matching conversation and opens it; with exactly one, a successful lookup opens that one and creates nothing |
| ContactSeller.ContactTwice | src/components/ContactSellerButton.tsx:20-82 | two contacts open the same conversation when there was at most one: with none, if every call after the first lookup succeeds (that lookup is bound to fail), exactly one is created and then reused; with one, if every call succeeds, it is reused and nothing is created |
| Auth.ProfileDecision | src/context/AuthContext.tsx:62-67 | an error other than "no row" keeps the user; else a row becomes the user; else the profile is created |
| Auth.DisplayName | src/context/AuthContext.tsx:78 | a non-empty metadata name wins, else exactly the email's part before its first '@' when that is non-empty, else "User"; never empty |
| Auth.DisplayNameOfAddress | src/context/AuthContext.tsx:78 | without a metadata name, `local@domain` yields `local` |
| Auth.AuthProvider.constructor | src/context/AuthContext.tsx:23-25 | no session, no user, loading |
| Auth.AuthProvider.FetchUserProfile | src/context/AuthContext.tsx:54-94 | follows the decision: keep, adopt the row, or create once from the current session user with no retry; a create failure keeps the user |
| Auth.AuthProvider.FetchSession | src/context/AuthContext.tsx:28-35 | the session is stored, the profile is fetched only for a session with a user, and loading ends |
| Auth.AuthProvider.OnAuthStateChange | src/context/AuthContext.tsx:39-47 | the same, except that a session without a user clears the user |
| Auth.AuthProvider.SignOut | src/context/AuthContext.tsx:96-100 | one sign-out call is logged, then session and user are cleared |
| Form.FileExtension | src/components/GigForm.tsx:47 | the extension has no '.' and is the file name's tail after its last '.' |
| Form.UploadPathKeepsExtension | src/components/GigForm.tsx:47-49 | the stored object's extension is the chosen file's, whatever the random name |
| Form.UploadPathInUserFolder | src/components/GigForm.tsx:49 | the stored object lies in the folder named after the uploader |
| Form.SubmitPlan | src/components/GigForm.tsx:44-74 | one upload then the insert when a file is chosen, else the insert alone with no attachment; the gig is created by the user |
| Form.SubmitPlanAttachesUpload | src/components/GigForm.tsx:46-61 | the upload goes to the attachments bucket, in the uploader's folder, keeping the file's extension, and the gig row points at that object's public URL |
| Form.GigForm.constructor | src/components/GigForm.tsx:12-20 | the inputs as filled in, not loading, no error, nothing navigated |
| Form.GigForm.RedirectEffect | src/components/GigForm.tsx:22-26 | goes to login exactly when the session has loaded without a user |
| Form.GigForm.SendPlan | src/components/GigForm.tsx:43-76 | the plan's requests are sent in order and stop at the first failure; a failure's message is returned exactly when not everything succeeded |
| Form.GigForm.HandleSubmit | src/components/GigForm.tsx:36-85 | no user does nothing; otherwise the submission plan runs to the first failure; the error is that failure's message; success goes home and refreshes; loading ends off |
| Messages.Counterpart | src/app/messages/page.tsx:76 | the counterpart is one of the two participants, and not the viewer when the viewer takes part with someone else |
| Messages.Render | src/app/messages/page.tsx:51-112 | spinner exactly while loading; login prompt exactly when loaded without a user; otherwise one row per conversation in order (`Messages.RowOf`), linking to it and naming the counterpart, and the empty notice exactly when there are none |
| Messages.MessagesPage.constructor | src/app/messages/page.tsx:17-18 | empty list, loading |
| Messages.MessagesPage.RunEffect | src/app/messages/page.tsx:20-49 | waits while auth loads; otherwise loading ends, the spinner is gone, and a fetched list replaces the old one while an error keeps it |
| CloseGig.DeleteGigButton.constructor | src/components/DeleteGigButton.tsx:18 | not loading, nothing navigated or alerted |
| CloseGig.DeleteGigButton.HandleDelete | src/components/DeleteGigButton.tsx:20-50 | reachable only while the button is shown (`CloseGig.ShowCloseButton`: the signed-in creator); declining changes nothing; otherwise exactly one delete of this gig; success goes home and refreshes, failure alerts; loading ends off |
| Rating.RatingModal.constructor | src/components/RatingModal.tsx:15-17 | no rating, empty comment, not loading |
| Rating.RatingModal.ClickStar | src/components/RatingModal.tsx:53-57 | a star sets the rating to its value in 1..5, which enables submit unless loading |
| Rating.RatingModal.SubmitEnabledOnlyWhenRated | src/components/RatingModal.tsx:81 | submit (`Rating.RatingModal.SubmitDisabled`) is enabled exactly while idle with one to five stars chosen |
| Rating.RatingModal.EditComment | src/components/RatingModal.tsx:69 | the comment holds the typed text |
| Rating.RatingModal.HandleSubmit | src/components/RatingModal.tsx:19-45 | no rating does nothing; otherwise exactly one review with this gig, reviewer, reviewee, a 1..5 rating and the comment; close is requested only on success; loading ends off |
| Card.PastDeadlineIsUrgent | src/components/GigCard.tsx:12 | a passed deadline is urgent |
| Card.UrgencyPersists | src/components/GigCard.tsx:12 | once urgent, a gig stays urgent as time passes |
| Card.CardHrefNamesGig | src/components/GigCard.tsx:15 | the link (`Card.CardHref`) lies under the "gigs" route and its last segment is exactly the gig id |
| Card.AvatarOf | src/components/GigCard.tsx:48-58 | an image exactly for a non-empty avatar URL; otherwise the name's first character, or "U" without a profile or name |
| Card.DisplayedName | src/components/GigCard.tsx:64 | the profile's name when non-empty, else "Unknown User"; never empty |
| Card.InitialMatchesDisplayedName | src/components/GigCard.tsx:48-64 | the badge letter is the first character of the displayed name, or "U" for the fallback |

## Left out

- Backend query semantics: filters, ordering, joins, `.or(...)`, row-level security. Reads are parameters, and the inbox list and its joined profiles are taken as the backend returns them.
- Backend.Store.CreateUser: the model returns the row built from the draft. What the database adds (defaults, triggers, the insert's echo via `.select().single()`) is left arbitrary.
- The realtime channel itself: subscribe, unsubscribe, delivery order and races between echoes and optimistic entries. Only the callback's list update is modelled.
- Concurrency: interleaved handlers, double clicks while loading, and the lookup-then-insert race in the contact flow.
- The detail text of the assignment failure alert. Its message suffix (`error.message` or JSON) is dropped; the model records "Failed to assign gig".
- Console logging, dates (`new Date`, `toISOString`, `toLocaleDateString`, `formatDistanceToNow`) and times. Urgency takes the deadline and the current time as integer milliseconds.
- `parseInt` and `prompt`. Prices are given as integers, so NaN and fractional input are not modelled. `Text.IntToString` always writes plain decimal digits, whereas JavaScript writes numbers of 1e21 and above in exponent form.
- `Math.random` and `crypto.randomUUID`. The random file name and the optimistic id are parameters.
- `toFixed(1)` on the buyer rating in the card (floating point).
- The storage service's URL scheme. A public URL is modelled only as a function of the path.
- `charAt(0)` works on UTF-16 code units. The model uses the first code point.
- Form.GigForm.constructor: the form's inputs are fixed when the form is built. The per-field change handlers are not modelled one by one.
- Messages.MessagesPage: the session is fixed per page instance. A change of session re-runs the effect on a new instance.
- CloseGig.DeleteGigButton.HandleDelete requires the button to be shown (the signed-in creator), because the handler cannot be reached otherwise.
- The gig listing pages, the navbar and the create-gig page wrapper. They render backend query results and have no logic of their own.
