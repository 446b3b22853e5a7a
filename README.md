# Telehealth platform: a verified model of its core

This project models the core of a small telehealth web application in Dafny.
Patients, doctors and administrators use browser dashboards, and an Express
server stores files and relays chat and call signalling over socket.io.

The model covers the following parts:

- **Real-time relay** (`Relay`): the server's presence registry and its signalling relay. Rooms are named after user ids. Every handler forwards one client event to one room under a fixed event name, with a fixed projection of the payload.
- **Call session** (`CallSession`): the browser side of an audio or video call, as an object whose handlers change the page's call globals and emit socket events. An `async` handler is split at each `await` into steps, so other events can run between them. It also models the chat's "seen" ticks.
- **Uploads** (`Uploads`): multer's choice of folder and file name, its MIME allow-list, and the upload handler's guard against the same upload repeated within five seconds.
- **Daily tasks** (`Todos`): the handler that ticks off one task of a patient's daily to-do list.
- **Dashboards** (`PatientDashboard`, `DoctorDashboard`, `AdminDashboard`, `ResourceView`), each computing what its cards show:
  - pending tasks, the wellness streak, mood statistics and summaries;
  - how stored photo and resource paths become URLs;
  - the list filters and the registration chart;
  - the doctor's upload form, with its guard against a second submission.
- **Registration** (`Registration`): the registration wizard's step counter, step indicator and reset, plus the size limits of the files chosen while registering.
- **Migration** (`FixResources`): the one-off script that moves resource files into the folder of their type.

Work that runs over time is modelled as imperative Dafny (classes with fields, `modifies` clauses and loops). This covers:

- the relay server;
- the call session;
- the chat view;
- the to-do store;
- the upload form;
- the wizard;
- the migration loop;
- the streak and mood loops.

Each method is proved against a function on values (`AfterEndCall`, `AfterSubmit`, `Run`, `MoodCounts`, ...), and the properties are proved about those functions.

Some inputs come from outside the code and become parameters:

- the clock, the random number in file names and database ids;
- the answers of `fetch`, `getUserMedia` and `setRemoteDescription`;
- whether a rename or a save fails.

`Strings`, `Seqs`, `Values` and `Records` hold shared helpers. These are JSON-like values with JavaScript truthiness, string prefix and replace operations, order-preserving filters, and the stored records.

## Model

| member | source | states |
|---|---|---|
| Relay.RouteOf | backend/server.js:1127-1191 | An event has a route exactly when it is one of the seven relayed events and its target field is present. The route goes to the room the target field names, under the handler's fixed outgoing event name. `sendMessage` forwards the whole payload; the projecting handlers forward exactly those of their fixed fields that the input has; `callEnded` forwards `from` alone. The relay changes no value it forwards; the only value it adds is the `callEnded` fallback to the socket id. |
| Relay.SendMessageVerbatim | backend/server.js:1127-1138 | `sendMessage` forwards the whole payload unchanged, as `receiveMessage`, to room `receiverId`. |
| Relay.CallUserProjection | backend/server.js:1151-1159 | `callUser` forwards exactly `from`, `to`, `callType` and `offer`, as `incomingCall`, to room `to`. |
| Relay.AnswerCallProjection | backend/server.js:1161-1169 | `answerCall` forwards, as `callAnswered` to room `to`, exactly those of `from`, `to`, `answer` and `answerSDP` that the input has, unchanged. |
| Relay.AnswerCallAccepted | backend/server.js:1161-1169 | An answer with all four fields reaches the caller with all four, unchanged. |
| Relay.AnswerCallRejected | backend/server.js:1161-1169 | A rejection `{to, from, answer: "rejected"}` reaches the caller as exactly `{from, to, answer}`, with no `answerSDP` key. |
| Relay.MessageSeenProjection | backend/server.js:1139-1149 | `messageSeen` goes to room `senderId` as `messageSeenUpdate`, carrying only `messageId` and `seenBy` and not the sender id. |
| Relay.CancelCallProjection | backend/server.js:1186-1190 | `cancelCall` goes to room `to` as `callCancelled`, carrying the caller's `from` alone. |
| Relay.IceCandidateOnlyCandidate | backend/server.js:1172-1177 | An ICE candidate relay carries only the candidate; every other field of the sender stays behind. |
| Relay.CallEndedFrom | backend/server.js:1179-1184 | `callEnded` names the sender's `from` when it is truthy, and the sending socket's id otherwise. |
| Relay.Joined | backend/server.js:1122-1125 | Joining adds the connection to that room and leaves every other room as it was. |
| Relay.JoinIdempotent | backend/server.js:1122-1125 | Joining the same room twice is the same as joining once. |
| Relay.Left | backend/server.js:1192-1194 | After a disconnect the connection is in no room, the other members are unchanged, and no empty room remains. |
| Relay.InboxOfFanOut | backend/server.js:1132 | An emit to a room hands each member the event exactly once and hands nothing to anyone else. |
| Relay.InboxAppend | backend/server.js:1132 | What a connection receives is never reordered: earlier deliveries stay a prefix. |
| Relay.Enumerate | backend/server.js:1132 | The room's members are visited one at a time, each exactly once. |
| Relay.Server.constructor | backend/server.js:1119 | The server starts with no rooms and nothing delivered. |
| Relay.Server.Connect | backend/server.js:1119-1120 | A new connection joins the room named after its own id, and nothing is delivered. |
| Relay.Server.JoinRoom | backend/server.js:1122-1125 | `joinRoom` adds the connection to the user's room and delivers nothing. |
| Relay.Server.Disconnect | backend/server.js:1192-1194 | A disconnect removes the connection from every room and delivers nothing. |
| Relay.Server.Emit | backend/server.js:1132 | Each connection's inbox grows by the event exactly when the connection was in the room, and rooms are unchanged. |
| Relay.Server.Handle | backend/server.js:1127-1191 | One handler run appends to each inbox exactly what the handler's route delivers to it. |
| Relay.EmptyRoomNoDelivery | backend/server.js:1153 | Sending to a user who has no connection delivers nothing and raises no error. |
| Relay.LeftConnectionUnreachable | backend/server.js:1192-1194 | No route reaches a connection after it has disconnected. |
| Relay.FanOutToEveryTab | backend/server.js:1122-1125 | Two connections of the same user both receive what is sent to that user. |
| Relay.CallSetupScenario | backend/server.js:1151-1169 | When a patient calls and the doctor accepts, each side receives exactly one event, and the offer and the answer arrive untouched. |
| CallSession.PhotoUrl | frontend/js/telecommunication.js:676-681 | The URL starts with `/backend/` and has no backslash. A path that already starts with `backend/` is used as it is; any other is put under `/backend/`. |
| CallSession.PhotoUrlPrefixInsensitive | frontend/js/telecommunication.js:678-680 | A photo stored with a leading `backend/` and one stored without it give the same URL. |
| CallSession.FetchedUserInfo | frontend/js/telecommunication.js:669-687 | A failed fetch gives `Unknown` with the placeholder photo, and so does a truthy photo that is not a string. A missing photo keeps the name with the placeholder. A string photo becomes the cleaned URL. |
| CallSession.HangUpNotice | frontend/js/telecommunication.js:939-945 | At most one notice is sent, exactly when notification is not skipped and there is a call partner. It is `callEnded` for a live call and `cancelCall` otherwise. |
| CallSession.AfterEndCall | frontend/js/telecommunication.js:907-952 | Ending a call leaves no peer, an empty candidate queue, no ringing and all call fields cleared. Only the hang-up notice is added to what was sent. |
| CallSession.AfterLoadChatHistory | frontend/js/telecommunication.js:342-344 | Opening a chat changes only the chat partner. |
| CallSession.CallOnPeer | frontend/js/telecommunication.js:643-871 | A call on the peer read at that moment ends the call, through the handler's `catch`, when the awaited step failed or the peer has been closed. Otherwise the handler waits and nothing changes. |
| CallSession.AfterInitiateCall | frontend/js/telecommunication.js:518-531 | Without a chat partner, or during a call, the click returns with nothing changed. Otherwise only the call's type and target (the chat partner) are recorded before the first await. |
| CallSession.AfterUserInfo | frontend/js/telecommunication.js:669-687 | Only the other side's name and photo change, to the fetched ones. |
| CallSession.AfterCallerMedia | frontend/js/telecommunication.js:534-566 | A media failure ends the call, which sends `cancelCall` to the target. Otherwise only a fresh peer appears, addressing its candidates to the chat partner. |
| CallSession.AfterOfferSet | frontend/js/telecommunication.js:650-666 | A failure ends the call. Otherwise exactly one offer is sent, to the chat partner of that moment, with the type the click was given. |
| CallSession.AfterIncomingCall | frontend/js/telecommunication.js:711-719 | A busy callee sends one rejection and changes nothing else. Otherwise the call's data, caller and type are recorded, and nothing is sent before the user-info await. |
| CallSession.AfterIncomingUserInfo | frontend/js/telecommunication.js:719-745 | Once the caller's info has arrived, it is recorded and the call rings; nothing else changes. |
| CallSession.AfterDecline | frontend/js/telecommunication.js:747 | Declining stops the ringing and sends one rejection. |
| CallSession.AfterAnswerClicked | frontend/js/telecommunication.js:746 | The answer button only stops the ringing before `answerCall` awaits the media. |
| CallSession.AfterAnswerMedia | frontend/js/telecommunication.js:750-842 | A media failure ends the call. Otherwise only a fresh peer appears, addressing its candidates to the caller's `from`. |
| CallSession.AfterAnswerSet | frontend/js/telecommunication.js:859-875 | A failure ends the call. Otherwise exactly one `accepted` answer with the SDP goes to the caller, and the call is active. |
| CallSession.AfterCallAnswered | frontend/js/telecommunication.js:878-886 | A rejection ends the call. An acceptance with an SDP waits for the remote description, or ends the call when there is no peer. Any other reply changes nothing. |
| CallSession.AfterCallerFlush | frontend/js/telecommunication.js:893 | After the flush the caller's call is active; nothing else changes. |
| CallSession.Described | frontend/js/telecommunication.js:842 | Setting the remote description marks the current peer's description set and changes nothing else. |
| CallSession.FlushFrom | frontend/js/telecommunication.js:846-851 | Past the end of the iterated array the loop finishes and the queue is emptied. Before it, the next candidate is handed to the current peer, or the call ends when the peer has been closed meanwhile. |
| CallSession.AfterRemoteDescription | frontend/js/telecommunication.js:842-851 | A failure ends the call. Otherwise the description is set and the flush starts over the queue as it stands at that moment. |
| CallSession.AfterFlushedCandidate | frontend/js/telecommunication.js:848 | A failed `addIceCandidate` ends the call. Otherwise the loop continues at the next position. |
| CallSession.AfterRemoteCandidate | frontend/js/telecommunication.js:126-138 | Without a peer or a truthy candidate nothing happens. Before the remote description a candidate is queued; after it, it is applied. Nothing is sent. |
| CallSession.AfterLocalCandidate | frontend/js/telecommunication.js:586-593 | A truthy local candidate of a live peer is sent to the peer's target, with nothing else in the payload. |
| CallSession.TargetOf | frontend/js/telecommunication.js:586-809 | A caller's peer (lines 586-593) addresses its candidates to the chat partner current when the candidate arises. A callee's peer (lines 802-809) addresses them to the `from` of the call it answered. |
| CallSession.AfterConnectionState | frontend/js/telecommunication.js:618-636 | `connected` activates the call, `failed` ends it, and without a peer nothing happens. |
| CallSession.AfterRemoteCallEnded | frontend/js/telecommunication.js:140-146 | A live call is torn down without notifying back. Otherwise nothing changes. |
| CallSession.AfterCallCancelled | frontend/js/telecommunication.js:148-154 | A cancelled call only stops the ringing. |
| CallSession.QueuedInArrivalOrder | frontend/js/telecommunication.js:126-138 | Before the remote description is set, candidates join the end of the queue in arrival order. |
| CallSession.AppliedInArrivalOrder | frontend/js/telecommunication.js:126-138 | After the remote description is set, candidates are applied in arrival order. |
| CallSession.DroppedWithoutPeer | frontend/js/telecommunication.js:127 | Without a peer every arriving candidate is dropped. |
| CallSession.LateCandidatesDoNotLeak | frontend/js/telecommunication.js:917-922 | Candidates that arrive after a call ended never reach the next call's queue. |
| CallSession.FlushInterleaves | frontend/js/telecommunication.js:846-851 | While the queue is being flushed, late candidates (lines 126-138) are applied as they arrive, between the queued ones. The peer receives exactly the `Interleaved` order, nothing is sent and nothing fails, and a finished loop leaves the queue empty. |
| CallSession.UninterruptedFlush | frontend/js/telecommunication.js:846-851 | With nothing arriving meanwhile, the loop hands the peer the rest of the array in order and finishes. |
| CallSession.LateDescriptionAfterHangUp | frontend/js/telecommunication.js:886-893 | When the caller hangs up while the answer's description is pending and it settles anyway, the call is marked active with no peer. |
| CallSession.LateCandidateOvertakesQueue | frontend/js/telecommunication.js:126-138 | With `[c1, c2]` queued and `c3` arriving while `c1` is added, the peer receives `c1, c3, c2`. |
| CallSession.CallerFlushesInOrder | frontend/js/telecommunication.js:878-896 | At the caller, with nothing arriving during the flush, candidates queued before the answer are applied in order once it is accepted. The queue is then empty, the call active, and nothing sent. |
| CallSession.CalleeFlushesInOrder | frontend/js/telecommunication.js:750-869 | At the callee, with nothing arriving during the flush, candidates queued while answering are applied in order. Then exactly one accepted answer is sent and the call is active. |
| CallSession.TwoClicksSendTwoOffers | frontend/js/telecommunication.js:518-657 | Two clicks on the call button before the first one's fetch settles both pass the guard, and two offers are sent. |
| CallSession.OfferFollowsChatSwitch | frontend/js/telecommunication.js:518-657 | Opening another chat while a call is being set up sends the offer to the new partner, while the call's target stays the first. |
| CallSession.EndCallIdempotent | frontend/js/telecommunication.js:907-952 | Ending a call twice is ending it once, so at most one notice is sent. |
| CallSession.HangUpNotEchoed | frontend/js/telecommunication.js:939-945 | The side that hangs up sends one `callEnded`. The receiving side tears down and sends nothing back. |
| CallSession.Session.constructor | frontend/js/telecommunication.js:8-17 | The page starts with no chat partner, no call, no peer and an empty queue. |
| CallSession.Session.LoadChatHistory | frontend/js/telecommunication.js:342-344 | New state is as given by `AfterLoadChatHistory`. |
| CallSession.Session.EndCall | frontend/js/telecommunication.js:907-952 | New state is as given by `AfterEndCall`. |
| CallSession.Session.OnPeerCall | frontend/js/telecommunication.js:643-871 | New state and phase are as given by `CallOnPeer`. |
| CallSession.Session.InitiateCall | frontend/js/telecommunication.js:518-531 | New state and phase are as given by `AfterInitiateCall`. |
| CallSession.Session.OnUserInfo | frontend/js/telecommunication.js:669-687 | New state is as given by `AfterUserInfo`. |
| CallSession.Session.OnCallerMedia | frontend/js/telecommunication.js:534-566 | New state and phase are as given by `AfterCallerMedia`. |
| CallSession.Session.OnOfferSet | frontend/js/telecommunication.js:650-666 | New state and phase are as given by `AfterOfferSet`. |
| CallSession.Session.HandleIncomingCall | frontend/js/telecommunication.js:711-719 | New state and phase are as given by `AfterIncomingCall`. |
| CallSession.Session.OnIncomingUserInfo | frontend/js/telecommunication.js:719-745 | New state is as given by `AfterIncomingUserInfo`. |
| CallSession.Session.DeclineCall | frontend/js/telecommunication.js:747 | New state is as given by `AfterDecline`. |
| CallSession.Session.AnswerCall | frontend/js/telecommunication.js:746 | New state is as given by `AfterAnswerClicked`. |
| CallSession.Session.OnAnswerMedia | frontend/js/telecommunication.js:750-842 | New state and phase are as given by `AfterAnswerMedia`. |
| CallSession.Session.OnAnswerSet | frontend/js/telecommunication.js:859-875 | New state and phase are as given by `AfterAnswerSet`. |
| CallSession.Session.HandleCallAnswered | frontend/js/telecommunication.js:878-886 | New state and phase are as given by `AfterCallAnswered`. |
| CallSession.Session.OnCallerFlushed | frontend/js/telecommunication.js:893 | New state is as given by `AfterCallerFlush`. |
| CallSession.Session.FlushAt | frontend/js/telecommunication.js:846-851 | One pass of the loop body: new state and phase are as given by `FlushFrom`. |
| CallSession.Session.OnRemoteDescription | frontend/js/telecommunication.js:842-851 | New state and phase are as given by `AfterRemoteDescription`, and the returned array is the queue as it stood. |
| CallSession.Session.OnFlushedCandidate | frontend/js/telecommunication.js:848 | New state and phase are as given by `AfterFlushedCandidate`. |
| CallSession.Session.OnRemoteCandidate | frontend/js/telecommunication.js:126-138 | New state is as given by `AfterRemoteCandidate`. |
| CallSession.Session.OnLocalCandidate | frontend/js/telecommunication.js:586-593 | New state is as given by `AfterLocalCandidate`. |
| CallSession.Session.OnConnectionStateChange | frontend/js/telecommunication.js:618-636 | New state is as given by `AfterConnectionState`. |
| CallSession.Session.OnRemoteCallEnded | frontend/js/telecommunication.js:140-146 | New state is as given by `AfterRemoteCallEnded`. |
| CallSession.Session.OnCallCancelled | frontend/js/telecommunication.js:148-154 | New state is as given by `AfterCallCancelled`. |
| CallSession.FirstBubble | frontend/js/telecommunication.js:329 | Finds the first bubble carrying the message id, or reports that none does. |
| CallSession.MarkedSeen | frontend/js/telecommunication.js:329-337 | Only the message's first bubble can change, and it ends up seen if it has a tick. No tick is ever un-seen. |
| CallSession.MarkedSeenIdempotent | frontend/js/telecommunication.js:332-333 | A repeated `seen` notification changes nothing. |
| CallSession.ChatView.constructor | frontend/js/telecommunication.js:325-327 | A container holds the bubbles rendered into it. |
| CallSession.ChatView.MarkSeen | frontend/js/telecommunication.js:329-337 | The search loop and the update give exactly `MarkedSeen` of the old bubbles. |
| CallSession.UpdateMessageSeenStatus | frontend/js/telecommunication.js:324-340 | Each of the two chat containers that exists is updated as `MarkedSeen`. |
| Uploads.Destination | backend/server.js:159-200 | The folder is one of the five upload folders. `proof` goes to `doctor-proofs/`, and only the `file` field goes to a resource folder. |
| Uploads.DestinationIgnoresMimeOutsideFile | backend/server.js:166-170 | For photos and proofs the MIME type cannot change the folder. |
| Uploads.Sanitize | backend/server.js:203 | Same length. Allowed characters are kept and every other character becomes `-`. |
| Uploads.SanitizeIdempotent | backend/server.js:203 | Sanitising twice is sanitising once. |
| Uploads.StoredName | backend/server.js:201-207 | The stored name contains no path separator, uses only `[a-zA-Z0-9.-]`, and ends with the sanitised original name. |
| Uploads.StoredNameFormat | backend/server.js:201-207 | The stored name is the clock reading in decimal, a dash, the random number in decimal, a dash, then the sanitised original name. |
| Uploads.StoredNamesDistinct | backend/server.js:201-207 | Two uploads whose clock readings or random numbers differ get different stored names, whatever their original names. |
| Strings.DecimalInjective | backend/server.js:202 | Different numbers have different decimal spellings. |
| Strings.DigitsThenDash | backend/server.js:202-205 | A digit string followed by a dash can be split off unambiguously. |
| Uploads.StoredPath | backend/server.js:158-207 | The stored path starts with the chosen folder. |
| Uploads.StoredPathUnderRoot | backend/server.js:158-207 | The stored path is `backend/uploads/` followed by a part without backslashes. |
| Uploads.StoredPathStaysInFolder | backend/server.js:201-207 | After the folder, the path is just the stored name, with no separator, so a file never escapes its folder. |
| Uploads.FileFilter | backend/server.js:213-227 | A file is accepted exactly when its MIME type is on the allow-list. A rejection names the type. |
| Uploads.FindRepeat | backend/server.js:927-932 | The first stored resource from the same uploader with the same name and type created in the last 5000 ms, or none if there is no such resource. |
| Uploads.Upload | backend/server.js:904-960 | A missing file and a missing type are refused. A repeat returns an existing matching resource. Otherwise a new unapproved resource is created, with the request's uploader, type, name and path and the current time. |
| Uploads.RepeatWithinWindowIsRejected | backend/server.js:926-946 | The same upload sent again within five seconds, after the first one was saved, is answered with the earlier resource, and nothing new is stored. |
| Uploads.ConcurrentRepeatsBothStored | backend/server.js:926-960 | When the second identical request looks up before the first one's save, both are accepted and the store ends with two copies inside the five-second window. |
| Todos.UpdatedTasks | backend/server.js:462-466 | An update exists exactly when the index is present and names a task. Only that task changes: its `completed` takes the new value, and its reason changes only when a non-empty one is given. |
| Todos.UpdateIdempotent | backend/server.js:462-466 | Sending the same update twice is sending it once. |
| Todos.ReasonSurvivesLaterTick | backend/server.js:464-466 | A later tick without a reason keeps the reason given before. |
| Todos.TodoStore.constructor | backend/server.js:456 | The store holds the given documents. |
| Todos.TodoStore.UpdateTask | backend/server.js:453-475 | Not found exactly for an unknown id. Invalid index exactly for a bad index, with nothing changed. Success updates that one document only. |
| Todos.TickScenario | backend/server.js:453-475 | Ticking the second of two tasks leaves the first alone. Bad indexes and unknown ids change nothing. |
| ResourceView.FilterByType | frontend/js/resource.js:15 | `all` shows everything. Any other filter shows exactly the resources of that type, in their original order. The administrator's `filterResources` (frontend/js/admin-dashboard.js, lines 364-365) applies the same selection to the pending resources. |
| ResourceView.FilterByTypeIdempotent | frontend/js/resource.js:15 | Choosing the same filter again shows the same list. |
| ResourceView.ResourceIcon | frontend/js/resource.js:46-53 | Each of the three types has its own icon; any other type gets the folder icon. |
| ResourceView.TypeFolder | frontend/js/resource.js:95-97 | Articles map to `pdfarticle`, and only an unknown type maps to `profiles`. |
| ResourceView.FolderUrl | frontend/js/resource.js:95-98 | A type's folder URL is under `/backend/uploads/` and has no backslash. |
| ResourceView.CleanPath | frontend/js/resource.js:80-84 | The cleaned path has no backslash. |
| ResourceView.ViewPath | frontend/js/resource.js:78-99 | Every URL is under `/backend/` with forward slashes only. A path with `uploads/` is kept; any other is put in its type's folder. |
| ResourceView.ViewPathIgnoresPreconversion | frontend/js/resource.js:31 | The backslash conversion the list page does before calling the viewer makes no difference. |
| ResourceView.UploadsPathIsServed | frontend/js/resource.js:90-91 | A path under `backend/uploads/` is served from `/` followed by that path, whatever the type. |
| ResourceView.StoredPathIsServed | frontend/js/resource.js:78-99 | A path the server stored is shown from exactly that file. |
| ResourceView.BareNameUsesTypeFolder | frontend/js/resource.js:92-98 | A bare file name is looked for in its type's folder. |
| PatientDashboard.PendingTasks | frontend/js/patient-dashboard.js:237 | Pending plus done is the number of tasks. None are pending exactly when all are done, and a missing list counts 0. |
| PatientDashboard.TickLowersPending | frontend/js/patient-dashboard.js:237 | Ticking off a pending task through the to-do endpoint lowers the count by exactly one. |
| PatientDashboard.WellnessStreak | frontend/js/patient-dashboard.js:251-262 | The streak is at most 30. Every day counted has an entry, and a streak below 30 stops at a day with none. |
| PatientDashboard.AnyEntryOn | frontend/js/patient-dashboard.js:256-259 | Reports true exactly when some entry falls on the day. |
| PatientDashboard.FirstOccurrencesFacts | frontend/js/patient-dashboard.js:723-728 | The chart's labels are exactly the logged moods, each listed once. |
| PatientDashboard.MoodCountsFacts | frontend/js/patient-dashboard.js:886-891 | Each logged mood's counter is its number of entries, and only logged moods have a counter. |
| PatientDashboard.CountsSumToLogged | frontend/js/patient-dashboard.js:886-891 | The counters add up to the number of entries that have a mood. |
| PatientDashboard.CountMoods | frontend/js/patient-dashboard.js:886-891 | The loop yields the keys in insertion order and the counters as specified. |
| PatientDashboard.Winner | frontend/js/patient-dashboard.js:894 | The reduce picks a key of maximal count; on a tie the later key wins. |
| PatientDashboard.MostCommonMood | frontend/js/patient-dashboard.js:893-895 | `N/A` without keys. Otherwise a key whose count no other key exceeds. |
| PatientDashboard.MostCommonOf | frontend/js/patient-dashboard.js:885-895 | `N/A` when no entry has a mood. Otherwise a logged mood that no other logged mood outnumbers. |
| PatientDashboard.NoMoodIsNA | frontend/js/patient-dashboard.js:893-895 | Unless a mood is literally `N/A`, the card shows `N/A` exactly when no entry has a mood. |
| PatientDashboard.LastSeven | frontend/js/patient-dashboard.js:898 | The last seven entries, or all of them when there are fewer. |
| PatientDashboard.Summaries | frontend/js/patient-dashboard.js:865-898 | The empty state appears exactly for no entries. The total, the completed count (at most the total), the most common mood of the entries and the weekly slice are as the page shows them. |
| PatientDashboard.DoctorPhotoPath | frontend/js/patient-dashboard.js:128-146 | No photo gives the placeholder. Any photo is shown as one file name directly under `/backend/uploads/profiles/`. |
| PatientDashboard.DoctorPhotoUsesLastSegment | frontend/js/patient-dashboard.js:134-142 | The prefix strips never matter; only the last path segment is used. |
| Strings.LastSegmentIsLastPart | frontend/js/patient-dashboard.js:142 | What `split('/').pop()` yields is a suffix of the path that is either the whole path or begins right after its last `/`. |
| PatientDashboard.StoredPhotoShown | frontend/js/patient-dashboard.js:128-146 | A profile photo the server stored is shown from the file it wrote. |
| PatientDashboard.MyComplaints | frontend/js/patient-dashboard.js:1164 | Exactly the user's own complaints, in the order the server sent them. |
| DoctorDashboard.DoctorOwnPhotoPath | frontend/js/doctor-dashboard.js:44-48 | No photo gives the placeholder. A photo is served from under `/backend/uploads/`. |
| DoctorDashboard.StoredProfilePhotoShown | frontend/js/doctor-dashboard.js:45-48 | A profile photo stored under `backend/uploads/profiles/` is shown from that same file. |
| DoctorDashboard.FilterAppointments | frontend/js/doctor-dashboard.js:670-671 | `all` shows everything. Any other filter shows exactly the appointments of that status, in order. |
| DoctorDashboard.FilterAppointmentsIdempotent | frontend/js/doctor-dashboard.js:670-671 | Choosing the same filter again shows the same list. |
| DoctorDashboard.ValidMimes | frontend/js/doctor-dashboard.js:729-733 | The table has an entry exactly for the three resource types. |
| DoctorDashboard.CheckUpload | frontend/js/doctor-dashboard.js:698-738 | A disabled button ignores the click. A request is sent exactly when there is a file of at most 50 MiB, of a known type, with one of that type's MIME types. Too-large and wrong-MIME files are told apart. |
| DoctorDashboard.AfterSubmit | frontend/js/doctor-dashboard.js:752 | A submission that passes the checks disables the button and sends exactly one request. Any other leaves the form as it was. |
| DoctorDashboard.AfterResponse | frontend/js/doctor-dashboard.js:776-799 | A success keeps the button disabled until the timer fires. An error re-enables it at once. |
| DoctorDashboard.AfterTimer | frontend/js/doctor-dashboard.js:776-781 | The timer re-enables the button. |
| DoctorDashboard.SubmitKeepsInvariant | frontend/js/doctor-dashboard.js:704-707 | Submitting keeps at most one request outstanding, and the button disabled while one is. |
| DoctorDashboard.ResponseKeepsInvariant | frontend/js/doctor-dashboard.js:776-799 | A response keeps the form invariant. |
| DoctorDashboard.TimerKeepsInvariant | frontend/js/doctor-dashboard.js:776-781 | The timer keeps the form invariant. |
| DoctorDashboard.DoubleSubmitSendsOnce | frontend/js/doctor-dashboard.js:704-707 | Two submissions in a row send at most one request. |
| DoctorDashboard.UploadForm.constructor | frontend/js/doctor-dashboard.js:698 | The form starts enabled with nothing sent, satisfying the invariant. |
| DoctorDashboard.UploadForm.Submit | frontend/js/doctor-dashboard.js:698-755 | Returns the checks' verdict; the new state is `AfterSubmit`. |
| DoctorDashboard.UploadForm.ResponseArrived | frontend/js/doctor-dashboard.js:757-799 | New state is as given by `AfterResponse`. |
| DoctorDashboard.UploadForm.TimerFired | frontend/js/doctor-dashboard.js:776-781 | New state is as given by `AfterTimer`. |
| DoctorDashboard.ClientMimesPassServerFilter | frontend/js/doctor-dashboard.js:729-738 | Every file the form sends passes the server's MIME filter. |
| DoctorDashboard.ClientTypeSelectsServerFolder | backend/server.js:172-186 | The server stores such a file in the folder where the library page looks for its type. |
| DoctorDashboard.MyResourcesFacts | frontend/js/doctor-dashboard.js:836-843 | Only the doctor's own resources appear: the pending ones first, marked unapproved, then the approved ones, marked approved. Every own resource appears, and the list has exactly as many entries as the doctor has pending and approved resources. |
| DoctorDashboard.MyResourcesLayout | frontend/js/doctor-dashboard.js:836-843 | Position by position: the doctor's pending resources in server order, each marked unapproved, then the approved ones in server order, each marked approved. |
| AdminDashboard.AdminPhotoPath | frontend/js/admin-dashboard.js:45-53 | Without a photo the default image stays. Otherwise the URL is under `/backend/uploads/` without backslashes, after one `backend/` and one `uploads/` are stripped. |
| AdminDashboard.AdminPhotoOfStored | frontend/js/admin-dashboard.js:47-51 | A photo the server stored under `backend/uploads/` is shown from that same file. |
| AdminDashboard.AdminPhotoWithoutBackendPrefix | frontend/js/admin-dashboard.js:49-51 | A path stored without `backend/` is shown from the same file as one with it. |
| AdminDashboard.FilterComplaints | frontend/js/admin-dashboard.js:492-498 | `patient` and `doctor` select exactly by role, and `pending` and `resolved` exactly by status. Any other value shows all complaints. Order is kept. |
| AdminDashboard.FilterComplaintsIdempotent | frontend/js/admin-dashboard.js:492-498 | Choosing the same filter again shows the same list. |
| AdminDashboard.CountOrZero | frontend/js/admin-dashboard.js:88-96 | The figure is truthy exactly when the request succeeded with a truthy count. Otherwise it is 0. |
| AdminDashboard.OverviewFigures | frontend/js/admin-dashboard.js:84-102 | Pending requests are pending doctors plus pending resources. Open complaints are exactly those the `pending` filter shows, and the count is 0 exactly when none is pending. |
| AdminDashboard.FindMonth | frontend/js/admin-dashboard.js:707 | The first row of the month, or none if the month has no row. |
| AdminDashboard.RegistrationSeries | frontend/js/admin-dashboard.js:705-708 | Six values, one per month from January to June, each that month's count or 0. |
| AdminDashboard.MonthValueAppend | frontend/js/admin-dashboard.js:707 | A month's value comes from the earlier rows when the month appears there. |
| AdminDashboard.SeriesIgnoresOtherMonths | frontend/js/admin-dashboard.js:705-708 | Rows for months outside January to June never change the chart. |
| AdminDashboard.FirstRowOfMonthWins | frontend/js/admin-dashboard.js:707 | When a month appears twice, the chart shows the first row's count. |
| Registration.IndicatorMark | frontend/js/main.js:600-612 | As written, no indicator is ever active, and exactly the indices below `currentStep` are completed. |
| Registration.IntendedIndicatorMark | frontend/js/main.js:600-612 | The current step is active, only the earlier steps are completed, and no step is both. |
| Registration.CurrentStepShownCompleted | frontend/js/main.js:601-606 | The two agree except on the current step, which the page shows completed instead of active. |
| Registration.IntendedMarksOneActive | frontend/js/main.js:600-612 | With the intended marks, exactly one step of the panel is active. |
| Registration.Wizard.constructor | frontend/js/main.js:7-10 | The page starts at step 1 with no role, no user and no doctor, and the first step form active. |
| Registration.Wizard.SelectRole | frontend/js/main.js:127-137 | Clicking a role card sets the role and leaves the step counter, the active form, the user and the doctor as they were. |
| Registration.Wizard.UpdateStepIndicator | frontend/js/main.js:600-612 | Every indicator gets its `IndicatorMark`: the earlier ones completed, none active. |
| Registration.Wizard.NextStep | frontend/js/main.js:576-586 | Advances exactly when the next sibling is a step form, and the counter then stays the active form's position. Without an active form nothing changes. |
| Registration.Wizard.PreviousStep | frontend/js/main.js:588-598 | Goes back exactly when the previous sibling is a step form, and the counter follows. Without an active form nothing changes. |
| Registration.Wizard.ResetRegistrationForms | frontend/js/main.js:614-631 | Back to step 1 with no role, no user and no doctor, and no step form active. |
| Registration.NextAfterReset | frontend/js/main.js:576-578 | After a reset, `nextStep` finds no active step form, so a second registration in the same page cannot advance. |
| Registration.ForwardAndBack | frontend/js/main.js:576-598 | Stepping forward and then back returns to the same form and step. |
| Registration.SizeLimit | frontend/js/main.js:642-714 | 10 MiB for the doctor's proof and 5 MiB for each photo. |
| Registration.KeepsChosenFile | frontend/js/main.js:642-714 | A chosen file is kept exactly when it is within its input's limit. |
| Registration.KeptFilesFitServerLimit | backend/server.js:212 | Every file the forms keep is within the server's 100 MiB limit. |
| FixResources.FolderFor | fix-resources.js:24-26 | Each of the three types has its folder; every other type has none. |
| FixResources.MovedPath | fix-resources.js:30-37 | The new path lies under `backend/uploads/` in the folder and keeps the old base name, so it names its folder. |
| FixResources.Rename | fix-resources.js:36 | The target exists afterwards, every other file stays, the old name is gone, and no other file appears. |
| FixResources.Step | fix-resources.js:24-42 | One iteration changes at most its own resource. It changes nothing when no move is needed or the rename fails. Otherwise the file moves, and the stored path follows unless the save fails. |
| FixResources.Run | fix-resources.js:23-44 | The loop over the first `n` resources leaves the others untouched. |
| FixResources.RewrittenPathIsFinal | fix-resources.js:34 | A rewritten resource lies in its type's folder and is never moved again, whatever files exist. |
| FixResources.InTypeFolderUnchanged | fix-resources.js:34 | A resource already in its type's folder is left alone. |
| FixResources.RunOutcome | fix-resources.js:23-44 | After the script, every resource is either as it was or rewritten into its type's folder. |
| FixResources.InTypeFolderSurvivesRun | fix-resources.js:23-44 | A resource in its type's folder survives any run unchanged. |
| FixResources.SecondRunKeepsFixed | fix-resources.js:23-44 | Running the script again changes nothing for what the first run fixed. |
| FixResources.UnknownTypeSkipped | fix-resources.js:28 | A resource of another type is skipped. |
| FixResources.SaveFailureLeavesStalePath | fix-resources.js:35-42 | A failed save after a successful move leaves the stored path naming a file that no longer exists. |
| FixResources.Migration.constructor | fix-resources.js:21 | The script starts from the files on disk and the stored resources. |
| FixResources.Migration.FixPaths | fix-resources.js:20-44 | The loop visits every resource once, in order, and a failure on one does not stop it. The final state is `Run` over all resources. |

## Left out

- Timers are modelled as events without durations. This covers the ringtone, the 300 ms tick animation, the doctor form's 2 s re-enable, and the initiator's 2 s `failed` grace period. A connection failure at the initiator therefore ends the call at once.
- The WebRTC engine and the media devices become outcome parameters. This covers getUserMedia, offers and answers, `setRemoteDescription` and `addIceCandidate`. The peer connection is reduced to these parts: whether it exists, whether its remote description is set, the candidates applied, and where its own candidates go.
- DOM, CSS, markup, modals, notifications and logging are left out. Page markup that is not part of this model (which child of a panel is a step form) enters the wizard as its `forms` parameter.
- `fetch`, `localStorage` and the database calls become parameters or inputs. Mongo's `findOne` is modelled as the first match in insertion order, and ids and `Date.now()` are parameters.
- The doctor form keeps the response as its status alone (`OkJson`, `ErrorJson`, `NotJson`). Its message text and the reload of the list are not modelled.
- Floating-point averages (stress, sleep) in the summaries are left out, as floats.
- Dates in the streak are whole day numbers. Time zones, `toDateString` and invalid dates are left out.
- Strings are sequences of characters. UTF-16 code units and regular expressions other than the literal patterns used here are not modelled.
- `Object.keys` order is insertion order. That is, mood names that look like array indices, or are `__proto__`, are not special.
- `getResourceIcon` looks the type up in an object literal. A type named like an `Object.prototype` member (`constructor`, `toString`) would find that member; the model gives such a type the folder icon.
- The first `loadComplaints` of the patient dashboard (with its sort) is overridden by the second definition of the same name (frontend/js/patient-dashboard.js:1153), which keeps the server's order. Only the second is modelled.
- The global `newMessage` broadcast of the chat REST endpoint is not modelled. It is outside the relay handlers.
- In fix-resources.js, `path.join` with the script's directory is left out. Paths are compared as the stored strings, and `path.basename` is the POSIX one.
- The multer size limit appears only as the constant 100 MiB. Streaming and the aborted upload of a larger file are not modelled.
- The register panels' HTTP calls and form submissions are outside the wizard (only its state and steps are modelled).
- The `completed` field of a to-do update is a boolean, not any JSON value.
- DoctorDashboard.MyResources has no contract of its own; its properties are stated by `MyResourcesFacts`.
- Uploads.RepeatWithinWindowIsRejected holds only when the second request's lookup runs after the first request's `save`. The handler awaits between the two, and `Uploads.ConcurrentRepeatsBothStored` states what happens in the other order.
- Awaits with no change to the page state between them are one step: the two awaits of `fetchOtherUserInfo`, and `getUserMedia` with the local preview's `play`.
- CallSession.Described marks the peer held by the page when the description settles. If a new call replaced the peer meanwhile, the new one is marked, while the code set the description of the old connection object; the model keeps no connection objects other than the current one.
- CallSession.FlushInterleaves and CallSession.UninterruptedFlush assume every `addIceCandidate` settles successfully and that only remote candidates arrive during the flush. A hang-up or a failure during the flush is modelled by the single steps (`FlushFrom`, `AfterFlushedCandidate`) but not by these lemmas.
- CallSession.CallerFlushesInOrder, CallSession.CalleeFlushesInOrder and CallSession.TwoClicksSendTwoOffers each state one order of events; the steps they compose can run in any other order.
- CallSession.LateDescriptionAfterHangUp follows the code. In a browser that never settles the pending operations of a closed connection, that order of events does not occur.
- Relay.Server.JoinRoom and Relay.RouteOf key rooms by the JSON value itself. socket.io treats an array given to `join` or `to` as several rooms (`joinRoom(["u1", "u2"])` joins both) and handles other non-string values by their own rules; only string room names behave as modelled.
- PatientDashboard.MoodCounts and PatientDashboard.MostCommonOf count into a fresh map. The page counts into an object literal, where a mood named like an `Object.prototype` member (`constructor`, `toString`) starts from that member instead of from nothing (frontend/js/patient-dashboard.js:726 and 889).
- Todos.ValidIndex takes the task index as a number. The server also accepts a numeric string such as `"1"` as an index, and an id that is not a valid object id makes `findById` throw, which answers 500 rather than 404.
- FixResources.Migration.FixPaths assumes every resource has a `filePath`. In fix-resources.js:30 and :34 `path.basename` and `includes` run outside the `try`, so a resource without one aborts the whole run; the model has no such resource.
- Registration.Wizard.SelectRole only records the role. Which panel is shown, and the doctor list and questions loaded for a patient, are page work outside the wizard.

## Findings

| source | as written | input that shows it | evidently intended | confidence | as-written member | corrected member |
|---|---|---|---|---|---|---|
| frontend/js/main.js:600-612 | `index < currentStep` is tested before `index === currentStep - 1`, so no step indicator ever becomes active. The current step is shown completed. | `currentStep = 1`, indicator index 0: it is marked completed and not active | The current step is active and only the earlier ones are completed. | not executed; the unreachable middle branch shows the intent | Registration.IndicatorMark | Registration.IntendedIndicatorMark |

The wizard keeps the marks as written, since that is what the page shows. `Registration.CurrentStepShownCompleted` proves that the two definitions differ only on the current step. `Registration.IntendedMarksOneActive` proves the intended property of the corrected one.
