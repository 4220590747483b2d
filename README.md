# MediQly call coordination and page logic, modelled in Dafny

MediQly is a telehealth web application. Patients and doctors use it to book consultations, chat, place video calls, track medicines and symptoms, pay for plans and navigate by voice. This project models its core in Dafny and proves properties of that model:

- **Call coordination on the server** (`coordinator.dfy`, module `Coordination`). The Socket.IO handlers keep two maps in memory:
  - `onlineUsers`, the registry of connected users, iterated in insertion order;
  - `activeCalls`, the table of calls being set up or in progress.

  Each handler is a pure step on a `Hub` value. The class `Coordinator` holds the same state in fields, and its methods are proved to perform exactly those steps.
- **Client signalling** (`signaling.dfy`, `Signaling`): the envelope builder that stamps every call message with the signed-in user's id.
- **Client negotiation session** (`webrtc.dfy`, `Negotiation`): the peer connection, the local stream and the remote stream. The browser's answers are parameters.
- **The `useVideoCall` hook** (`videocall.dfy`, `VideoCall`): the call state the UI renders, the refs the hook keeps, and how signalling events and user actions change them.
- **Pure page logic**, one module per page:
  - `Medicine`: the medicine tracker and its minute-tick reminders;
  - `Symptoms`: the symptom log, its dashboard and the 30-day report;
  - `Bookings`: the booking list;
  - `Profile`: the Indian phone-number check, emergency contacts and the online toggle;
  - `PaymentForm` and `PaymentHistory`: the payment form and the history filters and totals;
  - `VoiceNavigation`: voice navigation;
  - `Reports`: report cleaning and translation checks;
  - `Translation`: the translation hook;
  - `AiChat`: the AI chat page;
  - `Ayushman`: the Ayushman Bharat page.
- **Shared modules**:
  - `Wrappers`: `Option`, `Result` and `Outcome`;
  - `Text`: the JavaScript string operations used, such as `trim`, `toLowerCase`, `includes`, `split`, `join`, `padStart` and integer printing and parsing;
  - `Seqs`: filter, count, distinct, a stable sort and tallies;
  - `Wire`: the socket messages.

JavaScript's falsy `undefined`, `null` and `""` are all modelled as `""`, or as `None` where the value is optional. Timestamps are integers. The outcome of anything the code awaits is a parameter, because it comes from the network, the browser or a timer. Examples are a REST response, `getUserMedia`, the language model's reply and the 30-second timer.

## Where the documentation and the code differ

In each of these cases the model follows the code.

- **Timer after acceptance.** `call-accepted` does not touch `activeCalls`, so an accepted call is still torn down by the 30-second setup timer (`Coordination.AcceptedCallStillTimesOut`). The timer also names the call only by its two users, so it can end a later call between the same pair (`Coordination.EarlierTimerEndsRedial`).
- **Half-records after a stale hang-up.** `call-rejected` and `call-ended` delete the records of both named users whatever those records point at. A stale hang-up can therefore leave a half record behind (`Coordination.StaleHangUpLeavesHalfCall`). Pairing of call records is proved only for runs whose hang-ups concern the sender's own call (`Coordination.RunKeepsPaired`).
- **Failures in the hook.** When `initiateCall` or `acceptCall` fails part-way, only the flag is cleared. Nothing is torn down and no "call-ended" is sent.
- **No busy guard.** Nothing guards `initiateCall` against a call that is already open.
- **Remote hang-ups read stale streams.** `endCall`, when run by the "call-ended" handler or by a broken connection, reads the streams of the render that attached the handlers, not the current ones.
- **Candidate queue.** A remote candidate is queued only while no peer connection exists, whether or not a remote description is set. The queue is not cleared by `endCall` or `rejectCall`.
- **Medicine reminders.** The `taken` flag of a reminder is never reset, so a reminder is silenced for good after one dose (`Medicine.TakenIsSilenced`).
- **Toggling a symptom twice.** This restores the list exactly only when the symptom was not chosen before. When it was chosen, it moves to the end of the list (`AiChat.ToggleTwiceChosen`). The description written from the choice is restored in both cases (`AiChat.ToggleTwiceSameDescription`).

## Model

| member | source | states |
|---|---|---|
| Coordination.CallerLabel | server/chat/chathandler.controller.js:214-218 | The announced `fromName` is "Doctor" exactly when `fromType` is "doctor", and "Patient" otherwise. |
| Coordination.SetOnline | server/chat/chathandler.controller.js:31-36 | Registration overwrites the user's presence record only. A re-registered user keeps their place in iteration order. The call table is untouched, and exactly one online broadcast is emitted. |
| Coordination.FirstWithSocket | server/chat/chathandler.controller.js:59-60 | The disconnect scan finds the first entry, in iteration order, whose socket is the closing one: no earlier entry has that socket. |
| Coordination.WithoutKeepsOthers | server/chat/chathandler.controller.js:79 | Deleting a key from the registry keeps every other key exactly once. |
| Coordination.OnDisconnect | server/chat/chathandler.controller.js:56-84 | After a disconnect, the registry and its iteration order still match. |
| Coordination.Leave | server/chat/chathandler.controller.js:62-81 | The departure of one user keeps the registry and its iteration order matching. |
| Coordination.Apply | server/chat/chathandler.controller.js:24-301 | Every event, such as a client message, a closed socket, a connection or a timer, keeps the registry consistent with its iteration order. |
| Coordination.Run | server/chat/chathandler.controller.js:24-301 | Any sequence of events keeps the registry consistent with its iteration order. |
| Coordination.RelaysLeaveState | server/chat/chathandler.controller.js:235-275 | Offer, answer, candidate and acceptance change neither map and arm no timer. They forward the message unchanged to a registered target. For an unregistered target, an offer or answer bounces "user-offline" to the sender, and a candidate or acceptance is dropped. |
| Coordination.HangUpClearsBoth | server/chat/chathandler.controller.js:277-301 | A rejection or hang-up deletes the call records of both named users, even when the target is offline, and leaves the registry alone. It forwards the message unchanged only to a registered target. |
| Coordination.PairedMeansOneCall | server/chat/chathandler.controller.js:200-207 | When every call record's partner points back, two records with the same partner are the same record. Nobody is in two calls. |
| Coordination.RemovePairKeepsPaired | server/chat/chathandler.controller.js:74-75 | Deleting both parties of one call keeps every other record paired. |
| Coordination.InitiateKeepsPaired | server/chat/chathandler.controller.js:180-207 | A call initiation keeps every call record paired with its partner. |
| Coordination.ApplyKeepsPaired | server/chat/chathandler.controller.js:56-301 | Every event keeps pairing, provided a rejection or hang-up names the sender's own call. |
| Coordination.RunKeepsPaired | server/chat/chathandler.controller.js:24-301 | Single active call: along any run whose rejections and hang-ups concern the sender's own call, pairing holds throughout. |
| Coordination.StaleHangUpLeavesHalfCall | server/chat/chathandler.controller.js:290-301 | A hang-up naming users who are not partners deletes only one half of a call. The remaining party is then refused as busy. |
| Coordination.InitiateOutcomes | server/chat/chathandler.controller.js:180-233 | Every outcome of "initiate-call". A missing id does nothing. An offline callee gets only "user-offline" to the caller, before any busy check. A call when either user already has a record gets only "user-busy" to the caller, with no change. Otherwise "incoming-call" goes to the callee and "call-initiated" to the caller, both records are written and one timer is armed, whether or not the caller is registered. No existing record is overwritten. |
| Coordination.CrossedCallsOneWins | server/chat/chathandler.controller.js:195-207 | When two users call each other, the first admission wins. The second is refused "user-busy", with no change and no timer. |
| Coordination.RejectThenRetry | server/chat/chathandler.controller.js:277-288 | A rejection clears both records and relays its reason unchanged. The same call is then admitted again exactly as before. |
| Coordination.UnansweredCallTimesOut | server/chat/chathandler.controller.js:224-232 | The timer of an unanswered call deletes both records and sends "call-timeout" to both captured sockets. |
| Coordination.AcceptedCallStillTimesOut | server/chat/chathandler.controller.js:224-275 | Offer, candidate, answer and acceptance change nothing, so the setup timer still tears down an accepted call. |
| Coordination.EarlierTimerEndsRedial | server/chat/chathandler.controller.js:224-288 | After a rejection and a re-admission of the same pair, the first call's timer tears down the second call. |
| Coordination.TimerAfterHangUpIsHarmless | server/chat/chathandler.controller.js:224-301 | After a hang-up, the timer finds no record naming the callee and does nothing. |
| Coordination.DisconnectEndsCall | server/chat/chathandler.controller.js:56-84 | When a caller's socket closes, the partner gets "call-ended" and then everyone gets the offline broadcast. Both records go, the user is unregistered and pairing holds. |
| Coordination.SupersededSocketCloses | server/chat/chathandler.controller.js:40-84 | A user re-registered from a new socket keeps one entry. The old socket closing later changes nothing and emits nothing. |
| Coordination.Coordinator.constructor | server/chat/chathandler.controller.js:9-10 | The server starts with both maps empty. |
| Coordination.Coordinator.Register | server/chat/chathandler.controller.js:31-51 | The fields take exactly the `SetOnline` step. |
| Coordination.Coordinator.Connect | server/chat/chathandler.controller.js:28-37 | The fields take exactly the connection step: registration only when both query fields are present. |
| Coordination.Coordinator.FindBySocket | server/chat/chathandler.controller.js:59-60 | The loop with an early exit returns the first entry whose socket matches. |
| Coordination.Coordinator.Disconnect | server/chat/chathandler.controller.js:56-84 | The fields take exactly the disconnect step. |
| Coordination.Coordinator.Depart | server/chat/chathandler.controller.js:62-81 | The fields take exactly the departure step of the user the scan found. |
| Coordination.Coordinator.EndCallOf | server/chat/chathandler.controller.js:63-76 | Removes the departing user's record and its partner's. Returns the "call-ended" event for a registered partner. |
| Coordination.Coordinator.Receive | server/chat/chathandler.controller.js:40-301 | The fields take exactly the step of the handler for the event. |
| Coordination.Coordinator.Initiate | server/chat/chathandler.controller.js:180-233 | The fields take exactly the "initiate-call" step. |
| Coordination.Coordinator.Relay | server/chat/chathandler.controller.js:235-275 | The maps are unchanged. The message goes to a registered target, or the fallback events are emitted. |
| Coordination.Coordinator.HangUp | server/chat/chathandler.controller.js:277-301 | Both named users' call records are removed. The message goes on to a registered target. |
| Coordination.Coordinator.TimeoutFires | server/chat/chathandler.controller.js:224-232 | Running an armed timer gives the state and emits of its callback. That timer is spent, and the other timers stay. |
| Signaling.RejectReason | client/src/services/signaling.service.ts:115-124 | A missing reason is sent as "declined". A given reason is sent unchanged. |
| Signaling.SignalingService.constructor | client/src/services/signaling.service.ts:43-45 | The service starts over the socket, with no user set and nothing sent. |
| Signaling.SignalingService.SetUserInfo | client/src/services/signaling.service.ts:47-50 | Records the id and type, and changes nothing else. |
| Signaling.SignalingService.InitiateCall | client/src/services/signaling.service.ts:52-71 | Sends one "initiate-call" stamped with the user's id and type when a socket and a user id are held. Otherwise it sends nothing. |
| Signaling.SignalingService.SendOffer | client/src/services/signaling.service.ts:73-82 | Sends one "call-offer" from the current user under the same guard. |
| Signaling.SignalingService.SendAnswer | client/src/services/signaling.service.ts:84-93 | Sends one "call-answer" from the current user under the same guard. |
| Signaling.SignalingService.SendIceCandidate | client/src/services/signaling.service.ts:95-103 | Sends one "ice-candidate" from the current user under the same guard. |
| Signaling.SignalingService.AcceptCall | client/src/services/signaling.service.ts:105-113 | Sends one "call-accepted" to the caller under the same guard. |
| Signaling.SignalingService.RejectCall | client/src/services/signaling.service.ts:115-124 | Sends one "call-rejected" with the reason, defaulting to "declined", under the same guard. |
| Signaling.SignalingService.EndCall | client/src/services/signaling.service.ts:126-134 | Sends one "call-ended" under the same guard. |
| Signaling.SignalingService.Disconnect | client/src/services/signaling.service.ts:150-156 | Closes a held socket once and drops it, so that every later send does nothing. |
| Negotiation.TrackIds | client/src/services/webrtc.service.ts:151-190 | The ids of a stream's tracks, in order. |
| Negotiation.StopsOf | client/src/services/webrtc.service.ts:296-300 | Ending stops every local track in order. An absent stream stops nothing. |
| Negotiation.FirstOfKind | client/src/services/webrtc.service.ts:270-292 | `getVideoTracks()[0]` / `getAudioTracks()[0]`: the first track of the kind, or none. |
| Negotiation.Toggle | client/src/services/webrtc.service.ts:270-292 | Returns false without a stream or without a track of the kind. Otherwise it flips the first such track, returns its new value and changes no other track. |
| Negotiation.FirstOfKindByKinds | client/src/services/webrtc.service.ts:270-292 | The track found depends only on the kinds of the tracks. |
| Negotiation.ToggleTwice | client/src/services/webrtc.service.ts:270-292 | Toggling twice restores the stream, and the two calls report opposite values. |
| Negotiation.WebRTCService.constructor | client/src/services/webrtc.service.ts:11-13 | The session starts with no connection and no streams. |
| Negotiation.WebRTCService.InitializePeerConnection | client/src/services/webrtc.service.ts:43-53 | A new connection replaces the held one, which is neither closed nor stopped. A creation failure is raised again. |
| Negotiation.WebRTCService.GetUserMedia | client/src/services/webrtc.service.ts:121-149 | The granted stream becomes the local stream, and a refusal is raised again. |
| Negotiation.WebRTCService.AddLocalStreamToPeerConnection | client/src/services/webrtc.service.ts:151-190 | Does nothing without a connection or a stream. Otherwise the earlier senders are removed, and the senders become the distinct local track ids, in order. |
| Negotiation.WebRTCService.CreateOffer | client/src/services/webrtc.service.ts:192-213 | Without a connection, raises the not-initialised error. A created offer becomes the local description before it is returned. |
| Negotiation.WebRTCService.CreateAnswer | client/src/services/webrtc.service.ts:215-236 | Without a connection, raises the not-initialised error. A created answer becomes the local description before it is returned. |
| Negotiation.WebRTCService.SetRemoteDescription | client/src/services/webrtc.service.ts:238-253 | Raises without a connection. Otherwise an applied description becomes the remote description. |
| Negotiation.WebRTCService.AddIceCandidate | client/src/services/webrtc.service.ts:255-268 | Raises only without a connection. A refused candidate is logged and dropped. |
| Negotiation.WebRTCService.ToggleVideo | client/src/services/webrtc.service.ts:270-280 | The local stream and result are those of `Toggle` for video. Nothing else changes. |
| Negotiation.WebRTCService.ToggleAudio | client/src/services/webrtc.service.ts:282-292 | The local stream and result are those of `Toggle` for audio. Nothing else changes. |
| Negotiation.WebRTCService.EndCall | client/src/services/webrtc.service.ts:294-313 | Stops every local track, closes a held connection and forgets all three. With nothing held, it does nothing. |
| Negotiation.WebRTCService.OnTrack | client/src/services/webrtc.service.ts:69-92 | The first stream of the event is delivered and kept exactly when it has a track. |
| Negotiation.WebRTCService.ReportedState | client/src/services/webrtc.service.ts:94-103 | A connection-state change is reported exactly while a connection is held. |
| Negotiation.WebRTCService.IsPeerConnectionInitialized | client/src/services/webrtc.service.ts:341-343 | True exactly while a connection is held. |
| VideoCall.CallerName | client/src/hooks/useVideoCall.ts:126-127 | The sent name when there is one. Otherwise "Doctor" exactly for a doctor, else "Patient". |
| VideoCall.Ringing | client/src/hooks/useVideoCall.ts:118-132 | "incoming-call" sets ringing and the caller's id, name and type, and nothing else. |
| VideoCall.Offered | client/src/hooks/useVideoCall.ts:144-168 | "call-offer" rings with the sender as caller. A known name and type are kept, with "Unknown Caller" and "user" as fallbacks. |
| VideoCall.OfferAfterRingingChangesNothing | client/src/hooks/useVideoCall.ts:118-168 | The offer following a ring from the same caller changes nothing the UI shows. |
| VideoCall.OfferWithoutRinging | client/src/hooks/useVideoCall.ts:153-159 | An offer with no ring before it shows "Unknown Caller" of type "user", and the call is open. |
| VideoCall.Rejected | client/src/hooks/useVideoCall.ts:204-216 | "call-rejected" clears placing and receiving. The call stays open exactly when it was established. |
| VideoCall.Refused | client/src/hooks/useVideoCall.ts:227-245 | "user-offline" and "user-busy" clear placing only. |
| VideoCall.Declined | client/src/hooks/useVideoCall.ts:429-435 | Declining clears receiving and forgets the caller, and nothing else. |
| VideoCall.StateChanged | client/src/hooks/useVideoCall.ts:95-115 | "connected" establishes the call. "disconnected" and "failed" reset it. Any other state is only recorded. |
| VideoCall.VideoCallHook.constructor | client/src/hooks/useVideoCall.ts:27-44 | The first render: initial call state, empty refs and no services. |
| VideoCall.VideoCallHook.Setup | client/src/hooks/useVideoCall.ts:49-71 | Skipped without a user id and type or before signalling is ready. Otherwise a fresh session is created and the handlers are attached. |
| VideoCall.VideoCallHook.Teardown | client/src/hooks/useVideoCall.ts:258-272 | Detaches the handlers, disconnects signalling and ends the session. |
| VideoCall.VideoCallHook.OnIncomingCall | client/src/hooks/useVideoCall.ts:118-141 | While the handlers are attached, the call state becomes `Ringing` and the caller becomes the other party. Otherwise nothing changes. |
| VideoCall.VideoCallHook.OnCallOffer | client/src/hooks/useVideoCall.ts:144-168 | While the handlers are attached, the offer is kept pending, the sender becomes the other party and the state becomes `Offered`. |
| VideoCall.VideoCallHook.OnCallAnswer | client/src/hooks/useVideoCall.ts:170-178 | While the handlers are attached, an applied answer becomes the remote description and clears placing. A failure changes nothing. |
| VideoCall.VideoCallHook.OnIceCandidate | client/src/hooks/useVideoCall.ts:180-202 | While the handlers are attached, the candidate is queued when no connection exists and is otherwise handed to the connection. |
| VideoCall.VideoCallHook.OnCallRejected | client/src/hooks/useVideoCall.ts:204-216 | While the handlers are attached, the state becomes `Rejected`. The refs stay. |
| VideoCall.VideoCallHook.OnUserOffline | client/src/hooks/useVideoCall.ts:227-235 | While the handlers are attached, the state becomes `Refused`. |
| VideoCall.VideoCallHook.OnUserBusy | client/src/hooks/useVideoCall.ts:237-245 | While the handlers are attached, the state becomes `Refused`. |
| VideoCall.VideoCallHook.OnCallEnded | client/src/hooks/useVideoCall.ts:218-221 | Runs `endCall` on the state captured when the handlers were attached. |
| VideoCall.VideoCallHook.OnTrack | client/src/hooks/useVideoCall.ts:74-86 | A stream with tracks becomes the call's remote stream. |
| VideoCall.VideoCallHook.OnLocalCandidate | client/src/hooks/useVideoCall.ts:88-93 | A gathered candidate is sent to the recorded other party. With none recorded, nothing is sent. |
| VideoCall.VideoCallHook.OnConnectionStateChange | client/src/hooks/useVideoCall.ts:95-115 | While a connection is held, the state follows `StateChanged`, and a broken connection runs the captured `endCall`. |
| VideoCall.VideoCallHook.InitiateCall | client/src/hooks/useVideoCall.ts:282-337 | The steps run in order, and a throwing step stops the rest. The messages sent are "initiate-call" and then the offer. Failures clear only `isInitiating`. |
| VideoCall.VideoCallHook.SendCallOffer | client/src/hooks/useVideoCall.ts:313-332 | From a fresh connection with media held: the tracks are added, "initiate-call" is sent, then the offer is set locally and sent. A failed offer only clears `isInitiating`. |
| VideoCall.VideoCallHook.AcceptCall | client/src/hooks/useVideoCall.ts:339-414 | Nothing happens without a caller. The pending offer is applied and cleared. The queued candidates are replayed in order and emptied. The answer and then "call-accepted" are sent, and ringing stops. |
| VideoCall.VideoCallHook.PrepareAnswer | client/src/hooks/useVideoCall.ts:352-388 | The steps before the answer, with exactly which inputs let them all succeed. |
| VideoCall.VideoCallHook.AnswerCaller | client/src/hooks/useVideoCall.ts:391-395 | Sends the answer to the caller, then "call-accepted". |
| VideoCall.VideoCallHook.ReplayQueued | client/src/hooks/useVideoCall.ts:381-388 | The loop hands each queued candidate to the connection in order. A refused candidate is dropped without stopping the rest, and the queue is emptied. |
| VideoCall.VideoCallHook.RejectCall | client/src/hooks/useVideoCall.ts:416-439 | Nothing happens without a caller. Otherwise a "declined" rejection is sent, and the caller, pending offer and other party are forgotten. |
| VideoCall.VideoCallHook.EndCall | client/src/hooks/useVideoCall.ts:441-493 | Ends the session. It sends "call-ended" to a recorded party and stops the tracks of both streams. It forgets the other party and the pending offer, keeps the candidate queue and resets the state. A second hang-up changes nothing. |
| VideoCall.VideoCallHook.EndCallWith | client/src/hooks/useVideoCall.ts:441-493 | `endCall` reading the streams of a given render. |
| VideoCall.VideoCallHook.StopTracks | client/src/hooks/useVideoCall.ts:455-469 | Stops every track of a held stream, in order. |
| VideoCall.VideoCallHook.ToggleVideo | client/src/hooks/useVideoCall.ts:495-501 | The session's toggle result becomes `isVideoEnabled`. |
| VideoCall.VideoCallHook.ToggleAudio | client/src/hooks/useVideoCall.ts:503-509 | The session's toggle result becomes `isAudioEnabled`. |
| Medicine.AddMedication | client/src/pages/Medicine.tsx:111-142 | Refused without a name or dosage. Otherwise it appends one medication and exactly one untaken reminder at its time, tied to the medication's id and carrying its own stamp. Empty fields take the defaults "daily", "09:00", 30 and 5. |
| Medicine.Decrement | client/src/pages/Medicine.tsx:145-155 | One dose lowers only that medication's quantity, by one, with no lower bound. |
| Medicine.MarkTaken | client/src/pages/Medicine.tsx:157-162 | Every reminder of that medication is marked taken, and the others are unchanged. |
| Medicine.TakeMedication | client/src/pages/Medicine.tsx:144-165 | Taking a dose is `Decrement` on the medications and `MarkTaken` on the reminders. |
| Medicine.RefillWarnings | client/src/pages/Medicine.tsx:147-151 | Exactly the `filter` of the dosed list by "that id and at or below its threshold": every such medication, with its copies, in list order. |
| Medicine.DropMedication | client/src/pages/Medicine.tsx:168 | Exactly the `filter` of the medications by another id: every copy of each, in their order. |
| Medicine.DropReminders | client/src/pages/Medicine.tsx:169 | Exactly the `filter` of the reminders by another medication: every copy of each, in their order. |
| Medicine.DeleteMedication | client/src/pages/Medicine.tsx:167-171 | The medication and all its reminders go. Both lists are exactly their `filter`, so the rest stay, with their copies, in their order. |
| Medicine.AddKeepsConsistent | client/src/pages/Medicine.tsx:111-142 | Adding keeps every reminder tied to an existing medication. |
| Medicine.TakeKeepsConsistent | client/src/pages/Medicine.tsx:144-165 | Taking a dose keeps every reminder tied to an existing medication. |
| Medicine.DeleteKeepsConsistent | client/src/pages/Medicine.tsx:167-171 | Deleting keeps every reminder tied to an existing medication. |
| Medicine.DeleteAfterTake | client/src/pages/Medicine.tsx:144-171 | Deleting after a dose leaves what deleting alone leaves. |
| Medicine.DropDecrement | client/src/pages/Medicine.tsx:145-168 | Dropping a medication after a dose equals dropping it. |
| Medicine.DropMarkTaken | client/src/pages/Medicine.tsx:157-169 | Dropping reminders after marking them equals dropping them. |
| Medicine.FindById | client/src/pages/Medicine.tsx:93 | `find`: the first medication with that id, present exactly when one exists. |
| Medicine.Notifications | client/src/pages/Medicine.tsx:91-98 | At most one notification per reminder. |
| Medicine.CheckReminders | client/src/pages/Medicine.tsx:87-99 | The loop notifies exactly the due, untaken reminders whose medication exists, in reminder order. |
| Medicine.NotifiedNamesExist | client/src/pages/Medicine.tsx:93-95 | Every notified name belongs to a medication of the list. |
| Medicine.FindAfterDecrement | client/src/pages/Medicine.tsx:93-155 | A dose changes neither which medications are found nor their names. |
| Medicine.TakenIsSilenced | client/src/pages/Medicine.tsx:92-162 | After a dose, that medication's reminders are not notified again. The others are notified as before. |
| Symptoms.SaveSymptom | client/src/pages/Symptoms.tsx:93-118 | Nothing happens without a name. Otherwise it appends one record, with severity 1 and "occasional" as defaults, and resets the form. |
| Symptoms.DeleteSymptom | client/src/pages/Symptoms.tsx:120-124 | Every record with that id goes. The result is exactly the `filter` by another id, so the others stay, with their copies, in their order. |
| Symptoms.DeleteAbsent | client/src/pages/Symptoms.tsx:120-124 | Deleting an absent id changes nothing. |
| Symptoms.Since | client/src/pages/Symptoms.tsx:182-186 | Exactly the `filter` of the records dated at or after the start: every copy, in their order. |
| Symptoms.SinceNarrows | client/src/pages/Symptoms.tsx:182-186 | Filtering by a later start after an earlier one equals filtering by the later start. |
| Symptoms.Names | client/src/pages/Symptoms.tsx:191 | The names of the records, in order. |
| Symptoms.Severities | client/src/pages/Symptoms.tsx:204-207 | The severities of the records, in order. |
| Symptoms.MostFrequent | client/src/pages/Symptoms.tsx:200-202 | "None" for no records. Otherwise a logged name whose count is maximal. |
| Symptoms.MostFrequentIsMax | client/src/pages/Symptoms.tsx:195-202 | The first entry of the tally sorted by count has the maximal count. |
| Symptoms.DistinctSize | client/src/pages/Symptoms.tsx:191 | `new Set(names).size` is the number of distinct names. |
| Symptoms.DashboardMetrics | client/src/pages/Symptoms.tsx:188-212 | Over the recent records: the count, the number of distinct names, and a most frequent name ("None" when there are none). The name and severity tallies each add up to the count. |
| Symptoms.SummaryLine | client/src/pages/Symptoms.tsx:154 | "time" for a single record, "times" otherwise. |
| Symptoms.ReportRecords | client/src/pages/Symptoms.tsx:132-134 | The report's records are exactly those since the cutoff, newest first, with ties kept in logged order. |
| Symptoms.ReportSummary | client/src/pages/Symptoms.tsx:142-155 | The summary holds exactly the entries of the name tally, largest count first, and its counts add up to the number of records. |
| Symptoms.CountNames | client/src/pages/Symptoms.tsx:142-145 | The counting loop produces the tally in first-occurrence order. |
| Symptoms.GenerateReport | client/src/pages/Symptoms.tsx:126-170 | The built text is the header, the summary lines and one block per record. |
| Symptoms.SummaryText | client/src/pages/Symptoms.tsx:151-155 | The summary loop appends one line per entry, in order. |
| Symptoms.DetailText | client/src/pages/Symptoms.tsx:161-169 | The detail loop appends one block per record, in order. |
| Bookings.Load | client/src/pages/MyBookings.tsx:38-41 | The load-time sort is a permutation, newest first, and stable. |
| Bookings.Cancel | client/src/pages/MyBookings.tsx:84-89 | Bookings with that id become cancelled, and nothing else changes. |
| Bookings.CancelCancelled | client/src/pages/MyBookings.tsx:84-89 | Cancelling already cancelled bookings changes nothing. |
| Bookings.CancelIdempotent | client/src/pages/MyBookings.tsx:84-89 | Cancelling twice is cancelling once. |
| Bookings.CancelKeepsOrder | client/src/pages/MyBookings.tsx:38-89 | Cancelling keeps the newest-first order. |
| Bookings.Actions | client/src/pages/MyBookings.tsx:156-172 | Join and cancel are offered exactly while a booking is scheduled. |
| Bookings.CancelledOffersNothing | client/src/pages/MyBookings.tsx:84-172 | A cancelled booking offers no action. |
| Profile.CheckNumber | client/src/pages/Profile.tsx:226 | The left-to-right check accepts exactly the strings the pattern `^(\+91[\-\s]?)?[0]?(91)?[6789]\d{9}$` matches. |
| Profile.CheckSound | client/src/pages/Profile.tsx:226 | What the check accepts, the pattern matches. |
| Profile.CheckComplete | client/src/pages/Profile.tsx:226 | What the pattern matches, the check accepts. |
| Profile.Strip | client/src/pages/Profile.tsx:227 | No dash or whitespace is left. |
| Profile.ValidateIndianPhoneNumber | client/src/pages/Profile.tsx:225-228 | True exactly when the number, with dashes and whitespace removed, matches the pattern. |
| Profile.StrippedForms | client/src/pages/Profile.tsx:226 | A stripped number matches exactly when it is one of eight prefixes followed by a ten-digit mobile number starting 6 to 9. |
| Profile.FormOfMatch | client/src/pages/Profile.tsx:226 | Every match uses one of the eight prefixes. |
| Profile.MatchOfForm | client/src/pages/Profile.tsx:226 | Every one of the eight prefixes with a mobile number matches. |
| Profile.CheckContact | client/src/pages/Profile.tsx:45-49 | The contact is accepted exactly when the name and relationship have at least 2 characters, the phone has at least 10, and the phone is Indian. It is refused as not Indian exactly when only the phone check fails. |
| Profile.AddEmergencyContact | client/src/pages/Profile.tsx:231-259 | A refused contact changes nothing. An accepted one is appended and the form is reset. |
| Profile.RemoveAt | client/src/pages/Profile.tsx:262-264 | Removes the entry at an index in range, and otherwise changes nothing. |
| Profile.AddThenRemove | client/src/pages/Profile.tsx:231-264 | Removing the contact just added restores the list. |
| Profile.StatusSwitch.constructor | client/src/pages/Profile.tsx:185-187 | The switch starts from the given status, with nothing emitted. |
| Profile.StatusSwitch.Toggle | client/src/pages/Profile.tsx:185-221 | On a failed request the status is restored. Otherwise it is flipped, and the new status is emitted only for a 200 response with a socket and a user id. |
| PaymentForm.PlanName | client/src/components/payment/PaymentFormModern.tsx:93 | The plan's name is "one-time", "monthly" or "yearly". |
| PaymentForm.CalculateAmount | client/src/components/payment/PaymentFormModern.tsx:61-70 | The fee once, four times or forty times. |
| PaymentForm.DiscountPercentage | client/src/components/payment/PaymentFormModern.tsx:72-81 | Positive exactly for the yearly plan, and below 100. |
| PaymentForm.StruckPrice | client/src/components/payment/PaymentFormModern.tsx:233-236 | A struck-through price appears exactly when there is a discount, and it is twelve monthly plans. |
| PaymentForm.AdvertisedSaving | client/src/components/payment/PaymentFormModern.tsx:233-238 | The advertised 16% is the yearly saving over twelve monthly plans, rounded down. |
| PaymentForm.PaymentInit | client/src/components/payment/PaymentFormModern.tsx:83-130 | Only a patient can pay. The intent carries the computed amount, the plan, the doctor and the method. |
| PaymentHistory.SearchStage | client/src/components/payment/PaymentHistoryModern.tsx:100-115 | The search stage keeps the payments that pass the search, in order. |
| PaymentHistory.StatusStage | client/src/components/payment/PaymentHistoryModern.tsx:117-120 | The status stage keeps the payments with that status, or all for "all". |
| PaymentHistory.KindStage | client/src/components/payment/PaymentHistoryModern.tsx:122-125 | The kind stage keeps the payments of that kind, or all for "all". |
| PaymentHistory.DateStage | client/src/components/payment/PaymentHistoryModern.tsx:127-149 | The date stage keeps the payments created at or after the range's start. |
| PaymentHistory.Refilter | client/src/components/payment/PaymentHistoryModern.tsx:95-152 | With no payments loaded, the table is kept. Otherwise it is exactly the loaded payments passing every filter, in order. |
| PaymentHistory.PipelineKeepsShown | client/src/components/payment/PaymentHistoryModern.tsx:97-152 | The four successive stages equal one filter by the conjunction. |
| PaymentHistory.NoFiltersShowAll | client/src/components/payment/PaymentHistoryModern.tsx:97-152 | With no search and every filter "all", every payment is shown. |
| PaymentHistory.TransactionIdFindsPayment | client/src/components/payment/PaymentHistoryModern.tsx:100-115 | Searching for a payment's transaction id, in any letter case, always finds it. |
| PaymentHistory.TotalAmount | client/src/components/payment/PaymentHistoryModern.tsx:188-194 | The total is 0 when nothing shown is completed. `TotalOne` and `TotalSplits` pin it to the sum of the completed amounts. |
| PaymentHistory.TotalSplits | client/src/components/payment/PaymentHistoryModern.tsx:188-194 | The total of a concatenation is the sum of the totals. |
| PaymentHistory.TotalOne | client/src/components/payment/PaymentHistoryModern.tsx:188-194 | One payment adds its amount exactly when it is completed. |
| PaymentHistory.CompletedCount | client/src/components/payment/PaymentHistoryModern.tsx:258-260 | At most the number shown, and equal exactly when all are completed. `CompletedCountOne` and `CompletedCountSplits` pin it to the number of completed payments. |
| PaymentHistory.CompletedCountSplits | client/src/components/payment/PaymentHistoryModern.tsx:258-260 | The count of a concatenation is the sum of the counts. |
| PaymentHistory.CompletedCountOne | client/src/components/payment/PaymentHistoryModern.tsx:258-260 | One payment counts exactly when it is completed. |
| PaymentHistory.StatusVariant | client/src/components/payment/PaymentHistoryModern.tsx:155-168 | The badge is "default", "secondary" or "destructive" exactly for completed, pending or failed, and "outline" otherwise. |
| VoiceNavigation.IsValidRouteAsWritten | client/src/components/VoiceNavigation.tsx:130-133 | `path in AVAILABLE_ROUTES` holds for the eight keys and also for every name on `Object.prototype`. |
| VoiceNavigation.IsValidRoute | client/src/components/VoiceNavigation.tsx:77-133 | True exactly for the eight route paths. |
| VoiceNavigation.ConstructorCountsAsRoute | client/src/components/VoiceNavigation.tsx:130-133 | "constructor" passes the check as written but is no route. |
| VoiceNavigation.ValidityAgrees | client/src/components/VoiceNavigation.tsx:130-133 | Off the prototype names, the two checks agree. |
| VoiceNavigation.PathsDistinct | client/src/components/VoiceNavigation.tsx:77-127 | The route paths are distinct. |
| VoiceNavigation.AnyIncluded | client/src/components/VoiceNavigation.tsx:365-369 | True exactly when the text contains some alias. |
| VoiceNavigation.ExactRoute | client/src/components/VoiceNavigation.tsx:355-363 | The first route of the table, from a position on, with an alias equal to the text. |
| VoiceNavigation.PartialRoute | client/src/components/VoiceNavigation.tsx:365-369 | The first route of the table, from a position on, with an alias contained in the text. |
| VoiceNavigation.Target | client/src/components/VoiceNavigation.tsx:352-377 | Over any route table: empty input gives nothing; any path returned other than "BACK" is the path of one of the table's routes. |
| VoiceNavigation.DetermineTargetPath | client/src/components/VoiceNavigation.tsx:352-377 | Empty input gives nothing. Any path returned other than "BACK" is a valid route. |
| VoiceNavigation.ExactMatchWins | client/src/components/VoiceNavigation.tsx:355-363 | The first exact match, in route order, is returned. |
| VoiceNavigation.PartialMatchNext | client/src/components/VoiceNavigation.tsx:365-369 | With no exact match, the first route with a contained alias is returned. |
| VoiceNavigation.BackOnlyWithoutAlias | client/src/components/VoiceNavigation.tsx:371-376 | "BACK" is returned exactly when no alias is contained and the text contains "back". |
| VoiceNavigation.FormatValue | client/src/components/VoiceNavigation.tsx:380-393 | Steps are printed grouped; calories, distance and active minutes are printed with their unit; any other metric gives the bare value. |
| VoiceNavigation.FormatDataResponse | client/src/components/VoiceNavigation.tsx:379-401 | Gives the no-data text, the missing-metric text, or the sentence with the formatted value. |
| VoiceNavigation.NameOf | client/src/components/VoiceNavigation.tsx:405 | The name of the route with that path, present exactly when there is one. |
| VoiceNavigation.PageDescription | client/src/components/VoiceNavigation.tsx:403-408 | Under the corrected check: the route's name, or "the requested page" for a path that is not a route. |
| VoiceNavigation.PageDescriptionAsWritten | client/src/components/VoiceNavigation.tsx:403-408 | Under the check as written: a route's name, "Object" for "constructor", and "the requested page" when even that check fails. |
| VoiceNavigation.NextHistory | client/src/components/VoiceNavigation.tsx:567 | The last five earlier commands (all of them when there are fewer), in order, followed by this one. |
| VoiceNavigation.RecognitionMessage | client/src/components/VoiceNavigation.tsx:608-627 | Each of the six known codes gets its fixed message, with "bad-grammar" and "language-not-supported" sharing one. Every other code gets the generic one. |
| VoiceNavigation.MessagesTellCodesApart | client/src/components/VoiceNavigation.tsx:610-627 | Two known codes share a message only when both are the language codes. |
| VoiceNavigation.ErrorText | client/src/components/VoiceNavigation.tsx:579-582 | The error's message, or the default text when it is empty. |
| VoiceNavigation.Apology | client/src/components/VoiceNavigation.tsx:459-591 | An apology is due exactly when the reply did not parse or has confidence 0.3 or less, or the request threw. It is always shown as destructive. |
| VoiceNavigation.VoiceAssistant.constructor | client/src/components/VoiceNavigation.tsx:410-412 | The assistant starts idle, with empty history, moves and toasts. |
| VoiceNavigation.VoiceAssistant.ProcessCommand | client/src/components/VoiceNavigation.tsx:410-594 | Always ends not processing. Either the apology is shown with nothing else changed, or the reply is acted on. |
| VoiceNavigation.VoiceAssistant.Report | client/src/components/VoiceNavigation.tsx:468-475 | Sets the feedback and adds one toast, and nothing else. |
| VoiceNavigation.VoiceAssistant.Act | client/src/components/VoiceNavigation.tsx:478-567 | Under the corrected check, a route that does not exist is refused with the list of pages. Otherwise the reply's moves are made and the command joins the history. |
| VoiceNavigation.VoiceAssistant.Follow | client/src/components/VoiceNavigation.tsx:482-567 | The navigation move, toast and feedback, then the system moves and help, then the history updated by `NextHistory`. |
| VoiceNavigation.VoiceAssistant.Remember | client/src/components/VoiceNavigation.tsx:567 | The history becomes `NextHistory` of the old one, and nothing else changes. |
| VoiceNavigation.VoiceAssistant.SystemCommand | client/src/components/VoiceNavigation.tsx:549-562 | Help opens the help panel; back and home add their router move; nothing else changes. |
| VoiceNavigation.VoiceAssistant.Navigate | client/src/components/VoiceNavigation.tsx:497-508 | Moves to a route other than the current one, with a success toast. Otherwise it says the user is already there. |
| VoiceNavigation.VoiceAssistant.HandleRecognitionError | client/src/components/VoiceNavigation.tsx:597-635 | Always stops listening. An intentional stop clears the feedback. Any other error shows its message and one toast. |
| VoiceNavigation.MovesStayOnRoutes | client/src/components/VoiceNavigation.tsx:478-564 | Under the corrected check, every move a confident reply makes is a step back or a move to one of the eight routes. |
| VoiceNavigation.ConstructorNavigatesAsWritten | client/src/components/VoiceNavigation.tsx:482-500 | As written, a confident navigation to "constructor" is not refused, moves the router there and reads "Navigating to Object". The corrected check refuses it. |
| Reports.DropPairs | client/src/pages/Reposts.tsx:79 | Removing `**` introduces no new character. |
| Reports.PairsThenSingles | client/src/pages/Reposts.tsx:79-80 | Removing pairs and then single asterisks removes every asterisk. |
| Reports.Bullets | client/src/pages/Reposts.tsx:81 | Same length, and each character is unchanged or a dash turned into a bullet. |
| Reports.BulletAtLineStart | client/src/pages/Reposts.tsx:81 | A line-start "- " becomes "• ". |
| Reports.IndentedDashKept | client/src/pages/Reposts.tsx:81-83 | A dash after another first character on its line is kept, since trimming comes later. |
| Reports.TrimAll | client/src/pages/Reposts.tsx:83 | Each line is trimmed. |
| Reports.CleanMarkdown | client/src/pages/Reposts.tsx:77-86 | The result has no asterisk, and blank input gives "". |
| Reports.Lookup | client/src/pages/Reposts.tsx:89-101 | The table entry for a key, present exactly when the key is listed. |
| Reports.LanguagePrompt | client/src/pages/Reposts.tsx:88-102 | The listed name for a known code, "English" for any other. |
| Reports.Script | client/src/pages/Reposts.tsx:160-167 | A script is known exactly for hi, zh, ja, ko, ar and ru. |
| Reports.HasCharIn | client/src/pages/Reposts.tsx:162-167 | True exactly when some character lies in the range. |
| Reports.NeedsTranslation | client/src/pages/Reposts.tsx:159-167 | Never for English. For a known script, exactly when no character of it occurs. Always for any other language. |
| Translation.DefaultLanguage | client/src/hooks/use-translation.ts:31-33 | The first offered language, English. |
| Translation.T | client/src/hooks/use-translation.ts:214-222 | The current table's non-empty entry, otherwise the English entry, otherwise nothing. |
| Translation.NoTableIsEnglish | client/src/hooks/use-translation.ts:214-222 | A language without a table reads in English. |
| Translation.TableCodes | client/src/hooks/use-translation.ts:115-212 | The tables are exactly en, es and hi, holding the English, Spanish and Hindi strings. |
| Translation.UntranslatedLanguages | client/src/hooks/use-translation.ts:17-212 | Of the offered languages, exactly bn, ar, zh, ur, te, ta and mr have no table. |
| Translation.EnglishComplete | client/src/hooks/use-translation.ts:214-222 | When the English table has a non-empty entry for a key, every language gets a non-empty text for it. |
| Translation.Ids | client/src/hooks/use-translation.ts:35-112 | The ids of a symptom list, in order. |
| Translation.LocalizedSymptoms | client/src/hooks/use-translation.ts:224-230 | The Hindi list for Hindi, the English list otherwise. Either way it has the same ids. |
| Translation.SameSymptoms | client/src/hooks/use-translation.ts:35-112 | Both lists name the same symptoms in order. |
| AiChat.FormatDuration | client/src/pages/chat/index.tsx:209-213 | The timer text has exactly one colon. |
| AiChat.FormatDurationRoundTrip | client/src/pages/chat/index.tsx:209-213 | The minutes and two-digit seconds read back as the duration, with seconds under 60. |
| AiChat.Submit | client/src/pages/chat/index.tsx:216-275 | Blank input is ignored. Otherwise the message joins the conversation, and the request is the context followed by the message. |
| AiChat.Context | client/src/pages/chat/index.tsx:252-255 | The last five earlier messages (all of them when there are fewer), in order, with role and content only. |
| AiChat.Toggle | client/src/pages/chat/index.tsx:353-355 | A chosen id is removed with all its copies, leaving the others with their copies in order. A new id is appended. No other id changes membership. |
| AiChat.ToggleTwiceAbsent | client/src/pages/chat/index.tsx:353-355 | Choosing and unchoosing a new symptom restores the list. |
| AiChat.ToggleTwiceChosen | client/src/pages/chat/index.tsx:353-355 | Unchoosing and choosing again a chosen symptom removes it and puts it once at the end. |
| AiChat.ToggleTwiceSameDescription | client/src/pages/chat/index.tsx:353-364 | Toggling twice leaves the same description. |
| AiChat.Chosen | client/src/pages/chat/index.tsx:358-361 | The table's symptoms whose id is chosen, in table order. |
| AiChat.SameChoiceSameDescription | client/src/pages/chat/index.tsx:358-362 | The description depends only on which ids are chosen. |
| AiChat.SelectSymptom | client/src/pages/chat/index.tsx:351-367 | The choice is toggled and the report text is rewritten from it. |
| AiChat.AnalyzeReport | client/src/pages/chat/index.tsx:369-393 | Refused exactly when the text is blank and nothing is chosen. Otherwise one user message in the current language is appended: the request opening, the chosen symptoms' labels joined by ", ", a newline, then the text. The form is cleared. |
| AiChat.ValidateFile | client/src/pages/chat/index.tsx:601-618 | The type is checked first. Accepts exactly the four types up to 10 MiB, and rejects larger files as too large. |
| Ayushman.AnySpecialty | client/src/pages/Ayushman.tsx:242-244 | True exactly when some specialty contains the query, ignoring case. |
| Ayushman.FilteredHospitals | client/src/pages/Ayushman.tsx:240-245 | Keeps exactly the hospitals whose name or a specialty contains the query, ignoring case, each with all its copies, in their order. |
| Ayushman.EmptyQueryShowsAll | client/src/pages/Ayushman.tsx:240-245 | An empty query keeps every hospital. |
| Ayushman.Verify | client/src/pages/Ayushman.tsx:132-232 | Any empty field changes nothing. Otherwise the card is verified, and its details, the hospitals and the claims are loaded, with no loading flag left set. |
| Ayushman.ParseAmount | client/src/pages/Ayushman.tsx:249-250 | Dropping non-digits and parsing gives a number exactly when the text has a digit. |
| Ayushman.NonDigitIgnored | client/src/pages/Ayushman.tsx:249-250 | A character that is not a digit, wherever it stands, does not change the amount read. |
| Ayushman.ParseAmountOfNat | client/src/pages/Ayushman.tsx:249-250 | A number's own decimal text reads back as that number. |
| Ayushman.UsageOf | client/src/pages/Ayushman.tsx:247-252 | No figures without details, for a usage of 0. Otherwise the two parsed amounts. |
| Ayushman.IndianGroupingParsed | client/src/pages/Ayushman.tsx:249 | "₹1,25,000" reads as 125000. |

## Left out

- **Interleaving at `await` points.** Each awaited browser or network call is a parameter of the method that awaits it. The model does not interleave other events between the steps of `initiateCall`, `acceptCall` or `toggleOnlineStatus`.
- **Shared stream objects.** Streams and tracks are values here. When the hook and the session hold the same stream object, stopping or toggling a track through one is not seen through the other.
- **Media, SDP and ICE contents.** These are opaque values, and the logging-only ICE and signalling state listeners of the session are not modelled.
- **Lowercasing.** `toLowerCase` is modelled for ASCII letters only.
- **Floating point.** Not modelled:
  - the average severity (`toFixed`) of the symptom dashboard;
  - the value of the Ayushman usage percentage (only the parsed amounts are modelled);
  - the payment amounts, which are integers here;
  - the fitness values the voice assistant reads out, which are integers here (see `FormatValue` below);
  - the medication quantities and thresholds, which are integers here (see `AddMedication` below).
- **Dates and locale.** The date-range cutoffs of the payment history take a `Calendar` parameter. `toLocaleString` output is passed in as the `grouped` parameter of `VoiceNavigation.FormatValue`. Report dates are written by a `dateText` parameter.
- **Storage and UI.** Not modelled:
  - `localStorage` persistence;
  - toasts, beyond recording them, and dialogs;
  - React rendering and `<video>` element wiring;
  - speech recognition setup and the speech synthesis `speak`.
- **Other voice intents.** The query and action intents of `processCommand` are not modelled: the window events, the page reload, the fitness-data fetch and the error on missing parameters. The transient "Processing your command..." feedback is not modelled either; only the final `processing` flag is.
- **Prototype keys.** `StatusVariant`, `LanguagePrompt`, `T`, `LocalizedSymptoms`, `FormatDataResponse` (whose `data[metric]` finds an inherited "constructor") and the symptom tallies assume that a lookup of a key that is not listed finds nothing. Keys inherited from `Object.prototype` are modelled only for `isValidRoute` and `getPageDescription` (see Findings). The assistant itself uses the corrected check, as the next four lines say.
- PageDescription: models `getPageDescription` on the corrected check. As written, "constructor" gives "Object", and the other inherited names give the `name` of what they hold. `PageDescriptionAsWritten` states this.
- Act: dispatches on the corrected check. As written, a reply whose target is "constructor" is not refused: the router moves there, the feedback reads "Navigating to Object" and the history is updated. `ConstructorNavigatesAsWritten` states that it is not refused, the move and the feedback, but not the history update.
- Refused: uses the corrected check. `RefusedAsWritten` is the refusal as written.
- MovesStayOnRoutes: holds for the corrected check only. As written, "constructor" is acted on (`ConstructorNavigatesAsWritten`).
- AddMedication: takes the quantity and threshold as integers. `Number(...) || 30` keeps a fractional quantity such as 2.5, which this model cannot represent (floating point).
- CheckContact: counts lengths in Unicode characters. Zod's `min` counts UTF-16 code units, so a name made of one character outside the Basic Multilingual Plane, such as an emoji, passes the source's minimum of 2 and is refused here.
- CountNames: lists the name tally in order of first occurrence. `Object.entries` lists number-like names ("1", "42") first, in ascending order, and the other names after them in order of first occurrence. The counts are as stated.
- ReportSummary: inherits that order, so among names with equal counts a number-like name can come later here than in the source.
- GenerateReport: inherits that order, so its summary lines can differ in order from the source's when number-like names are logged.
- MostFrequent: breaks ties by first occurrence too, so for a log "b" then "1" it gives "b" where the source gives "1". The name it gives always has the largest count.
- FormatValue: takes an integer value. The source prints a fractional distance, such as "2.5 kilometers", which this model cannot represent (floating point).
- DashboardMetrics: lists the severity tally in order of first occurrence. `Object.entries` lists the integer keys of `severityDistribution` in ascending order. The counts and their total are as stated.
- **External services.** The system prompts sent to the language models, and the Groq, Gemini and REST calls, are left out. Only the decision taken on their reply is modelled.
- **Server I/O outside signalling.** The chat persistence handlers (`server/chat/chathandler.controller.js:87-176`) and the debug dumps (`:303-324`) are not part of this model.
- **Ayushman loading.** The intermediate loading flags around the simulated 1.5 s delay are left out. So is the error path, which the simulated lookup never takes.
- AiChat.FormatDuration: negative durations are not modelled, because the call timer only counts up from zero.
- Reports.CleanMarkdown: states that no asterisk survives and that blank input gives "". It does not restate that the result is the trimmed non-empty lines joined by blank lines. That structure is stated by the lemmas on its stages: `Reports.Bullets`, `Reports.TrimAll`, `Reports.BulletAtLineStart` and `Reports.IndentedDashKept`.
- Coordination.OnDisconnect: its own contract states only that the registry keeps its iteration order. What a disconnect does is stated by `Coordination.DisconnectEndsCall` and `Coordination.SupersededSocketCloses`.
- Coordination.ApplyKeepsPaired: pairing is proved only for rejections and hang-ups that concern the sender's own call. A stale one breaks it (`Coordination.StaleHangUpLeavesHalfCall`).

## Findings

| source | as written | input that shows it | evidently intended | confidence | as-written member | corrected member |
|---|---|---|---|---|---|---|
| client/src/components/VoiceNavigation.tsx:130-133 | `isValidRoute` tests `path in AVAILABLE_ROUTES`, which also holds for every property inherited from `Object.prototype` | a reply whose target path is "constructor" passes the check. `getPageDescription` then reads the `name` of `Object` instead of a route's name | only the eight route keys are valid | not executed | VoiceNavigation.IsValidRouteAsWritten, shown by VoiceNavigation.ConstructorCountsAsRoute and VoiceNavigation.ConstructorNavigatesAsWritten | VoiceNavigation.IsValidRoute |
