# WebRTC meeting room: client controller and agent sessions

This project models three parts of a WebRTC video-conferencing system built on the Kurento
media server.

- **The browser's room controller** (`RoomCtrl`, an AngularJS controller). It keeps the
  meeting's scope state:
  - the presentation flags and the greyed-out presentation buttons;
  - the recording and mute toggles, the names list and the phone line extension;
  - which video is enlarged;
  - a registry of participants, each with a `composite` and a `presentation` peer slot.

  It reacts to signaling messages from the server and to the user's clicks. It sends
  messages on the socket.
- **The agent's per-user session** (`UserSession`, Java). It decides which media endpoint
  answers a receive request, creates the presentation endpoint lazily and announces the
  presenter. It also routes ICE candidates, releases its endpoints and defines equality and
  hashing over `(name, roomName)`.
- **The agent's base participant** (`Participant`, Java). It manages its hub port's
  lifecycle and its name, and defines equality and hashing over `(id, roomName)`.

Modules:

- `Options` holds `Option`.
- `JavaHash` makes Java's 32-bit `int` arithmetic explicit. It proves `String.hashCode` equal
  to the documented polynomial reduced modulo 2^32, and from that the closed form of the
  two-field `hashCode`.
- `RoomSpec` holds the controller's values and the pure rules they obey: media types and
  peer directions, the `share` verdict, the record echo rule, the registry and its invariant,
  and messages. It also holds the lemmas about runs of events.
- `Room` is the class `RoomController`: one field per piece of scope state, and one method
  per handler.
- `Media` is the media server as the agent sees it. Elements are ids drawn from a counter.
  It keeps a set of released ids, a log of `connect` calls and a log of ICE candidates.
- `Sessions` is the class `UserSession` and the room's broadcast log.
- `Participants` is the class `Participant`.

Effects on the outside world become state:

- `socket.send` and `session.sendMessage` append to an outbox.
- Notifications append to a `notices` log.
- Disposing a peer or releasing an endpoint adds its handle to a released set.
- The result of a peer's asynchronous set-up (its error callback) is a boolean parameter.

## Model

| member | source | states |
|---|---|---|
| Room.RoomController.constructor | angular-webpage/js/controllers/room.js:26-41 | the initial scope: no presentation, nothing disabled, not recording, not muted, empty names, no line, camera selected, registry holding only the local user |
| Room.RoomController.DisabledAll | angular-webpage/js/controllers/room.js:37-42 | all three presentation buttons greyed out, nothing else changed |
| Room.RoomController.DisabledNone | angular-webpage/js/controllers/room.js:46-51 | no presentation button greyed out, nothing else changed |
| Room.RoomController.EnablePresentationClass | angular-webpage/js/controllers/room.js:667-670 | the presentation becomes active; flags and presenter unchanged |
| Room.RoomController.DisablePresentationClass | angular-webpage/js/controllers/room.js:672-677 | the presentation becomes inactive and every button is enabled again |
| Room.RoomController.StopPresenting | angular-webpage/js/controllers/room.js:187-199 | the local presentation peer, if any, is disposed (its handle released) and nulled; presenterIsMe false; camera selected; exactly one `stopPresenting` sent; registry invariant kept |
| Room.RoomController.Share | angular-webpage/js/controllers/room.js:202-257 | per verdict: someone else presenting, or nothing to attempt, changes nothing and sends nothing; Chrome without the extension notifies and sends no `newPresenter`, after stopping one's own presentation if one ran; success selects the type, sets presenterIsMe and appends one `newPresenter` with one's id and the type |
| Room.RoomController.StartPresenting | angular-webpage/js/controllers/room.js:214-256 | the attempted branch of `share`: a running own presentation is stopped first; then either the extension notice (presenterIsMe not set, no `newPresenter`) or type selected, presenterIsMe true and `newPresenter` sent |
| RoomSpec.ShareVerdictOf | angular-webpage/js/controllers/room.js:207-243 | refused exactly when another user presents; not attempted exactly when the type is unchanged off Chrome or presenting is impossible; granted only when presenting is possible and Chrome has its extension |
| RoomSpec.DropPresentation | angular-webpage/js/controllers/room.js:191-194 | same users; the local user's presentation slot is null; every other entry unchanged |
| Room.RoomController.CanPresent | angular-webpage/js/controllers/room.js:260-264 | true only for the running browser, and only when presenting is possible |
| Room.RoomController.CanPresentGatesShare | angular-webpage/js/controllers/room.js:207-264 | for any browsers: at most one presenting button is enabled; when the running browser's is disabled, `share` of any type is refused or not attempted; when a button is enabled, nobody else presents, the type changes and the browser is not Chrome, `share` is granted |
| Room.RoomController.Invite | angular-webpage/js/controllers/room.js:271-276 | exactly one `invite` with the callee appended |
| Room.RoomController.Leave | angular-webpage/js/controllers/room.js:286-290 | `leaveRoom` sent, camera selected, registry emptied, every handle it held released |
| RoomSpec.RegistryHandlesEmpty | angular-webpage/js/controllers/room.js:289 | clearing an empty registry releases nothing |
| RoomSpec.RegistryHandlesSplit | angular-webpage/js/controllers/room.js:289 | the handles `clear` releases are those of one participant together with those of everybody else, so removing a participant first and clearing afterwards releases the same set |
| Room.RoomController.ReceiveVideo | angular-webpage/js/controllers/room.js:419-446 | the sender is registered if unknown (a known name is kept); a screen sharer greys out every button; a fresh receive peer fills the sender's composite or presentation slot; its offer is sent unless set-up failed |
| Room.RoomController.OnNewParticipant | angular-webpage/js/controllers/room.js:549-562 | registry is the arrival step applied (an existing entry is kept); the name is appended to the list; one join notice |
| Room.RoomController.OnParticipantLeft | angular-webpage/js/controllers/room.js:601-623 | the user is removed and both of their peers released; the names list becomes the server's list; a leaving screen sharer leaves the presentation inactive with no button disabled |
| RoomSpec.KnownAfterRun | angular-webpage/js/controllers/room.js:549-623 | after any run of arrivals and departures a user is registered iff the last operation naming them was an arrival (or none names them and they were registered before) |
| RoomSpec.ArrivalKeepsName | angular-webpage/js/controllers/room.js:549-551 | arrivals never rename a registered user |
| Room.RoomController.PeerFor | angular-webpage/js/controllers/room.js:126-135 | the unguarded `participants.get(userId).rtcPeer[type]` of `iceCandidate` and `receiveVideoAnswer`: delivered iff the user, the slot type and a non-null slot exist, to that slot's handle; a missing user is its own fault |
| RoomSpec.ParseChannel | angular-webpage/js/controllers/room.js:431 | "composite" and "presentation" name the two slots, and nothing else names one |
| RoomSpec.ChannelName | angular-webpage/js/controllers/room.js:431 | the slot's name parses back to the slot |
| Room.RoomController.SetLineExtension | angular-webpage/js/controllers/room.js:634-639 | the extension is stored and the line marked available |
| Room.RoomController.SendStream | angular-webpage/js/controllers/room.js:449-520 | the full effect of `sendStream`: the new send peer in the local slot with at least one track; at most one receive peer for an announced remote presentation; the handle counter, the offers sent, the presentation flags, the line, the names list and the Firefox notice |
| Room.RoomController.ApplyStreamInfo | angular-webpage/js/controllers/room.js:465-478 | a non-empty line extension is published; a composite message sets the names list to the server's list plus one's own name; a presentation greys out the button of the selected type |
| RoomSpec.DisableFor | angular-webpage/js/controllers/room.js:477 | exactly the flag named by the type is raised; the others are kept |
| Room.RoomController.AttachSendPeer | angular-webpage/js/controllers/room.js:481-510 | the local slot holds a fresh send peer built from the constraints; the counter moves on; registry invariant kept |
| RoomSpec.SendDirection | angular-webpage/js/controllers/room.js:450-456 | a send peer always has a track; audio is forced and the track marked empty exactly when neither audio nor video was asked for |
| Room.RoomController.SendPeerReady | angular-webpage/js/controllers/room.js:482-510 | a failed set-up drops presenterIsMe and, on Firefox for a presentation, notifies; the offer is sent in every case |
| Room.RoomController.WatchRunningPresentation | angular-webpage/js/controllers/room.js:512-518 | an announced presentation becomes active; only a remote presenter is registered and received, with every button greyed out |
| Room.RoomController.OnPresenterReady | angular-webpage/js/controllers/room.js:527-533 | the presentation is active; only when the sender is not the local user is the sender registered if absent, every button disabled and a fresh receive peer put in the sender's presentation slot |
| Room.RoomController.CancelPresentation | angular-webpage/js/controllers/room.js:536-546 | the presentation is switched off; a remote presenter's presentation peer is disposed and stays in its slot; if a known remote user's slot is null the handler faults after the switch-off; otherwise the registry is unchanged |
| Room.RoomController.OnWindowMessage | angular-webpage/js/controllers/room.js:165-178 | off Chrome, or on any other event, no field changes; on Chrome a chosen stream id is stored and the full `sendStream` effect follows for a presentation with no stream info, nothing released; a cancelled dialog has the full `stopPresenting` effect (slot nulled, its peer released, flags, camera, `stopPresenting` sent) and leaves the handle counter, notices, line, names and constraints alone |
| Room.RoomController.RecordChange | angular-webpage/js/controllers/room.js:305-314 | the flag flips with its label; `record` is sent when it was off, `stopRecord` when it was on, each carrying the room, one's id and name |
| Room.RoomController.RecordUpdate | angular-webpage/js/controllers/room.js:315-319 | the flag flips with its label and nothing is sent |
| RoomSpec.Toggled | angular-webpage/js/controllers/room.js:311-312 | the flag is inverted and the text is "STOP_RECORD" iff recording |
| RoomSpec.RecordStep | angular-webpage/js/controllers/room.js:565-567 | a click always flips the flag; a server start or stop flips it iff it comes from another user |
| Room.RoomController.RecordJava | angular-webpage/js/controllers/room.js:565-580 | recording flips iff `userJava` is not the local user; the matching notice |
| Room.RoomController.StopRecordJava | angular-webpage/js/controllers/room.js:583-598 | recording flips iff `userJava` is not the local user; the matching notice |
| RoomSpec.RecordRunParity | angular-webpage/js/controllers/room.js:302-320 | after any run of clicks and server messages the flag is the initial one flipped once per counted event, and the label stays in step |
| RoomSpec.ClickThenEchoFlipsOnce | angular-webpage/js/controllers/room.js:565-567 | a click followed by the server's echo of it changes the flag exactly once |
| Room.RoomController.VolumeChange | angular-webpage/js/controllers/room.js:833-839 | muted flips; text and icon follow it |
| RoomSpec.VolumeToggled | angular-webpage/js/controllers/room.js:834-836 | muted inverted; "UNMUTE"/"mdi-volume-off" exactly when muted |
| Room.RoomController.SetBigs | angular-webpage/js/controllers/room.js:707-710 | both size flags set as given |
| Room.RoomController.ChangeCompositeSize | angular-webpage/js/controllers/room.js:764-773 | the composite size flag flips and the presentation is not left enlarged |
| RoomSpec.CompositeResized | angular-webpage/js/controllers/room.js:764-773 | composite toggled, presentation never enlarged |
| Room.RoomController.ChangePresentationSize | angular-webpage/js/controllers/room.js:775-784 | the presentation size flag flips and the composite is not left enlarged |
| RoomSpec.PresentationResized | angular-webpage/js/controllers/room.js:775-784 | presentation toggled, composite never enlarged |
| Room.RoomController.Dispatch | angular-webpage/js/controllers/room.js:66-157 | per message id (`Routed`), the handler's effect and outcome, and every other field the dispatcher may write left as it was: `compositeInfo` the full `sendStream` effect; `presentationInfo` the same on Firefox and no change elsewhere; `presenterReady`, `cancelPresentation`, `newParticipantArrived` and `participantLeft` their handlers' effects, including released handles, flags and names; `existingPresentation` the slot nulled and released, `stopPresenting` sent and one notice; `existingName` the warning, camera, registry emptied and released, `leaveRoom` sent; `lineAvailable` the extension stored and the line unavailable and nothing else; `callInformation` one notice and nothing else; recording messages the record step and one notice and nothing else; the unguarded lookups fault as `PeerFor` says and change nothing; an id outside the fourteen handled ones is ignored and changes nothing; invariant kept |
| Room.RoomController.RouteStream | angular-webpage/js/controllers/room.js:73-81 | `Routed` for `compositeInfo` and `presentationInfo` |
| Room.RoomController.RoutePresenter | angular-webpage/js/controllers/room.js:82-89 | `Routed` for `presenterReady` and `cancelPresentation` |
| Room.RoomController.RouteRoster | angular-webpage/js/controllers/room.js:90-97 | `Routed` for `newParticipantArrived` and `participantLeft` |
| Room.RoomController.RouteRefusal | angular-webpage/js/controllers/room.js:102-125 | `Routed` for `existingPresentation` and `existingName` |
| Room.RoomController.RouteNotice | angular-webpage/js/controllers/room.js:137-153 | `Routed` for `lineAvailable`, `callInformation`, `recordJava` and `stopRecordJava` |
| Room.RoomController.RouteSignal | angular-webpage/js/controllers/room.js:98-157 | `Routed` for `receiveVideoAnswer`, `iceCandidate` and unknown ids |
| Sessions.UserSession.constructor | kurento-agent/src/main/java/cz/cvut/fel/webrtc/resources/UserSession.java:64-106 | the outgoing endpoint and then the hub port are built, fresh; no presentation endpoint; not a screen sharer |
| Sessions.UserSession.Equals | kurento-agent/src/main/java/cz/cvut/fel/webrtc/resources/UserSession.java:431-443 | true iff the other is a session with the same name and room; equal sessions hash equally |
| Sessions.UserSession.HashCode | kurento-agent/src/main/java/cz/cvut/fel/webrtc/resources/UserSession.java:451-456 | a Java `int` equal to 31^2 + 31·hash(name) + hash(roomName) modulo 2^32 |
| Sessions.EqualsIsEquivalence | kurento-agent/src/main/java/cz/cvut/fel/webrtc/resources/UserSession.java:431-443 | `equals` is reflexive, symmetric and transitive |
| Sessions.UserSession.SetScreensharer | kurento-agent/src/main/java/cz/cvut/fel/webrtc/resources/UserSession.java:462-464 | the flag holds the value given |
| Sessions.UserSession.GetEndpointForUser | kurento-agent/src/main/java/cz/cvut/fel/webrtc/resources/UserSession.java:177-223 | the outgoing endpoint for "composite" or when no screen sharer is involved, with nothing built, linked or broadcast; otherwise the presentation endpoint, built only if absent (so it is the same one until cancelled); `presenterReady` broadcast only on that build and only for the screen sharer's own request; a viewer's endpoint fed from the sender's, which throws when the sender has none |
| Sessions.UserSession.ReceiveVideoFrom | kurento-agent/src/main/java/cz/cvut/fel/webrtc/resources/UserSession.java:148-170 | one `receiveVideoAnswer` naming the sender and type with the chosen endpoint's answer; nothing sent exactly when endpoint selection throws; the endpoint chosen and the presentation endpoint, builds, links and `presenterReady` broadcast exactly as for `getEndpointForUser` |
| Sessions.UserSession.CandidateTarget | kurento-agent/src/main/java/cz/cvut/fel/webrtc/resources/UserSession.java:419 | the outgoing endpoint for "composite", else the presentation endpoint; none exactly for a non-composite type with no presentation endpoint |
| Sessions.UserSession.AddCandidate | kurento-agent/src/main/java/cz/cvut/fel/webrtc/resources/UserSession.java:418-423 | the candidate reaches the target endpoint, or is dropped silently when there is none |
| Sessions.UserSession.CancelPresentation | kurento-agent/src/main/java/cz/cvut/fel/webrtc/resources/UserSession.java:316-343 | afterwards there is no presentation endpoint; one that existed is released; without one nothing changes |
| Sessions.UserSession.Close | kurento-agent/src/main/java/cz/cvut/fel/webrtc/resources/UserSession.java:346-409 | the hub port, the outgoing endpoint and any presentation endpoint are released, nothing else |
| Sessions.Room.Broadcast | kurento-agent/src/main/java/cz/cvut/fel/webrtc/resources/UserSession.java:211 | exactly the message appended to the room's broadcasts |
| Sessions.UserSession.SendMessage | kurento-agent/src/main/java/cz/cvut/fel/webrtc/resources/UserSession.java:411-416 | exactly the message appended to the outbox |
| Participants.Participant.constructor | kurento-agent/src/main/java/cz/cvut/fel/webrtc/resources/Participant.java:60-72 | the pass-through and then a fresh hub port are built, so the hub port is non-null; id and room fixed; no name yet |
| Participants.Participant.SetName | kurento-agent/src/main/java/cz/cvut/fel/webrtc/resources/Participant.java:77-83 | the name read back is the one last set |
| Participants.Participant.Equals | kurento-agent/src/main/java/cz/cvut/fel/webrtc/resources/Participant.java:114-126 | true iff the other is a participant with the same id and room; equal participants hash equally |
| Participants.Participant.HashCode | kurento-agent/src/main/java/cz/cvut/fel/webrtc/resources/Participant.java:134-139 | a Java `int` equal to 31^2 + 31·hash(id) + hash(roomName) modulo 2^32 |
| Participants.EqualsIsEquivalence | kurento-agent/src/main/java/cz/cvut/fel/webrtc/resources/Participant.java:114-126 | `equals` is reflexive, symmetric and transitive |
| Participants.Participant.NewHubPort | kurento-agent/src/main/java/cz/cvut/fel/webrtc/resources/Participant.java:144-147 | a port is built only when there is none; an existing port is kept and nothing is built |
| Participants.Participant.ReleaseHubPort | kurento-agent/src/main/java/cz/cvut/fel/webrtc/resources/Participant.java:149-152 | the current port is released and the field left null; with no port the call throws and nothing is released |
| Participants.Participant.RenewHubPort | kurento-agent/src/main/java/cz/cvut/fel/webrtc/resources/Participant.java:154-157 | the old port is released and the new one is fresh, non-null and different from it; with no port the release throws and no port is built |
| JavaHash.Wrap | kurento-agent/src/main/java/cz/cvut/fel/webrtc/resources/UserSession.java:452-454 | a Java `int` congruent to its argument modulo 2^32, and the identity on `int` values |
| JavaHash.StringHashIsPolynomial | kurento-agent/src/main/java/cz/cvut/fel/webrtc/resources/UserSession.java:453-454 | the wrapping `h = 31*h + c` loop of `String.hashCode` equals the exact polynomial reduced to an `int` |
| JavaHash.FieldPairHash | kurento-agent/src/main/java/cz/cvut/fel/webrtc/resources/UserSession.java:451-456 | the two-field `hashCode`, computed in wrapping steps, equals 31^2 + 31·hash(a) + hash(b) reduced to an `int` |
| Media.MediaServer.Build | kurento-agent/src/main/java/cz/cvut/fel/webrtc/resources/Participant.java:68 | a builder hands out the next id, never released before |
| Media.MediaServer.Release | kurento-agent/src/main/java/cz/cvut/fel/webrtc/resources/Participant.java:150 | the id is added to the released set |
| Media.MediaServer.Connect | kurento-agent/src/main/java/cz/cvut/fel/webrtc/resources/UserSession.java:216 | exactly the link appended |
| Media.MediaServer.AddIceCandidate | kurento-agent/src/main/java/cz/cvut/fel/webrtc/resources/UserSession.java:422 | exactly the candidate appended for that endpoint |

## Left out

- The DOM, jQuery and animation code of the controller is not modelled. This covers `setWidth`, `adaptCompositeContainer`, the sidebar, the dropdown, full-screen, the output resolution, the progress spinner and `updateScope`. It is user interface only. `enablePresentationClass` and `disablePresentationClass` keep only their scope updates.
- Notification texts (English and French) and their callbacks are reduced to `Notice` values; the dialogs' clean-up is not modelled.
- The `clickHandler` double-click timer is not modelled: it depends on `$timeout` asynchrony.
- `setResolution` and `renewConstraints` with its `watchOnly`/`microOnly`/`allTracks` buttons are not modelled: they drive the constraints factory.
- The constraints factory and `participants.js` are not part of this model. Constraints are plain fields, and the selected media type is a field of the controller. `constraints.get()` is taken to return a copy, so forcing audio on is not written back. The registry follows the behaviour its callers rely on: `add` inserts only an unknown id, `remove` drops the entry, `clear` disposes every peer and empties the registry, and `me()` is the local user's entry.
- A handler that dereferences `participants.me()` without a guard has that as a precondition (`MeKnown`), not as an error outcome.
- The WebRTC peer library's internals are not modelled: offer generation, `processAnswer`, `addIceCandidate` and track stopping. A peer is an opaque handle with its direction and a disposed flag. The offer is one `OfferToReceive` message. The outcome of the set-up is a boolean parameter, and its callback runs at once.
- `receiveVideoAnswer` and `iceCandidate` only locate their peer (`PeerFor`). The payload they hand over is not kept, and there is deliberately no candidate queue.
- Routing events are not modelled: the `$locationChangeStart` listener, which calls `leave` again when leaving navigates away, and the `$destroy` listener.
- `sendStream` overwrites a slot without disposing the peer that was in it, as the code does; the overwritten peer is not counted as released.
- The agent's media graph is not modelled: the image overlay filter, `HubPort.connect` in the session's constructor, URL escaping, the ICE listeners and `gatherCandidates`. These are calls into the Kurento client.
- The asynchronous `release` continuations, `synchronized (session)` and `IOException` handling are not modelled. They are concurrency and I/O.
- The agent's separate composite and presentation pipelines are one media server in the model; a session and the senders it receives from share it.
- Room is not part of this model; only its `broadcast` is represented, as a log.
- Sessions.UserSession.Equals and Participants.Participant.Equals: the `instanceof` test against other classes is implied by the parameter's type.
- Participants.Participant.HashCode and Sessions.UserSession.HashCode take a string's characters by code point. Java hashes UTF-16 units, which differ only outside the Basic Multilingual Plane. The null fields that would make Java throw are not modelled.
- `setSharingMedia`, the plain getters and `Participant.sendMessage` are not modelled. The getters are read as fields. The abstract `Participant.close` has no body to model.
- The Spring configuration, the upload speed tester and the registry test are outside this model.
