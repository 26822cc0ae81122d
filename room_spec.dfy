/** Values of the client room controller (angular-webpage/js/controllers/room.js): the scope
    objects it keeps, the peer slots of the participant registry, the signaling messages it
    receives and sends, and the pure rules its handlers follow. The controller itself, which
    updates these values in place, is the class `Room.RoomController`. */
module RoomSpec {
  import opened Options

  type UserId = string

  /** The two peer slots of a participant, `rtcPeer.composite` and `rtcPeer.presentation`. */
  datatype Channel = Composite | Presentation

  /** `rtcPeer[type]` is indexed by the strings "composite" and "presentation"; any other
      string finds nothing. */
  function ParseChannel(s: string): (c: Option<Channel>)
    ensures c == Some(Composite) <==> s == "composite"
    ensures c == Some(Presentation) <==> s == "presentation"
    ensures c == None <==> s != "composite" && s != "presentation"
  {
    if s == "composite" then Some(Composite)
    else if s == "presentation" then Some(Presentation)
    else None
  }

  function ChannelName(c: Channel): (s: string)
    ensures ParseChannel(s) == Some(c)
  {
    match c
    case Composite => "composite"
    case Presentation => "presentation"
  }

  /** The media type held by the constraints (`constraints.getType()`): the camera
      ("composite") or one of the three presentation sources. */
  datatype MediaType = CompositeMedia | General | Screen | Window

  /** `$scope.presentation.disabled`: which presentation buttons are greyed out. */
  datatype Disabled = Disabled(general: bool, screen: bool, window: bool)

  const AllDisabled := Disabled(true, true, true)
  const NoneDisabled := Disabled(false, false, false)

  /** `disabled[constraints.getType()] = true`: the flag named by the media type is raised.
      For "composite" the write goes to a property no one reads, so nothing visible changes. */
  function DisableFor(d: Disabled, t: MediaType): (r: Disabled)
    ensures r.general == (d.general || t == General)
    ensures r.screen == (d.screen || t == Screen)
    ensures r.window == (d.window || t == Window)
  {
    match t
    case CompositeMedia => d
    case General => d.(general := true)
    case Screen => d.(screen := true)
    case Window => d.(window := true)
  }

  /** `$scope.presentation`. */
  datatype PresentationState = PresentationState(active: bool, presenterIsMe: bool, disabled: Disabled)

  /** The constraints collaborator, reduced to the fields the controller reads or sets; the
      selected media type (`getType`/`setType`) is kept beside it by the controller. */
  datatype Constraints = Constraints(
    browser: string,
    browserIsChrome: bool,
    browserIsFirefox: bool,
    canPresent: bool,
    extensionInstalled: bool,
    audio: bool,
    video: bool,
    streamId: string,
    warning: bool)

  // ---------------------------------------------------------------------------------------
  // Peers and the participant registry

  /** What a peer was built for: a `WebRtcPeerSendonly` with the media it asked for (and
      whether its audio track is only a placeholder, stopped once the peer is up), or a
      `WebRtcPeerRecvonly`. */
  datatype Direction = SendOnly(audio: bool, video: bool, emptyTrack: bool) | RecvOnly

  /** An opaque peer handle and whether `dispose()` has been called on it. */
  datatype Peer = Peer(handle: nat, direction: Direction, disposed: bool)

  /** A registry entry: display name and the two slots. */
  datatype Member = Member(name: string, composite: Option<Peer>, presentation: Option<Peer>)

  function Slot(m: Member, c: Channel): Option<Peer> {
    match c
    case Composite => m.composite
    case Presentation => m.presentation
  }

  function WithSlot(m: Member, c: Channel, s: Option<Peer>): (r: Member)
    ensures Slot(r, c) == s && r.name == m.name
    ensures forall d :: d != c ==> Slot(r, d) == Slot(m, d)
  {
    match c
    case Composite => m.(composite := s)
    case Presentation => m.(presentation := s)
  }

  /** `participants.add(userId, name)` as guarded by its callers: a new entry with empty
      slots when the id is unknown; an existing entry is left as it is. */
  function Register(ps: map<UserId, Member>, u: UserId, name: string): (r: map<UserId, Member>)
  {
    if u in ps then ps else ps[u := Member(name, None, None)]
  }

  /** `participant.rtcPeer[c] = peer`: the slot is overwritten; whatever peer it held is
      left as it was (not disposed). */
  function Install(ps: map<UserId, Member>, u: UserId, c: Channel, p: Peer): (r: map<UserId, Member>)
    requires u in ps
  {
    ps[u := WithSlot(ps[u], c, Some(p))]
  }

  /** The handle a slot holds, if any. */
  function SlotHandles(s: Option<Peer>): set<nat> {
    if s.Some? then {s.value.handle} else {}
  }

  /** The handles of both slots of a member: what `participant.dispose()` disposes. */
  function MemberHandles(m: Member): set<nat> {
    SlotHandles(m.composite) + SlotHandles(m.presentation)
  }

  /** Every handle held anywhere in the registry: what `participants.clear()` disposes. */
  function RegistryHandles(ps: map<UserId, Member>): set<nat> {
    set u, h | u in ps && h in MemberHandles(ps[u]) :: h
  }

  /** An empty registry holds no handle. */
  lemma RegistryHandlesEmpty()
    ensures RegistryHandles(map[]) == {}
  {
  }

  /** The handles of a registry are those of one entry together with those of the rest:
      clearing the registry disposes exactly what removing its participants one at a time
      (as `participantLeft` does) would dispose. */
  lemma RegistryHandlesSplit(ps: map<UserId, Member>, u: UserId)
    requires u in ps
    ensures RegistryHandles(ps) == RegistryHandles(ps - {u}) + MemberHandles(ps[u])
  {
    var rest := ps - {u};
    forall h | h in RegistryHandles(ps) ensures h in RegistryHandles(rest) + MemberHandles(ps[u]) {
      var v :| v in ps && h in MemberHandles(ps[v]);
      if v != u {
        assert v in rest && rest[v] == ps[v];
      }
    }
    forall h | h in RegistryHandles(rest) ensures h in RegistryHandles(ps) {
      var v :| v in rest && h in MemberHandles(rest[v]);
      assert v in ps && ps[v] == rest[v];
    }
  }

  /** The slot invariant kept by the controller: handles come from the counter below `bound`,
      a disposed peer's handle is among the released ones, and every send peer asks for at
      least one track. */
  predicate SlotOk(s: Option<Peer>, bound: nat, released: set<nat>) {
    s.Some? ==>
      && s.value.handle < bound
      && (s.value.disposed ==> s.value.handle in released)
      && (s.value.direction.SendOnly? ==> s.value.direction.audio || s.value.direction.video)
  }

  predicate MemberOk(m: Member, bound: nat, released: set<nat>) {
    SlotOk(m.composite, bound, released) && SlotOk(m.presentation, bound, released)
  }

  predicate RegistryOk(ps: map<UserId, Member>, bound: nat, released: set<nat>) {
    forall u :: u in ps ==> MemberOk(ps[u], bound, released)
  }

  /** Raising the bound or releasing more handles keeps the registry well formed. */
  lemma RegistryOkGrows(ps: map<UserId, Member>, bound: nat, released: set<nat>, bound': nat, released': set<nat>)
    requires RegistryOk(ps, bound, released) && bound <= bound' && released <= released'
    ensures RegistryOk(ps, bound', released')
  {
    forall u | u in ps ensures MemberOk(ps[u], bound', released') {
      assert MemberOk(ps[u], bound, released);
    }
  }

  /** Storing a well-formed entry keeps the registry well formed. */
  lemma RegistryOkPut(ps: map<UserId, Member>, u: UserId, m: Member, bound: nat, released: set<nat>)
    requires RegistryOk(ps, bound, released) && MemberOk(m, bound, released)
    ensures RegistryOk(ps[u := m], bound, released)
  {
  }

  /** Installing a fresh peer from the counter keeps the registry well formed once the
      counter moves past it. */
  lemma RegistryOkInstall(ps: map<UserId, Member>, u: UserId, c: Channel, p: Peer, bound: nat, released: set<nat>)
    requires RegistryOk(ps, bound, released) && u in ps
    requires p.handle == bound && !p.disposed
    requires p.direction.SendOnly? ==> p.direction.audio || p.direction.video
    ensures RegistryOk(Install(ps, u, c, p), bound + 1, released)
  {
    RegistryOkGrows(ps, bound, released, bound + 1, released);
    assert MemberOk(ps[u], bound + 1, released);
    RegistryOkPut(ps, u, WithSlot(ps[u], c, Some(p)), bound + 1, released);
  }

  /** Nulling the local presentation slot keeps the registry well formed, also once more
      handles are released. */
  lemma RegistryOkDrop(ps: map<UserId, Member>, me: UserId, bound: nat, released: set<nat>, released': set<nat>)
    requires RegistryOk(ps, bound, released) && released <= released'
    ensures RegistryOk(DropPresentation(ps, me), bound, released')
  {
    RegistryOkGrows(ps, bound, released, bound, released');
    if me in ps {
      assert MemberOk(ps[me], bound, released');
      RegistryOkPut(ps, me, ps[me].(presentation := None), bound, released');
    }
  }

  /** Registering, and removing an entry, keep the registry well formed. */
  lemma RegistryOkRegister(ps: map<UserId, Member>, u: UserId, name: string, bound: nat, released: set<nat>)
    requires RegistryOk(ps, bound, released)
    ensures RegistryOk(Register(ps, u, name), bound, released)
  {
    if u !in ps {
      RegistryOkPut(ps, u, Member(name, None, None), bound, released);
    }
  }

  lemma RegistryOkRemove(ps: map<UserId, Member>, u: UserId, bound: nat, released: set<nat>, released': set<nat>)
    requires RegistryOk(ps, bound, released) && released <= released'
    ensures RegistryOk(ps - {u}, bound, released')
  {
    RegistryOkGrows(ps, bound, released, bound, released');
  }

  /** Disposing a slot's peer once its handle is released keeps the registry well formed. */
  lemma RegistryOkDispose(ps: map<UserId, Member>, u: UserId, bound: nat, released: set<nat>)
    requires RegistryOk(ps, bound, released) && u in ps && ps[u].presentation.Some?
    ensures var p := ps[u].presentation.value;
      RegistryOk(ps[u := ps[u].(presentation := Some(p.(disposed := true)))], bound, released + {p.handle})
  {
    var p := ps[u].presentation.value;
    RegistryOkGrows(ps, bound, released, bound, released + {p.handle});
    assert MemberOk(ps[u], bound, released + {p.handle});
    RegistryOkPut(ps, u, ps[u].(presentation := Some(p.(disposed := true))), bound, released + {p.handle});
  }

  /** Every handle of a well-formed registry lies below the bound. */
  lemma RegistryHandlesBelow(ps: map<UserId, Member>, bound: nat, released: set<nat>)
    requires RegistryOk(ps, bound, released)
    ensures forall h :: h in RegistryHandles(ps) ==> h < bound
  {
    forall h | h in RegistryHandles(ps) ensures h < bound {
      var u :| u in ps && h in MemberHandles(ps[u]);
      assert MemberOk(ps[u], bound, released);
    }
  }

  // ---------------------------------------------------------------------------------------
  // Sending

  /** The media a send peer is built with (`sendStream`, room.js lines 450-456): when the
      constraints ask for neither audio nor video, audio is forced on and the track is marked
      empty, so the peer always carries at least one track. */
  function SendDirection(audio: bool, video: bool): (d: Direction)
    ensures d.SendOnly? && (d.audio || d.video)
    ensures d.emptyTrack <==> !audio && !video
    ensures d.video == video
    ensures audio || video ==> d.audio == audio
  {
    if !audio && !video then SendOnly(true, false, true) else SendOnly(audio, video, false)
  }

  // ---------------------------------------------------------------------------------------
  // Presentation

  /** How `share(type)` ends: refused because someone else presents; not attempted (the same
      type off Chrome, or presenting impossible); stopped for want of the Chrome extension; or
      granted. */
  datatype ShareVerdict = Refused | NotAttempted | NeedsExtension | Granted

  function ShareVerdictOf(p: PresentationState, c: Constraints, current: MediaType, t: MediaType): (v: ShareVerdict)
    ensures v == Refused <==> p.active && !p.presenterIsMe
    ensures v == Granted ==>
      && !(p.active && !p.presenterIsMe)
      && c.canPresent
      && (t != current || c.browserIsChrome)
      && (c.browserIsChrome ==> c.extensionInstalled)
    ensures v == NeedsExtension ==> c.browserIsChrome && !c.extensionInstalled && c.canPresent
    ensures v == NotAttempted <==>
      !(p.active && !p.presenterIsMe) && !((t != current || c.browserIsChrome) && c.canPresent)
  {
    if p.active && !p.presenterIsMe then Refused
    else if !((t != current || c.browserIsChrome) && c.canPresent) then NotAttempted
    else if c.browserIsChrome && !c.extensionInstalled then NeedsExtension
    else Granted
  }

  /** The registry after `stopPresenting` on the local entry: its presentation slot nulled. */
  function DropPresentation(ps: map<UserId, Member>, me: UserId): (r: map<UserId, Member>)
    ensures r.Keys == ps.Keys
    ensures me in ps ==> r[me] == ps[me].(presentation := None)
    ensures forall v :: v in ps && v != me ==> r[v] == ps[v]
  {
    if me in ps then ps[me := ps[me].(presentation := None)] else ps
  }

  // ---------------------------------------------------------------------------------------
  // Recording

  /** `$scope.record`. */
  datatype RecordState = RecordState(recording: bool, text: string)

  predicate RecordConsistent(r: RecordState) {
    r.text == (if r.recording then "STOP_RECORD" else "RECORD")
  }

  /** `record.change` and `record.update`: both flip the flag and relabel the button. */
  function Toggled(r: RecordState): (t: RecordState)
    ensures t.recording == !r.recording
    ensures RecordConsistent(t)
  {
    RecordState(!r.recording, if !r.recording then "STOP_RECORD" else "RECORD")
  }

  /** What reaches the recording state: the user's own click, or a server echo of a start or
      stop carrying the id of the user who caused it. */
  datatype RecordEvent = LocalChange | RemoteStart(userJava: UserId) | RemoteStop(userJava: UserId)

  /** Whether an event flips the local flag: a click always does; a remote message only when
      it comes from someone else (the echo of one's own click is suppressed). */
  predicate Flips(e: RecordEvent, me: UserId) {
    e.LocalChange? || e.userJava != me
  }

  function RecordStep(r: RecordState, e: RecordEvent, me: UserId): (r': RecordState)
    ensures Flips(e, me) ==> r' == Toggled(r)
    ensures !Flips(e, me) ==> r' == r
  {
    match e
    case LocalChange => Toggled(r)
    case RemoteStart(u) => if u != me then Toggled(r) else r
    case RemoteStop(u) => if u != me then Toggled(r) else r
  }

  function RecordRun(r: RecordState, es: seq<RecordEvent>, me: UserId): RecordState
    decreases |es|
  {
    if es == [] then r else RecordRun(RecordStep(r, es[0], me), es[1..], me)
  }

  function FlipCount(es: seq<RecordEvent>, me: UserId): nat
    decreases |es|
  {
    if es == [] then 0 else (if Flips(es[0], me) then 1 else 0) + FlipCount(es[1..], me)
  }

  /** Over any run of events the flag is the initial one flipped once per click and once per
      message from another user, and the button text stays in step with it. */
  lemma {:induction false} RecordRunParity(r: RecordState, es: seq<RecordEvent>, me: UserId)
    requires RecordConsistent(r)
    ensures RecordConsistent(RecordRun(r, es, me))
    ensures RecordRun(r, es, me).recording == (r.recording != (FlipCount(es, me) % 2 == 1))
    decreases |es|
  {
    if es != [] {
      var r1 := RecordStep(r, es[0], me);
      RecordRunParity(r1, es[1..], me);
    }
  }

  /** A click followed by the server's echo of it changes the flag exactly once. */
  lemma ClickThenEchoFlipsOnce(r: RecordState, me: UserId)
    requires RecordConsistent(r)
    ensures RecordRun(r, [LocalChange, RemoteStart(me)], me) == Toggled(r)
    ensures RecordRun(r, [LocalChange, RemoteStop(me)], me) == Toggled(r)
  {
    var t := Toggled(r);
    assert [LocalChange, RemoteStart(me)][1..] == [RemoteStart(me)];
    assert [RemoteStart(me)][1..] == [];
    assert RecordRun(t, [RemoteStart(me)], me) == RecordRun(t, [], me);
    assert [LocalChange, RemoteStop(me)][1..] == [RemoteStop(me)];
    assert [RemoteStop(me)][1..] == [];
    assert RecordRun(t, [RemoteStop(me)], me) == RecordRun(t, [], me);
  }

  // ---------------------------------------------------------------------------------------
  // Registry runs

  /** The registry mutations driven by `newParticipantArrived` and `participantLeft`. */
  datatype RegistryOp = Arrive(userId: UserId, name: string) | Depart(userId: UserId)

  function ApplyOp(ps: map<UserId, Member>, op: RegistryOp): map<UserId, Member> {
    match op
    case Arrive(u, n) => Register(ps, u, n)
    case Depart(u) => ps - {u}
  }

  function ApplyOps(ps: map<UserId, Member>, ops: seq<RegistryOp>): map<UserId, Member>
    decreases |ops|
  {
    if ops == [] then ps else ApplyOp(ApplyOps(ps, ops[..|ops| - 1]), ops[|ops| - 1])
  }

  /** The last operation of a run that names `u`. */
  function LastMention(ops: seq<RegistryOp>, u: UserId): Option<RegistryOp>
    decreases |ops|
  {
    if ops == [] then None
    else if ops[|ops| - 1].userId == u then Some(ops[|ops| - 1])
    else LastMention(ops[..|ops| - 1], u)
  }

  /** After any run of arrivals and departures a user is known exactly when the last
      operation naming them was an arrival, or, if none names them, when they were known
      at the start. */
  lemma {:induction false} KnownAfterRun(ps: map<UserId, Member>, ops: seq<RegistryOp>, u: UserId)
    ensures u in ApplyOps(ps, ops) <==>
      match LastMention(ops, u)
      case None => u in ps
      case Some(op) => op.Arrive?
    decreases |ops|
  {
    if ops != [] {
      KnownAfterRun(ps, ops[..|ops| - 1], u);
    }
  }

  /** An arrival never renames a user who is already known: the name recorded at the first
      arrival survives later arrivals until a departure. */
  lemma {:induction false} ArrivalKeepsName(ps: map<UserId, Member>, ops: seq<RegistryOp>, u: UserId)
    requires u in ps
    requires forall i :: 0 <= i < |ops| ==> ops[i].userId == u ==> ops[i].Arrive?
    ensures u in ApplyOps(ps, ops) && ApplyOps(ps, ops)[u].name == ps[u].name
    decreases |ops|
  {
    if ops != [] {
      ArrivalKeepsName(ps, ops[..|ops| - 1], u);
    }
  }

  // ---------------------------------------------------------------------------------------
  // The remaining scope objects

  /** `$scope.volume`. */
  datatype Volume = Volume(muted: bool, text: string, icon: string)

  predicate VolumeConsistent(v: Volume) {
    && v.text == (if v.muted then "UNMUTE" else "MUTE")
    && v.icon == (if v.muted then "mdi-volume-off" else "mdi-volume-high")
  }

  /** `volume.change`: flips `muted` and relabels the button. */
  function VolumeToggled(v: Volume): (w: Volume)
    ensures w.muted == !v.muted
    ensures VolumeConsistent(w)
  {
    var m := !v.muted;
    Volume(m, if m then "UNMUTE" else "MUTE", if m then "mdi-volume-off" else "mdi-volume-high")
  }

  /** `sizeBig`: which of the two videos is enlarged. */
  datatype SizeBig = SizeBig(composite: bool, presentation: bool)

  /** `changeCompositeSize`: toggles the composite video's size; the presentation is never
      left enlarged. */
  function CompositeResized(s: SizeBig): (r: SizeBig)
    ensures r.composite == !s.composite
    ensures !r.presentation
  {
    if !s.composite then SizeBig(true, false) else SizeBig(false, false)
  }

  /** `changePresentationSize`: toggles the presentation's size; the composite video is never
      left enlarged. */
  function PresentationResized(s: SizeBig): (r: SizeBig)
    ensures r.presentation == !s.presentation
    ensures !r.composite
  {
    if !s.presentation then SizeBig(false, true) else SizeBig(false, false)
  }

  // ---------------------------------------------------------------------------------------
  // Signaling messages

  /** The payload of `compositeInfo`/`presentationInfo`. */
  datatype StreamInfo = StreamInfo(
    data: seq<string>,
    lineExtension: string,
    existingScreensharer: bool,
    presenterId: UserId,
    screensharer: string)

  /** Inbound messages, one constructor per `parsedMessage.id` the dispatcher knows. */
  datatype Message =
    | CompositeInfo(info: StreamInfo)
    | PresentationInfo(info: StreamInfo)
    | PresenterReady(userId: UserId, presenter: string)
    | CancelPresentation(userId: UserId)
    | NewParticipantArrived(userId: UserId, name: string)
    | ParticipantLeft(userId: UserId, name: string, isScreensharer: bool, data: seq<string>)
    | ReceiveVideoAnswer(userId: UserId, typeName: string, sdpAnswer: string)
    | ExistingPresentation
    | ExistingName
    | IceCandidate(userId: UserId, typeName: string, candidate: string)
    | LineAvailable(extension: string)
    | CallInformation(text: string)
    | RecordJava(userJava: UserId, roomJava: string, nameJava: string)
    | StopRecordJava(userJava: UserId, roomJava: string, nameJava: string)
    | Unrecognized(id: string)

  /** Messages posted to the page by the Chrome screen-sharing extension. */
  datatype WindowEvent = DialogSuccess(streamId: string) | DialogCancel | OtherEvent

  /** Outbound messages: what `socket.send` is given. `OfferToReceive` stands for the SDP
      offer a new peer hands to `participant.offerToReceive[type]`. */
  datatype OutMsg =
    | NewPresenter(userId: UserId, room: string, mediaSource: MediaType)
    | StopPresenting
    | Invite(callee: string)
    | LeaveRoom
    | Record(roomName: string, userId: UserId, userName: string)
    | StopRecord(roomName: string, userId: UserId, userName: string)
    | OfferToReceive(userId: UserId, channel: Channel)

  /** Notifications shown to the user (and the extension's picker request). */
  datatype Notice =
    | PresentationRunning
    | ExtensionNeeded
    | ScreenPickerRequested
    | FirefoxNeedsConfig
    | Joined(name: string)
    | Left(name: string)
    | RecordStartedBy(room: string, name: string, userId: UserId)
    | RecordStartedByMe
    | RecordStoppedBy(room: string, name: string, userId: UserId)
    | RecordStoppedByMe
    | CallInfo(text: string)

  /** Why a handler threw: the dereferenced participant, slot type or slot was missing. */
  datatype Fault =
    | NoSuchParticipant(userId: UserId)
    | NoSuchChannel(typeName: string)
    | EmptySlot(userId: UserId, channel: Channel)

  /** How a message was handled: fully, ignored as unknown, routed to a peer (ICE candidate,
      SDP answer), or cut short by a fault. */
  datatype Outcome = Handled | Ignored(id: string) | Delivered(handle: nat) | Failed(fault: Fault)

  /** A composite stream message announcing that a presentation is already running. */
  predicate AnnouncesPresentation(info: Option<StreamInfo>, ch: Channel) {
    info.Some? && info.value.existingScreensharer && ch == Composite
  }

  /** ... by someone other than `me`, whose presentation is then received. */
  predicate Watches(info: Option<StreamInfo>, ch: Channel, me: UserId) {
    AnnouncesPresentation(info, ch) && info.value.presenterId != me
  }

  /** The registry after a composite message is watched: when it announces someone else's
      presentation, the presenter is registered (a known entry is kept) and a receive peer
      with handle `h` fills the presenter's presentation slot; otherwise it is `ps`. */
  function Watched(ps: map<UserId, Member>, info: Option<StreamInfo>, ch: Channel, me: UserId, h: nat): map<UserId, Member> {
    if Watches(info, ch, me)
    then Install(Register(ps, info.value.presenterId, info.value.screensharer),
                 info.value.presenterId, Presentation, Peer(h, RecvOnly, false))
    else ps
  }

  /** The ids the dispatcher routes to a handler; any other id reaches its `default` branch. */
  predicate KnownMessageId(id: string) {
    id in {"compositeInfo", "presentationInfo", "presenterReady", "cancelPresentation",
           "newParticipantArrived", "participantLeft", "receiveVideoAnswer", "existingPresentation",
           "existingName", "iceCandidate", "lineAvailable", "callInformation", "recordJava",
           "stopRecordJava"}
  }

  /** The messages that carry the stream information of a channel. */
  predicate IsStreamMessage(m: Message) {
    m.CompositeInfo? || m.PresentationInfo?
  }

  /** The messages that start or end someone else's presentation. */
  predicate IsPresenterMessage(m: Message) {
    m.PresenterReady? || m.CancelPresentation?
  }

  /** The messages about arrivals and departures. */
  predicate IsRosterMessage(m: Message) {
    m.NewParticipantArrived? || m.ParticipantLeft?
  }

  /** The messages in which the server refuses: a presentation is already running, or
      the name is taken. */
  predicate IsRefusal(m: Message) {
    m.ExistingPresentation? || m.ExistingName?
  }

  /** The messages about the line, the call information and the recording state. */
  predicate IsNoticeMessage(m: Message) {
    m.LineAvailable? || m.CallInformation? || m.RecordJava? || m.StopRecordJava?
  }

  /** Messages whose handler dereferences `participants.me()` without a guard. */
  predicate NeedsMe(m: Message, isFirefox: bool) {
    || m.CompositeInfo?
    || (m.PresentationInfo? && isFirefox)
    || m.PresenterReady?
    || m.CancelPresentation?
    || m.RecordJava?
    || m.StopRecordJava?
  }
}
