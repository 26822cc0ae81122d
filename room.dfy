/** The client room controller `RoomCtrl` (angular-webpage/js/controllers/room.js) as an
    object whose fields are the controller's scope state. Signaling messages arrive through
    `Dispatch`; `socket.send` appends to `outbox`; notifications append to `notices`;
    `dispose()` on a peer adds its handle to `released`; a new `WebRtcPeer` takes the next
    handle from `nextHandle`. The outcome of a peer's asynchronous set-up (its error
    callback) is passed in as a boolean. */
module Room {
  import opened Options
  import opened RoomSpec

  class RoomController {
    const roomName: string
    const myId: UserId

    var presentation: PresentationState
    var record: RecordState
    var volume: Volume
    var participantNames: seq<string>
    var lineExtension: string
    var lineAvailable: bool
    var sizeBig: SizeBig
    var participants: map<UserId, Member>
    var constraints: Constraints
    var mediaType: MediaType
    var outbox: seq<OutMsg>
    var notices: seq<Notice>
    var released: set<nat>
    var nextHandle: nat

    /** The controller's invariant: button labels follow their flags, and the registry's
        peers are well formed (see `RegistryOk`). */
    ghost predicate Valid()
      reads this`record, this`volume, this`released, this`nextHandle, this`participants
    {
      && RecordConsistent(record)
      && VolumeConsistent(volume)
      && (forall h :: h in released ==> h < nextHandle)
      && RegistryOk(participants, nextHandle, released)
    }

    /** Whether `participants.me()` resolves. */
    predicate MeKnown()
      reads this`participants
    {
      myId in participants
    }

    /** Room entry, with the registry seeded with the local user. */
    constructor (roomName: string, myId: UserId, myName: string, constraints: Constraints)
      ensures Valid()
      ensures this.roomName == roomName && this.myId == myId && this.constraints == constraints
      ensures mediaType == CompositeMedia
      ensures participants == map[myId := Member(myName, None, None)]
      ensures presentation == PresentationState(false, false, NoneDisabled)
      ensures record == RecordState(false, "RECORD")
      ensures volume == Volume(false, "MUTE", "mdi-volume-high")
      ensures participantNames == [] && lineExtension == "" && !lineAvailable
      ensures sizeBig == SizeBig(false, false)
      ensures outbox == [] && notices == [] && released == {} && nextHandle == 0
    {
      this.roomName := roomName;
      this.myId := myId;
      this.constraints := constraints;
      mediaType := CompositeMedia;
      participants := map[myId := Member(myName, None, None)];
      presentation := PresentationState(false, false, NoneDisabled);
      record := RecordState(false, "RECORD");
      volume := Volume(false, "MUTE", "mdi-volume-high");
      participantNames := [];
      lineExtension := "";
      lineAvailable := false;
      sizeBig := SizeBig(false, false);
      outbox := [];
      notices := [];
      released := {};
      nextHandle := 0;
    }

    // -------------------------------------------------------------------------------------
    // Presentation flags

    /** `presentation.disabled.all()`. */
    method DisabledAll()
      modifies this`presentation
      ensures presentation == old(presentation).(disabled := AllDisabled)
    {
      presentation := presentation.(disabled := AllDisabled);
    }

    /** `presentation.disabled.none()`. */
    method DisabledNone()
      modifies this`presentation
      ensures presentation == old(presentation).(disabled := NoneDisabled)
    {
      presentation := presentation.(disabled := NoneDisabled);
    }

    /** `enablePresentationClass`, its scope update only. */
    method EnablePresentationClass()
      modifies this`presentation
      ensures presentation == old(presentation).(active := true)
    {
      presentation := presentation.(active := true);
    }

    /** `disablePresentationClass`, its scope update only. */
    method DisablePresentationClass()
      modifies this`presentation
      ensures presentation == old(presentation).(active := false, disabled := NoneDisabled)
    {
      presentation := presentation.(active := false);
      DisabledNone();
    }

    // -------------------------------------------------------------------------------------
    // Presenting

    /** `$scope.stopPresenting`: dispose and null the local presentation peer, if any; no
        longer the presenter; back to the camera; tell the server. */
    method StopPresenting()
      requires Valid()
      modifies this`participants, this`released, this`presentation, this`mediaType, this`outbox
      ensures Valid()
      ensures participants == DropPresentation(old(participants), myId)
      ensures released == old(released) +
        (if myId in old(participants) then SlotHandles(old(participants)[myId].presentation) else {})
      ensures presentation == old(presentation).(presenterIsMe := false)
      ensures mediaType == CompositeMedia
      ensures outbox == old(outbox) + [OutMsg.StopPresenting]
    {
      if myId in participants && participants[myId].presentation.Some? {
        var p := participants[myId].presentation.value;
        assert MemberOk(participants[myId], nextHandle, released);
        RegistryOkDrop(participants, myId, nextHandle, released, released + {p.handle});
        released := released + {p.handle};
        participants := participants[myId := participants[myId].(presentation := None)];
      }
      presentation := presentation.(presenterIsMe := false);
      mediaType := CompositeMedia;
      outbox := outbox + [OutMsg.StopPresenting];
    }

    /** `$scope.share(type)`. Someone else presenting: nothing happens. Otherwise, when the
        type changes (or on Chrome) and presenting is possible, a running presentation of
        one's own is stopped first; then, unless Chrome lacks the extension, the type is
        selected, the user becomes presenter and `newPresenter` is sent. */
    method Share(t: MediaType)
      requires Valid()
      requires ShareVerdictOf(presentation, constraints, mediaType, t) == Granted ==> MeKnown()
      modifies this`participants, this`released, this`presentation, this`mediaType, this`outbox, this`notices
      ensures Valid()
      ensures var stop := old(mediaType) != CompositeMedia;
        match ShareVerdictOf(old(presentation), old(constraints), old(mediaType), t)
        case Refused | NotAttempted =>
          && participants == old(participants) && released == old(released)
          && presentation == old(presentation) && mediaType == old(mediaType)
          && outbox == old(outbox) && notices == old(notices)
        case NeedsExtension =>
          && participants == (if stop then DropPresentation(old(participants), myId) else old(participants))
          && released == old(released) +
              (if stop && myId in old(participants) then SlotHandles(old(participants)[myId].presentation) else {})
          && presentation == old(presentation).(presenterIsMe := old(presentation).presenterIsMe && !stop)
          && mediaType == CompositeMedia
          && outbox == old(outbox) + (if stop then [OutMsg.StopPresenting] else [])
          && notices == old(notices) + [ExtensionNeeded]
        case Granted =>
          && participants == (if stop then DropPresentation(old(participants), myId) else old(participants))
          && released == old(released) +
              (if stop && myId in old(participants) then SlotHandles(old(participants)[myId].presentation) else {})
          && presentation == old(presentation).(presenterIsMe := true)
          && mediaType == t
          && outbox == old(outbox) + (if stop then [OutMsg.StopPresenting] else []) + [NewPresenter(myId, roomName, t)]
          && notices == old(notices) + (if old(constraints).browserIsChrome then [ScreenPickerRequested] else [])
    {
      if presentation.active && !presentation.presenterIsMe {
        return;
      }
      if (t != mediaType || constraints.browserIsChrome) && constraints.canPresent {
        StartPresenting(t);
      }
    }

    /** The body of `share(type)` once presenting is possible: stop one's own running
        presentation, then either ask for the Chrome extension or select the type, become
        presenter and send `newPresenter`. */
    method StartPresenting(t: MediaType)
      requires Valid()
      requires !(constraints.browserIsChrome && !constraints.extensionInstalled) ==> MeKnown()
      modifies this`participants, this`released, this`presentation, this`mediaType, this`outbox, this`notices
      ensures Valid()
      ensures var stop := old(mediaType) != CompositeMedia;
        && participants == (if stop then DropPresentation(old(participants), myId) else old(participants))
        && released == old(released) +
            (if stop && myId in old(participants) then SlotHandles(old(participants)[myId].presentation) else {})
      ensures var stop := old(mediaType) != CompositeMedia;
        if constraints.browserIsChrome && !constraints.extensionInstalled then
          && presentation == old(presentation).(presenterIsMe := old(presentation).presenterIsMe && !stop)
          && mediaType == CompositeMedia
          && outbox == old(outbox) + (if stop then [OutMsg.StopPresenting] else [])
          && notices == old(notices) + [ExtensionNeeded]
        else
          && presentation == old(presentation).(presenterIsMe := true)
          && mediaType == t
          && outbox == old(outbox) + (if stop then [OutMsg.StopPresenting] else []) + [NewPresenter(myId, roomName, t)]
          && notices == old(notices) + (if constraints.browserIsChrome then [ScreenPickerRequested] else [])
    {
      var currentType := mediaType;
      var success := true;
      if currentType != CompositeMedia {
        StopPresenting();
      }
      if constraints.browserIsChrome {
        if !constraints.extensionInstalled {
          notices := notices + [ExtensionNeeded];
          success := false;
        } else {
          notices := notices + [ScreenPickerRequested];
        }
      }
      if success {
        mediaType := t;
        presentation := presentation.(presenterIsMe := true);
        outbox := outbox + [NewPresenter(myId, roomName, t)];
      }
    }

    /** `$scope.canPresent(browser)`: whether the page offers presenting from `browser`. It
        holds only for the running browser, and only when presenting is possible at all. */
    function CanPresent(browser: string): (r: bool)
      reads this`constraints
      ensures r ==> browser == constraints.browser && constraints.canPresent
    {
      constraints.canPresent && browser == constraints.browser
    }

    /** The page has one presenting button per browser, each enabled by `canPresent`. At
        most one of them is enabled at a time, the running browser's; when that one is
        disabled, `share` of any type ends without presenting or asking for the extension;
        when any one is enabled, a change of type off Chrome, with nobody else presenting,
        is granted. */
    lemma CanPresentGatesShare(b: string, b': string, t: MediaType)
      ensures CanPresent(b) && CanPresent(b') ==> b == b'
      ensures !CanPresent(b) && b == constraints.browser ==>
        ShareVerdictOf(presentation, constraints, mediaType, t) in {Refused, NotAttempted}
      ensures (&& CanPresent(b)
               && !(presentation.active && !presentation.presenterIsMe)
               && t != mediaType && !constraints.browserIsChrome) ==>
        ShareVerdictOf(presentation, constraints, mediaType, t) == Granted
    {
    }

    /** `$scope.invite(number)`. */
    method Invite(number: string)
      modifies this`outbox
      ensures outbox == old(outbox) + [OutMsg.Invite(number)]
    {
      outbox := outbox + [OutMsg.Invite(number)];
    }

    // -------------------------------------------------------------------------------------
    // Registry

    /** `leave()`: tell the server, back to the camera, and clear the registry, disposing
        every peer it holds. */
    method Leave()
      requires Valid()
      modifies this`outbox, this`mediaType, this`participants, this`released
      ensures Valid()
      ensures outbox == old(outbox) + [LeaveRoom]
      ensures mediaType == CompositeMedia
      ensures participants == map[]
      ensures released == old(released) + RegistryHandles(old(participants))
    {
      outbox := outbox + [LeaveRoom];
      mediaType := CompositeMedia;
      RegistryHandlesBelow(participants, nextHandle, released);
      released := released + RegistryHandles(participants);
      participants := map[];
    }

    /** `receiveVideo(userId, sender, isScreensharer)`: register the sender if unknown, grey
        out the presentation buttons for a screen sharer, and put a fresh receive peer in
        the sender's composite or presentation slot; its offer goes out unless its set-up
        failed. */
    method ReceiveVideo(userId: UserId, sender: string, isScreensharer: bool, failed: bool)
      requires Valid()
      modifies this`participants, this`presentation, this`nextHandle, this`outbox
      ensures Valid()
      ensures var ch := if isScreensharer then Presentation else Composite;
        && participants == Install(Register(old(participants), userId, sender), userId, ch, Peer(old(nextHandle), RecvOnly, false))
        && outbox == old(outbox) + (if failed then [] else [OfferToReceive(userId, ch)])
      ensures nextHandle == old(nextHandle) + 1
      ensures presentation == if isScreensharer then old(presentation).(disabled := AllDisabled) else old(presentation)
    {
      if userId !in participants {
        participants := participants[userId := Member(sender, None, None)];
      }
      if isScreensharer {
        DisabledAll();
      }
      var ch := if isScreensharer then Presentation else Composite;
      participants := participants[userId := WithSlot(participants[userId], ch, Some(Peer(nextHandle, RecvOnly, false)))];
      nextHandle := nextHandle + 1;
      if !failed {
        outbox := outbox + [OfferToReceive(userId, ch)];
      }
    }

    /** `onNewParticipant`: register the newcomer and list their name. */
    method OnNewParticipant(userId: UserId, name: string)
      requires Valid()
      modifies this`participants, this`participantNames, this`notices
      ensures Valid()
      ensures participants == ApplyOp(old(participants), Arrive(userId, name))
      ensures participantNames == old(participantNames) + [name]
      ensures notices == old(notices) + [Joined(name)]
    {
      participants := Register(participants, userId, name);
      participantNames := participantNames + [name];
      notices := notices + [Joined(name)];
    }

    /** `onParticipantLeft`: for a leaving screen sharer the presentation is switched off;
        the participant's peers are disposed and the entry removed; the name list is
        replaced by the server's. */
    method OnParticipantLeft(userId: UserId, name: string, isScreensharer: bool, data: seq<string>)
      requires Valid()
      modifies this`presentation, this`participants, this`released, this`notices, this`participantNames
      ensures Valid()
      ensures participants == ApplyOp(old(participants), Depart(userId))
      ensures released == old(released) + (if userId in old(participants) then MemberHandles(old(participants)[userId]) else {})
      ensures presentation == if isScreensharer then old(presentation).(active := false, disabled := NoneDisabled) else old(presentation)
      ensures participantNames == data
      ensures notices == old(notices) + [Left(name)]
    {
      if isScreensharer {
        DisablePresentationClass();
      }
      if userId in participants {
        released := released + MemberHandles(participants[userId]);
      }
      participants := participants - {userId};
      notices := notices + [Left(name)];
      participantNames := data;
    }

    /** The peer `participants.get(userId).rtcPeer[type]` designates, which `iceCandidate`
        and `receiveVideoAnswer` hand their payload to. Each missing link of the chain (no
        such participant, no such slot type, a null slot) is a fault. A disposed peer that
        is still in its slot is found. */
    function PeerFor(userId: UserId, typeName: string): (o: Outcome)
      reads this
      ensures o.Delivered? || o.Failed?
      ensures o.Delivered? <==>
        userId in participants && ParseChannel(typeName).Some? &&
        Slot(participants[userId], ParseChannel(typeName).value).Some?
      ensures o.Delivered? ==> o.handle == Slot(participants[userId], ParseChannel(typeName).value).value.handle
      ensures o == Failed(NoSuchParticipant(userId)) <==> userId !in participants
    {
      if userId !in participants then Failed(NoSuchParticipant(userId))
      else match ParseChannel(typeName)
        case None => Failed(NoSuchChannel(typeName))
        case Some(c) =>
          match Slot(participants[userId], c)
          case None => Failed(EmptySlot(userId, c))
          case Some(p) => Delivered(p.handle)
    }

    // -------------------------------------------------------------------------------------
    // Sending

    /** `setLineExtension(extension)`. */
    method SetLineExtension(extension: string)
      modifies this`lineExtension, this`lineAvailable
      ensures lineExtension == extension && lineAvailable
    {
      lineExtension := extension;
      lineAvailable := true;
    }

    /** The whole effect of `sendStream(message, type)` between two states: a fresh send
        peer in the local entry's slot (and, for an announced remote presentation, a fresh
        receive peer in the presenter's), the handle counter moved past them, their offers,
        the presentation flags, the line extension, the names list and the Firefox notice.
        Every other field is left to the frame of the caller. */
    twostate predicate StreamSent(info: Option<StreamInfo>, ch: Channel, sendFailed: bool, receiveFailed: bool)
      reads this`participants, this`presentation, this`nextHandle, this`outbox, this`notices,
        this`lineExtension, this`lineAvailable, this`participantNames, this`constraints, this`mediaType
    {
      && myId in old(participants)
      && (var own := Install(old(participants), myId, ch,
                Peer(old(nextHandle), SendDirection(constraints.audio, constraints.video), false));
        participants == Watched(own, info, ch, myId, old(nextHandle) + 1))
      && nextHandle == old(nextHandle) + (if Watches(info, ch, myId) then 2 else 1)
      && outbox == old(outbox) + [OfferToReceive(myId, ch)]
        + (if Watches(info, ch, myId) && !receiveFailed then [OfferToReceive(info.value.presenterId, Presentation)] else [])
      && (var p1 := if ch == Presentation
                 then old(presentation).(disabled := DisableFor(old(presentation).disabled, mediaType))
                 else old(presentation);
        var p2 := if sendFailed then p1.(presenterIsMe := false) else p1;
        presentation == (if AnnouncesPresentation(info, ch)
          then p2.(active := true, disabled := if Watches(info, ch, myId) then AllDisabled else p2.disabled)
          else p2))
      && (if info.Some? && info.value.lineExtension != ""
        then lineExtension == info.value.lineExtension && lineAvailable
        else lineExtension == old(lineExtension) && lineAvailable == old(lineAvailable))
      && participantNames == (if ch == Composite && info.Some?
        then info.value.data + [old(participants)[myId].name] else old(participantNames))
      && notices == old(notices) +
        (if sendFailed && constraints.browserIsFirefox && ch == Presentation then [FirefoxNeedsConfig] else [])
    }

    /** `sendStream(message, type)`; `info == None` is the empty message `{}`. A fresh send
        peer replaces the local entry's slot (the old one is not disposed), built with at
        least one track; its offer goes out even when its set-up failed, which only drops
        `presenterIsMe`. A composite message names the participants and may announce a
        running presentation, which is then received. */
    method SendStream(info: Option<StreamInfo>, ch: Channel, sendFailed: bool, receiveFailed: bool)
      requires Valid() && MeKnown()
      modifies this`participants, this`presentation, this`nextHandle, this`outbox, this`notices,
        this`lineExtension, this`lineAvailable, this`participantNames
      ensures Valid()
      ensures StreamSent(info, ch, sendFailed, receiveFailed)
    {
      ApplyStreamInfo(info, ch);
      AttachSendPeer(ch, sendFailed);
      WatchRunningPresentation(info, ch, receiveFailed);
    }

    /** The end of `sendStream`: a composite message announcing a running presentation
        switches the presentation on and, unless the presenter is oneself, has it
        received. */
    method WatchRunningPresentation(info: Option<StreamInfo>, ch: Channel, failed: bool)
      requires Valid() && MeKnown()
      modifies this`participants, this`presentation, this`nextHandle, this`outbox
      ensures Valid()
      ensures participants == Watched(old(participants), info, ch, myId, old(nextHandle))
      ensures nextHandle == old(nextHandle) + (if Watches(info, ch, myId) then 1 else 0)
      ensures outbox == old(outbox) +
        (if Watches(info, ch, myId) && !failed then [OfferToReceive(info.value.presenterId, Presentation)] else [])
      ensures presentation == if AnnouncesPresentation(info, ch)
        then old(presentation).(active := true,
               disabled := if Watches(info, ch, myId) then AllDisabled else old(presentation).disabled)
        else old(presentation)
    {
      if info.Some? && info.value.existingScreensharer && ch == Composite {
        EnablePresentationClass();
        if info.value.presenterId != myId {
          ReceiveVideo(info.value.presenterId, info.value.screensharer, true, failed);
        }
      }
    }

    /** The first half of `sendStream`: the message's line extension is published; a
        composite message replaces the name list by the server's plus one's own name; a
        presentation greys out the button of the type being presented. */
    method ApplyStreamInfo(info: Option<StreamInfo>, ch: Channel)
      requires MeKnown()
      modifies this`presentation, this`lineExtension, this`lineAvailable, this`participantNames
      ensures presentation == if ch == Presentation
        then old(presentation).(disabled := DisableFor(old(presentation).disabled, mediaType))
        else old(presentation)
      ensures if info.Some? && info.value.lineExtension != ""
        then lineExtension == info.value.lineExtension && lineAvailable
        else lineExtension == old(lineExtension) && lineAvailable == old(lineAvailable)
      ensures participantNames == if ch == Composite && info.Some?
        then info.value.data + [participants[myId].name] else old(participantNames)
    {
      var me := participants[myId];
      if info.Some? && info.value.lineExtension != "" {
        SetLineExtension(info.value.lineExtension);
      }
      if ch == Composite {
        if info.Some? {
          participantNames := info.value.data + [me.name];
        }
      } else {
        presentation := presentation.(disabled := DisableFor(presentation.disabled, mediaType));
      }
    }

    /** The send peer of `sendStream`: built from the constraints (with audio forced on
        when they ask for nothing) into the local entry's slot, then its completion
        callback. */
    method AttachSendPeer(ch: Channel, failed: bool)
      requires Valid() && MeKnown()
      modifies this`participants, this`nextHandle, this`presentation, this`notices, this`outbox
      ensures Valid()
      ensures participants == Install(old(participants), myId, ch,
        Peer(old(nextHandle), SendDirection(constraints.audio, constraints.video), false))
      ensures nextHandle == old(nextHandle) + 1
      ensures presentation == if failed then old(presentation).(presenterIsMe := false) else old(presentation)
      ensures notices == old(notices) +
        (if failed && constraints.browserIsFirefox && ch == Presentation then [FirefoxNeedsConfig] else [])
      ensures outbox == old(outbox) + [OfferToReceive(myId, ch)]
    {
      var direction := SendDirection(constraints.audio, constraints.video);
      RegistryOkInstall(participants, myId, ch, Peer(nextHandle, direction, false), nextHandle, released);
      participants := Install(participants, myId, ch, Peer(nextHandle, direction, false));
      nextHandle := nextHandle + 1;
      SendPeerReady(ch, failed);
    }

    /** The completion callback of the send peer built by `sendStream`: an error drops
        `presenterIsMe` (and, for a presentation on Firefox, asks for configuration); the
        offer goes out in either case. */
    method SendPeerReady(ch: Channel, failed: bool)
      modifies this`presentation, this`notices, this`outbox
      ensures presentation == if failed then old(presentation).(presenterIsMe := false) else old(presentation)
      ensures notices == old(notices) +
        (if failed && constraints.browserIsFirefox && ch == Presentation then [FirefoxNeedsConfig] else [])
      ensures outbox == old(outbox) + [OfferToReceive(myId, ch)]
    {
      if failed {
        presentation := presentation.(presenterIsMe := false);
        if constraints.browserIsFirefox && ch != Composite {
          notices := notices + [FirefoxNeedsConfig];
        }
      }
      outbox := outbox + [OfferToReceive(myId, ch)];
    }

    /** `onPresenterReady`: a presentation is running; unless the presenter is oneself, its
        stream is received into the presenter's presentation slot. */
    method OnPresenterReady(userId: UserId, presenter: string, failed: bool)
      requires Valid() && MeKnown()
      modifies this`participants, this`presentation, this`nextHandle, this`outbox
      ensures Valid()
      ensures presentation.active
      ensures userId == myId ==>
        && participants == old(participants) && nextHandle == old(nextHandle) && outbox == old(outbox)
        && presentation == old(presentation).(active := true)
      ensures userId != myId ==>
        && participants == Install(Register(old(participants), userId, presenter), userId, Presentation,
                                   Peer(old(nextHandle), RecvOnly, false))
        && nextHandle == old(nextHandle) + 1
        && outbox == old(outbox) + (if failed then [] else [OfferToReceive(userId, Presentation)])
        && presentation == old(presentation).(active := true, disabled := AllDisabled)
    {
      EnablePresentationClass();
      if userId != myId {
        ReceiveVideo(userId, presenter, true, failed);
      }
    }

    /** `cancelPresentation`: the presentation is switched off; a remote presenter's
        presentation peer is disposed but stays in its slot. A known remote user with a
        null presentation slot makes the handler throw after the switch-off. */
    method CancelPresentation(userId: UserId) returns (o: Outcome)
      requires Valid() && MeKnown()
      modifies this`presentation, this`participants, this`released
      ensures Valid()
      ensures presentation == old(presentation).(active := false, disabled := NoneDisabled)
      ensures var hit := userId != myId && userId in old(participants);
        && (o == if hit && old(participants)[userId].presentation.None? then Failed(EmptySlot(userId, Presentation)) else Handled)
        && (if hit && old(participants)[userId].presentation.Some?
            then var p := old(participants)[userId].presentation.value;
              && participants == old(participants)[userId := old(participants)[userId].(presentation := Some(p.(disposed := true)))]
              && released == old(released) + {p.handle}
            else participants == old(participants) && released == old(released))
    {
      DisablePresentationClass();
      o := Handled;
      if userId != myId && userId in participants {
        var m := participants[userId];
        if m.presentation.None? {
          o := Failed(EmptySlot(userId, Presentation));
          return;
        }
        var p := m.presentation.value;
        released := released + {p.handle};
        participants := participants[userId := m.(presentation := Some(p.(disposed := true)))];
      }
    }

    /** The Chrome extension's messages to the page (listened to on Chrome only): a chosen
        stream is recorded and sent as the presentation; a cancelled dialog stops
        presenting. */
    method OnWindowMessage(ev: WindowEvent, sendFailed: bool)
      requires Valid()
      requires constraints.browserIsChrome && ev.DialogSuccess? ==> MeKnown()
      modifies this`participants, this`presentation, this`nextHandle, this`outbox, this`notices,
        this`lineExtension, this`lineAvailable, this`participantNames, this`constraints, this`mediaType, this`released
      ensures Valid()
      ensures !old(constraints).browserIsChrome || ev.OtherEvent? ==>
        unchanged(this`participants, this`presentation, this`nextHandle, this`outbox, this`notices,
          this`lineExtension, this`lineAvailable, this`participantNames, this`constraints, this`mediaType,
          this`released)
      ensures old(constraints).browserIsChrome && ev.DialogSuccess? ==>
        && constraints == old(constraints).(streamId := ev.streamId)
        && StreamSent(None, Presentation, sendFailed, false)
        && unchanged(this`released, this`mediaType)
      ensures old(constraints).browserIsChrome && ev.DialogCancel? ==>
        && participants == DropPresentation(old(participants), myId)
        && released == old(released) +
             (if myId in old(participants) then SlotHandles(old(participants)[myId].presentation) else {})
        && presentation == old(presentation).(presenterIsMe := false)
        && mediaType == CompositeMedia
        && outbox == old(outbox) + [OutMsg.StopPresenting]
        && unchanged(this`nextHandle, this`notices, this`lineExtension, this`lineAvailable,
             this`participantNames, this`constraints)
    {
      if constraints.browserIsChrome {
        match ev
        case DialogSuccess(streamId) =>
          constraints := constraints.(streamId := streamId);
          SendStream(None, Presentation, sendFailed, false);
        case DialogCancel =>
          StopPresenting();
        case OtherEvent =>
      }
    }

    // -------------------------------------------------------------------------------------
    // Recording

    /** `record.change`: ask the server to start recording when off, to stop when on; then
        flip the flag. */
    method RecordChange()
      requires Valid() && MeKnown()
      modifies this`record, this`outbox
      ensures Valid()
      ensures record == RecordStep(old(record), LocalChange, myId)
      ensures outbox == old(outbox) + [
        if old(record).recording then StopRecord(roomName, myId, participants[myId].name)
        else Record(roomName, myId, participants[myId].name)]
    {
      if !record.recording {
        outbox := outbox + [Record(roomName, myId, participants[myId].name)];
      } else {
        outbox := outbox + [StopRecord(roomName, myId, participants[myId].name)];
      }
      record := Toggled(record);
    }

    /** `record.update`: flip the flag without telling anyone. */
    method RecordUpdate()
      requires Valid()
      modifies this`record
      ensures Valid()
      ensures record == Toggled(old(record))
    {
      record := Toggled(record);
    }

    /** `recordJava`: a recording started by someone else flips the local flag; the echo of
        one's own start does not. */
    method RecordJava(userJava: UserId, roomJava: string, nameJava: string)
      requires Valid() && MeKnown()
      modifies this`record, this`notices
      ensures Valid()
      ensures record == RecordStep(old(record), RemoteStart(userJava), myId)
      ensures notices == old(notices) + [if userJava != myId then RecordStartedBy(roomJava, nameJava, userJava) else RecordStartedByMe]
    {
      if userJava != myId {
        RecordUpdate();
        notices := notices + [RecordStartedBy(roomJava, nameJava, userJava)];
      } else {
        notices := notices + [RecordStartedByMe];
      }
    }

    /** `stopRecordJava`: as `recordJava`, for a stop. */
    method StopRecordJava(userJava: UserId, roomJava: string, nameJava: string)
      requires Valid() && MeKnown()
      modifies this`record, this`notices
      ensures Valid()
      ensures record == RecordStep(old(record), RemoteStop(userJava), myId)
      ensures notices == old(notices) + [if userJava != myId then RecordStoppedBy(roomJava, nameJava, userJava) else RecordStoppedByMe]
    {
      if userJava != myId {
        RecordUpdate();
        notices := notices + [RecordStoppedBy(roomJava, nameJava, userJava)];
      } else {
        notices := notices + [RecordStoppedByMe];
      }
    }

    // -------------------------------------------------------------------------------------
    // Volume and video sizes

    /** `volume.change`. */
    method VolumeChange()
      requires Valid()
      modifies this`volume
      ensures Valid()
      ensures volume == VolumeToggled(old(volume))
    {
      volume := VolumeToggled(volume);
    }

    /** `setBigs`. */
    method SetBigs(isCompositeBig: bool, isPresentationBig: bool)
      modifies this`sizeBig
      ensures sizeBig == SizeBig(isCompositeBig, isPresentationBig)
    {
      sizeBig := SizeBig(isCompositeBig, isPresentationBig);
    }

    /** `changeCompositeSize`, its state update only. */
    method ChangeCompositeSize()
      modifies this`sizeBig
      ensures sizeBig == CompositeResized(old(sizeBig))
    {
      if !sizeBig.composite {
        SetBigs(true, false);
      } else {
        SetBigs(false, false);
      }
    }

    /** `changePresentationSize`, its state update only. */
    method ChangePresentationSize()
      modifies this`sizeBig
      ensures sizeBig == PresentationResized(old(sizeBig))
    {
      if !sizeBig.presentation {
        SetBigs(false, true);
      } else {
        SetBigs(false, false);
      }
    }

    // -------------------------------------------------------------------------------------
    // The dispatcher

    /** What the dispatcher does with one message, between the states before and after:
        the effect and the outcome of the message's handler, as each handler's own contract
        states it, and every field the dispatcher may write that the handler does not write
        left as it was. */
    twostate predicate Routed(msg: Message, sendFailed: bool, receiveFailed: bool, o: Outcome)
      reads this
    {
      match msg
      case CompositeInfo(info) => o == Handled
        && StreamSent(Some(info), Composite, sendFailed, receiveFailed)
        && unchanged(this`constraints, this`mediaType, this`released, this`record)
      case PresentationInfo(info) => o == Handled
        && (if old(constraints).browserIsFirefox then StreamSent(Some(info), Presentation, sendFailed, receiveFailed)
            else unchanged(this`participants, this`presentation, this`nextHandle, this`outbox, this`notices,
                   this`lineExtension, this`lineAvailable, this`participantNames))
        && unchanged(this`constraints, this`mediaType, this`released, this`record)
      case PresenterReady(u, presenter) => o == Handled
        && (if u == myId then
              && participants == old(participants) && nextHandle == old(nextHandle) && outbox == old(outbox)
              && presentation == old(presentation).(active := true)
            else
              && participants == Install(Register(old(participants), u, presenter), u, Presentation,
                   Peer(old(nextHandle), RecvOnly, false))
              && nextHandle == old(nextHandle) + 1
              && outbox == old(outbox) + (if receiveFailed then [] else [OfferToReceive(u, Presentation)])
              && presentation == old(presentation).(active := true, disabled := AllDisabled))
        && unchanged(this`notices, this`lineExtension, this`lineAvailable, this`participantNames,
             this`constraints, this`mediaType, this`released, this`record)
      case CancelPresentation(u) =>
        && presentation == old(presentation).(active := false, disabled := NoneDisabled)
        && (var hit := u != myId && u in old(participants);
            && (o == if hit && old(participants)[u].presentation.None? then Failed(EmptySlot(u, Presentation)) else Handled)
            && (if hit && old(participants)[u].presentation.Some?
                then var p := old(participants)[u].presentation.value;
                  && participants == old(participants)[u := old(participants)[u].(presentation := Some(p.(disposed := true)))]
                  && released == old(released) + {p.handle}
                else participants == old(participants) && released == old(released)))
        && unchanged(this`nextHandle, this`outbox, this`notices, this`lineExtension, this`lineAvailable,
             this`participantNames, this`constraints, this`mediaType, this`record)
      case NewParticipantArrived(u, name) => o == Handled
        && participants == ApplyOp(old(participants), Arrive(u, name))
        && participantNames == old(participantNames) + [name]
        && notices == old(notices) + [Joined(name)]
        && unchanged(this`presentation, this`nextHandle, this`outbox, this`lineExtension, this`lineAvailable,
             this`constraints, this`mediaType, this`released, this`record)
      case ParticipantLeft(u, name, isScreensharer, data) => o == Handled
        && participants == ApplyOp(old(participants), Depart(u))
        && released == old(released) + (if u in old(participants) then MemberHandles(old(participants)[u]) else {})
        && presentation == (if isScreensharer then old(presentation).(active := false, disabled := NoneDisabled)
                            else old(presentation))
        && participantNames == data
        && notices == old(notices) + [Left(name)]
        && unchanged(this`nextHandle, this`outbox, this`lineExtension, this`lineAvailable,
             this`constraints, this`mediaType, this`record)
      case ReceiveVideoAnswer(u, t, _) => o == old(PeerFor(u, t))
        && unchanged(this`participants, this`presentation, this`nextHandle, this`outbox, this`notices,
             this`lineExtension, this`lineAvailable, this`participantNames, this`constraints, this`mediaType,
             this`released, this`record)
      case IceCandidate(u, t, _) => o == old(PeerFor(u, t))
        && unchanged(this`participants, this`presentation, this`nextHandle, this`outbox, this`notices,
             this`lineExtension, this`lineAvailable, this`participantNames, this`constraints, this`mediaType,
             this`released, this`record)
      case ExistingPresentation => o == Handled
        && participants == DropPresentation(old(participants), myId)
        && released == old(released) +
             (if myId in old(participants) then SlotHandles(old(participants)[myId].presentation) else {})
        && presentation == old(presentation).(presenterIsMe := false)
        && mediaType == CompositeMedia
        && outbox == old(outbox) + [OutMsg.StopPresenting]
        && notices == old(notices) + [PresentationRunning]
        && unchanged(this`nextHandle, this`lineExtension, this`lineAvailable, this`participantNames,
             this`constraints, this`record)
      case ExistingName => o == Handled
        && participants == map[] && released == old(released) + RegistryHandles(old(participants))
        && constraints == old(constraints).(warning := true) && mediaType == CompositeMedia
        && outbox == old(outbox) + [LeaveRoom]
        && unchanged(this`presentation, this`nextHandle, this`notices, this`lineExtension, this`lineAvailable,
             this`participantNames, this`record)
      case LineAvailable(e) => o == Handled && lineExtension == e && !lineAvailable
        && unchanged(this`participants, this`presentation, this`nextHandle, this`outbox, this`notices,
             this`participantNames, this`constraints, this`mediaType, this`released, this`record)
      case CallInformation(text) => o == Handled && notices == old(notices) + [CallInfo(text)]
        && unchanged(this`participants, this`presentation, this`nextHandle, this`outbox,
             this`lineExtension, this`lineAvailable, this`participantNames, this`constraints, this`mediaType,
             this`released, this`record)
      case RecordJava(u, room, name) => o == Handled
        && record == RecordStep(old(record), RemoteStart(u), myId)
        && notices == old(notices) + [if u != myId then RecordStartedBy(room, name, u) else RecordStartedByMe]
        && unchanged(this`participants, this`presentation, this`nextHandle, this`outbox,
             this`lineExtension, this`lineAvailable, this`participantNames, this`constraints, this`mediaType,
             this`released)
      case StopRecordJava(u, room, name) => o == Handled
        && record == RecordStep(old(record), RemoteStop(u), myId)
        && notices == old(notices) + [if u != myId then RecordStoppedBy(room, name, u) else RecordStoppedByMe]
        && unchanged(this`participants, this`presentation, this`nextHandle, this`outbox,
             this`lineExtension, this`lineAvailable, this`participantNames, this`constraints, this`mediaType,
             this`released)
      case Unrecognized(id) =>
        (&& o == Ignored(id)
         && unchanged(this`participants, this`presentation, this`nextHandle, this`outbox, this`notices,
              this`lineExtension, this`lineAvailable, this`participantNames, this`constraints, this`mediaType,
              this`released, this`record))
    }

    /** `socket.get().onmessage`: route one inbound message to its handler. `sendFailed`
        and `receiveFailed` are the outcomes of the set-up of the peers the handler
        builds. The `switch` is split in six groups of cases. */
    method Dispatch(msg: Message, sendFailed: bool, receiveFailed: bool) returns (o: Outcome)
      requires Valid()
      requires NeedsMe(msg, constraints.browserIsFirefox) ==> MeKnown()
      requires msg.Unrecognized? ==> !KnownMessageId(msg.id)
      modifies this`participants, this`presentation, this`nextHandle, this`outbox, this`notices,
        this`lineExtension, this`lineAvailable, this`participantNames, this`constraints, this`mediaType, this`released,
        this`record
      ensures Valid()
      ensures Routed(msg, sendFailed, receiveFailed, o)
    {
      if IsStreamMessage(msg) {
        o := RouteStream(msg, sendFailed, receiveFailed);
      } else if IsPresenterMessage(msg) {
        o := RoutePresenter(msg, sendFailed, receiveFailed);
      } else if IsRosterMessage(msg) {
        o := RouteRoster(msg, sendFailed, receiveFailed);
      } else if IsRefusal(msg) {
        o := RouteRefusal(msg, sendFailed, receiveFailed);
      } else if IsNoticeMessage(msg) {
        o := RouteNotice(msg, sendFailed, receiveFailed);
      } else {
        o := RouteSignal(msg, sendFailed, receiveFailed);
      }
    }

    /** The cases of the `switch` that carry a channel's stream information. */
    method RouteStream(msg: Message, sendFailed: bool, receiveFailed: bool) returns (o: Outcome)
      requires Valid() && IsStreamMessage(msg)
      requires NeedsMe(msg, constraints.browserIsFirefox) ==> MeKnown()
      modifies this`participants, this`presentation, this`nextHandle, this`outbox, this`notices,
        this`lineExtension, this`lineAvailable, this`participantNames, this`constraints, this`mediaType, this`released,
        this`record
      ensures Valid()
      ensures Routed(msg, sendFailed, receiveFailed, o)
    {
      o := Handled;
      match msg
      case CompositeInfo(info) =>
        SendStream(Some(info), Composite, sendFailed, receiveFailed);
      case PresentationInfo(info) =>
        if constraints.browserIsFirefox {
          SendStream(Some(info), Presentation, sendFailed, receiveFailed);
        }
    }

    /** The cases of the `switch` that start or end someone else's presentation. */
    method RoutePresenter(msg: Message, sendFailed: bool, receiveFailed: bool) returns (o: Outcome)
      requires Valid() && IsPresenterMessage(msg)
      requires NeedsMe(msg, constraints.browserIsFirefox) ==> MeKnown()
      modifies this`participants, this`presentation, this`nextHandle, this`outbox, this`notices,
        this`lineExtension, this`lineAvailable, this`participantNames, this`constraints, this`mediaType, this`released,
        this`record
      ensures Valid()
      ensures Routed(msg, sendFailed, receiveFailed, o)
    {
      o := Handled;
      match msg
      case PresenterReady(userId, presenter) =>
        OnPresenterReady(userId, presenter, receiveFailed);
      case CancelPresentation(userId) =>
        o := CancelPresentation(userId);
    }

    /** The cases of the `switch` about arrivals and departures. */
    method RouteRoster(msg: Message, sendFailed: bool, receiveFailed: bool) returns (o: Outcome)
      requires Valid() && IsRosterMessage(msg)
      requires NeedsMe(msg, constraints.browserIsFirefox) ==> MeKnown()
      modifies this`participants, this`presentation, this`nextHandle, this`outbox, this`notices,
        this`lineExtension, this`lineAvailable, this`participantNames, this`constraints, this`mediaType, this`released,
        this`record
      ensures Valid()
      ensures Routed(msg, sendFailed, receiveFailed, o)
    {
      o := Handled;
      match msg
      case NewParticipantArrived(userId, name) =>
        OnNewParticipant(userId, name);
      case ParticipantLeft(userId, name, isScreensharer, data) =>
        OnParticipantLeft(userId, name, isScreensharer, data);
    }

    /** The cases of the `switch` in which the server refuses: a presentation is already
        running, or the name is taken. */
    method RouteRefusal(msg: Message, sendFailed: bool, receiveFailed: bool) returns (o: Outcome)
      requires Valid() && IsRefusal(msg)
      requires NeedsMe(msg, constraints.browserIsFirefox) ==> MeKnown()
      modifies this`participants, this`presentation, this`nextHandle, this`outbox, this`notices,
        this`lineExtension, this`lineAvailable, this`participantNames, this`constraints, this`mediaType, this`released,
        this`record
      ensures Valid()
      ensures Routed(msg, sendFailed, receiveFailed, o)
    {
      o := Handled;
      match msg
      case ExistingPresentation =>
        notices := notices + [PresentationRunning];
        StopPresenting();
      case ExistingName =>
        constraints := constraints.(warning := true);
        Leave();
    }

    /** The cases of the `switch` that update the line, the call information or the
        recording state. */
    method RouteNotice(msg: Message, sendFailed: bool, receiveFailed: bool) returns (o: Outcome)
      requires Valid() && IsNoticeMessage(msg)
      requires NeedsMe(msg, constraints.browserIsFirefox) ==> MeKnown()
      modifies this`participants, this`presentation, this`nextHandle, this`outbox, this`notices,
        this`lineExtension, this`lineAvailable, this`participantNames, this`constraints, this`mediaType, this`released,
        this`record
      ensures Valid()
      ensures Routed(msg, sendFailed, receiveFailed, o)
    {
      o := Handled;
      match msg
      case LineAvailable(extension) =>
        SetLineExtension(extension);
        lineAvailable := false;
      case CallInformation(text) =>
        notices := notices + [CallInfo(text)];
      case RecordJava(userJava, roomJava, nameJava) =>
        RecordJava(userJava, roomJava, nameJava);
      case StopRecordJava(userJava, roomJava, nameJava) =>
        StopRecordJava(userJava, roomJava, nameJava);
    }

    /** The remaining cases of the `switch`: the calls that only reach a peer, and unknown
        ids. */
    method RouteSignal(msg: Message, sendFailed: bool, receiveFailed: bool) returns (o: Outcome)
      requires Valid() && !IsStreamMessage(msg) && !IsPresenterMessage(msg) && !IsRosterMessage(msg)
        && !IsRefusal(msg) && !IsNoticeMessage(msg)
      requires NeedsMe(msg, constraints.browserIsFirefox) ==> MeKnown()
      requires msg.Unrecognized? ==> !KnownMessageId(msg.id)
      modifies this`participants, this`presentation, this`nextHandle, this`outbox, this`notices,
        this`lineExtension, this`lineAvailable, this`participantNames, this`constraints, this`mediaType, this`released,
        this`record
      ensures Valid()
      ensures Routed(msg, sendFailed, receiveFailed, o)
    {
      o := Handled;
      match msg
      case ReceiveVideoAnswer(userId, typeName, _) =>
        o := PeerFor(userId, typeName);
      case IceCandidate(userId, typeName, _) =>
        o := PeerFor(userId, typeName);
      case Unrecognized(id) =>
        o := Ignored(id);
    }

  }
}
