/** The agent's per-user session (kurento-agent/.../resources/UserSession.java): which media
    endpoint a receive request is bound to, the lazily built presentation endpoint, ICE
    candidate routing, teardown and identity. Messages to the user's socket go to
    `outbox`; the room's broadcasts go to the room's own log. */
module Sessions {
  import opened Options
  import JavaHash
  import opened Media

  /** The answer `processOffer` produces: opaque, determined by the endpoint and the offer. */
  datatype SdpAnswer = AnswerOf(endpoint: nat, offer: string)

  /** The JSON messages the session sends. */
  datatype ServerMsg =
    | PresenterReady(presenter: string)
    | ReceiveVideoAnswer(name: string, sdpAnswer: SdpAnswer, typeName: string)

  /** How `getEndpointForUser` ends: with an endpoint, or with the NullPointerException of
      `sender.getSharingMedia().connect(…)` when the sender has no presentation endpoint. */
  datatype EndpointResult = Endpoint(id: nat) | SenderSharingNull

  /** The room a session belongs to, reduced to what it is asked to broadcast. */
  class Room {
    var broadcasts: seq<ServerMsg>

    constructor ()
      ensures broadcasts == []
    {
      broadcasts := [];
    }

    /** `room.broadcast(message)`. */
    method Broadcast(m: ServerMsg)
      modifies this`broadcasts
      ensures broadcasts == old(broadcasts) + [m]
    {
      broadcasts := broadcasts + [m];
    }
  }

  /** Whether a receive request of type `typeName` is served by the presentation endpoint:
      a non-composite request made by the screen sharer for its own stream, or for the
      stream of a screen sharer. */
  predicate SelectsSharing(typeName: string, selfShares: bool, sameUser: bool, senderShares: bool) {
    typeName != "composite" && ((selfShares && sameUser) || senderShares)
  }

  class UserSession {
    const name: string
    const roomName: string
    const media: MediaServer
    const outgoingMedia: nat
    const hubPort: nat
    var sharingMedia: Option<nat>
    var isScreensharer: bool
    var outbox: seq<ServerMsg>

    /** Every endpoint the session holds has been built. */
    ghost predicate Valid()
      reads this`sharingMedia, media`next, media`released
    {
      && media.Valid()
      && outgoingMedia < media.next
      && hubPort < media.next
      && (sharingMedia.Some? ==> sharingMedia.value < media.next)
    }

    /** The constructor builds the outgoing endpoint and then the hub port; no presentation
        endpoint yet, and not a screen sharer. */
    constructor (name: string, roomName: string, media: MediaServer)
      requires media.Valid()
      modifies media`next
      ensures Valid()
      ensures this.name == name && this.roomName == roomName && this.media == media
      ensures outgoingMedia == old(media.next) && hubPort == old(media.next) + 1
      ensures media.next == old(media.next) + 2
      ensures outgoingMedia !in media.released && hubPort !in media.released
      ensures sharingMedia == None && !isScreensharer && outbox == []
    {
      this.name := name;
      this.roomName := roomName;
      this.media := media;
      var out := media.Build();
      var port := media.Build();
      outgoingMedia := out;
      hubPort := port;
      sharingMedia := None;
      isScreensharer := false;
      outbox := [];
    }

    /** `equals(Object)`: the same user in the same room. */
    function Equals(other: UserSession?): (eq: bool)
      ensures eq <==> other != null && name == other.name && roomName == other.roomName
      ensures eq ==> HashCode() == other.HashCode()
    {
      if this == other then true
      else if other == null then false
      else name == other.name && roomName == other.roomName
    }

    /** `hashCode()`: Java's `31 * (31 * 1 + name.hashCode()) + roomName.hashCode()` in
        32-bit arithmetic, that is the polynomial of both strings reduced modulo 2^32. */
    function HashCode(): (h: int)
      ensures JavaHash.IsInt32(h)
      ensures h == JavaHash.Wrap(31 * 31 + 31 * JavaHash.Polynomial(name) + JavaHash.Polynomial(roomName))
    {
      JavaHash.FieldPairHash(name, roomName)
    }

    /** The `isScreensharer(boolean)` setter. */
    method SetScreensharer(b: bool)
      modifies this`isScreensharer
      ensures isScreensharer == b
    {
      isScreensharer := b;
    }

    /** `getEndpointForUser(sender, type, room)`. A composite request, or one that does not
        concern a screen sharer, is bound to the outgoing endpoint and changes nothing.
        Otherwise the presentation endpoint is built if there is none (the screen sharer
        asking for its own stream then has `presenterReady` broadcast), a viewer's endpoint
        is fed from the sender's presentation endpoint, and the presentation endpoint is
        the answer. Both sessions belong to one room, so their endpoints live on the
        room's one media server. */
    method GetEndpointForUser(sender: UserSession, typeName: string, room: Room) returns (r: EndpointResult)
      requires Valid()
      requires sender.media == media
      modifies this`sharingMedia, media`next, media`links, room`broadcasts
      ensures Valid()
      ensures !SelectsSharing(typeName, old(isScreensharer), Equals(sender), old(sender.isScreensharer)) ==>
        && r == Endpoint(outgoingMedia)
        && sharingMedia == old(sharingMedia) && media.next == old(media.next)
        && media.links == old(media.links) && room.broadcasts == old(room.broadcasts)
      ensures SelectsSharing(typeName, old(isScreensharer), Equals(sender), old(sender.isScreensharer)) ==>
        && sharingMedia == (if old(sharingMedia).Some? then old(sharingMedia) else Some(old(media.next)))
        && media.next == old(media.next) + (if old(sharingMedia).Some? then 0 else 1)
        && room.broadcasts == old(room.broadcasts) +
             (if old(sharingMedia).None? && isScreensharer && Equals(sender) then [PresenterReady(name)] else [])
        && (isScreensharer ==> r == Endpoint(sharingMedia.value) && media.links == old(media.links))
        && (!isScreensharer && old(sender.sharingMedia).None? ==>
              r == SenderSharingNull && media.links == old(media.links))
        && (!isScreensharer && old(sender.sharingMedia).Some? ==>
              && r == Endpoint(sharingMedia.value)
              && media.links == old(media.links) + [(old(sender.sharingMedia).value, sharingMedia.value)])
    {
      if typeName != "composite" {
        if (isScreensharer && Equals(sender)) || sender.isScreensharer {
          if sharingMedia.None? {
            var e := media.Build();
            sharingMedia := Some(e);
            if isScreensharer && Equals(sender) {
              room.Broadcast(PresenterReady(name));
            }
          }
          if !isScreensharer {
            if sender.sharingMedia.None? {
              return SenderSharingNull;
            }
            media.Connect(sender.sharingMedia.value, sharingMedia.value);
          }
          return Endpoint(sharingMedia.value);
        }
      }
      return Endpoint(outgoingMedia);
    }

    /** `receiveVideoFrom(sender, type, sdpOffer, room)`: the endpoint chosen above processes
        the offer and the answer goes back to this user, naming the sender and the type.
        The choice of endpoint has the effect on the media server and the room stated for
        `getEndpointForUser`; when that yields no endpoint, nothing is sent. */
    method ReceiveVideoFrom(sender: UserSession, typeName: string, sdpOffer: string, room: Room) returns (r: EndpointResult)
      requires Valid()
      requires sender.media == media
      modifies this`sharingMedia, media`next, media`links, room`broadcasts, this`outbox
      ensures Valid()
      ensures r.Endpoint? ==> outbox == old(outbox) + [ReceiveVideoAnswer(sender.name, AnswerOf(r.id, sdpOffer), typeName)]
      ensures r.SenderSharingNull? ==> outbox == old(outbox)
      ensures r.SenderSharingNull? <==>
        SelectsSharing(typeName, old(isScreensharer), Equals(sender), old(sender.isScreensharer))
        && !isScreensharer && old(sender.sharingMedia).None?
      ensures !SelectsSharing(typeName, old(isScreensharer), Equals(sender), old(sender.isScreensharer)) ==>
        && r == Endpoint(outgoingMedia)
        && sharingMedia == old(sharingMedia) && media.next == old(media.next)
        && media.links == old(media.links) && room.broadcasts == old(room.broadcasts)
      ensures SelectsSharing(typeName, old(isScreensharer), Equals(sender), old(sender.isScreensharer)) ==>
        && sharingMedia == (if old(sharingMedia).Some? then old(sharingMedia) else Some(old(media.next)))
        && media.next == old(media.next) + (if old(sharingMedia).Some? then 0 else 1)
        && room.broadcasts == old(room.broadcasts) +
             (if old(sharingMedia).None? && isScreensharer && Equals(sender) then [PresenterReady(name)] else [])
        && (isScreensharer ==> r == Endpoint(sharingMedia.value) && media.links == old(media.links))
        && (!isScreensharer && old(sender.sharingMedia).None? ==>
              r == SenderSharingNull && media.links == old(media.links))
        && (!isScreensharer && old(sender.sharingMedia).Some? ==>
              && r == Endpoint(sharingMedia.value)
              && media.links == old(media.links) + [(old(sender.sharingMedia).value, sharingMedia.value)])
    {
      r := GetEndpointForUser(sender, typeName, room);
      if r.SenderSharingNull? {
        return;
      }
      var answer := AnswerOf(r.id, sdpOffer);
      SendMessage(ReceiveVideoAnswer(sender.name, answer, typeName));
    }

    /** `sendMessage(message)`. */
    method SendMessage(m: ServerMsg)
      modifies this`outbox
      ensures outbox == old(outbox) + [m]
    {
      outbox := outbox + [m];
    }

    /** The endpoint `addCandidate` hands a candidate of type `typeName` to: the outgoing
        endpoint for "composite", the presentation endpoint for anything else, and none
        when that one has not been built. */
    function CandidateTarget(typeName: string): (t: Option<nat>)
      reads this`sharingMedia
      ensures t.None? <==> typeName != "composite" && sharingMedia.None?
      ensures typeName == "composite" ==> t == Some(outgoingMedia)
      ensures typeName != "composite" ==> t == sharingMedia
    {
      if typeName == "composite" then Some(outgoingMedia) else sharingMedia
    }

    /** `addCandidate(candidate, type)`: delivered to the target endpoint, or silently
        dropped when there is none. */
    method AddCandidate(candidate: string, typeName: string)
      modifies media`candidates
      ensures media.candidates == old(media.candidates) +
        (if CandidateTarget(typeName).Some? then [(CandidateTarget(typeName).value, candidate)] else [])
    {
      var ep := if typeName == "composite" then Some(outgoingMedia) else sharingMedia;
      if ep.Some? {
        media.AddIceCandidate(ep.value, candidate);
      }
    }

    /** `cancelPresentation()`: the presentation endpoint, if any, is released and
        forgotten. */
    method CancelPresentation()
      requires Valid()
      modifies this`sharingMedia, media`released
      ensures Valid()
      ensures sharingMedia == None
      ensures media.released == old(media.released) +
        (if old(sharingMedia).Some? then {old(sharingMedia).value} else {})
    {
      if sharingMedia.Some? {
        media.Release(sharingMedia.value);
        sharingMedia := None;
      }
    }

    /** `close()`: the hub port, the outgoing endpoint and any presentation endpoint are
        released; the session keeps its reference to the last one. */
    method Close()
      requires Valid()
      modifies media`released
      ensures Valid()
      ensures media.released == old(media.released) + {hubPort, outgoingMedia} +
        (if sharingMedia.Some? then {sharingMedia.value} else {})
    {
      media.Release(hubPort);
      media.Release(outgoingMedia);
      if sharingMedia.Some? {
        media.Release(sharingMedia.value);
      }
    }
  }

  /** `equals` is an equivalence on sessions. */
  lemma EqualsIsEquivalence(a: UserSession, b: UserSession, c: UserSession)
    ensures a.Equals(a)
    ensures a.Equals(b) ==> b.Equals(a)
    ensures a.Equals(b) && b.Equals(c) ==> a.Equals(c)
  {
  }
}
