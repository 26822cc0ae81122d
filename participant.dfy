/** The agent's base participant (kurento-agent/.../resources/Participant.java): its hub
    port's lifecycle, its name, and its identity over `(id, roomName)`. */
module Participants {
  import opened Options
  import JavaHash
  import opened Media

  /** How `releaseHubPort` ends: the port was released, or `hubPort.release()` threw a
      NullPointerException because there was no port. */
  datatype ReleaseResult = Released(port: nat) | NullHubPort

  class Participant {
    const id: string
    const roomName: string
    const media: MediaServer
    const passThru: nat
    var name: Option<string>
    var hubPort: Option<nat>

    /** Every element the participant holds has been built, and a port it holds has not
        been released. */
    ghost predicate Valid()
      reads this`hubPort, media`next, media`released
    {
      && media.Valid()
      && passThru < media.next
      && (hubPort.Some? ==> hubPort.value < media.next && hubPort.value !in media.released)
    }

    /** The constructor builds the pass-through element and then the hub port; the name is
        not set yet. */
    constructor (id: string, roomName: string, media: MediaServer)
      requires media.Valid()
      modifies media`next
      ensures Valid()
      ensures this.id == id && this.roomName == roomName && this.media == media
      ensures passThru == old(media.next) && hubPort == Some(old(media.next) + 1)
      ensures media.next == old(media.next) + 2
      ensures name == None
    {
      this.id := id;
      this.roomName := roomName;
      this.media := media;
      var p := media.Build();
      passThru := p;
      name := None;
      var port := media.Build();
      hubPort := Some(port);
    }

    /** `setName(name)`; `getName()` reads the field back. */
    method SetName(n: string)
      modifies this`name
      ensures name == Some(n)
    {
      name := Some(n);
    }

    /** `equals(Object)`: the same id in the same room. */
    function Equals(other: Participant?): (eq: bool)
      ensures eq <==> other != null && id == other.id && roomName == other.roomName
      ensures eq ==> HashCode() == other.HashCode()
    {
      if this == other then true
      else if other == null then false
      else id == other.id && roomName == other.roomName
    }

    /** `hashCode()`: Java's `31 * (31 * 1 + id.hashCode()) + roomName.hashCode()` in 32-bit
        arithmetic. */
    function HashCode(): (h: int)
      ensures JavaHash.IsInt32(h)
      ensures h == JavaHash.Wrap(31 * 31 + 31 * JavaHash.Polynomial(id) + JavaHash.Polynomial(roomName))
    {
      JavaHash.FieldPairHash(id, roomName)
    }

    /** `newHubPort()`: a port is built only when there is none. */
    method NewHubPort()
      requires Valid()
      modifies this`hubPort, media`next
      ensures Valid()
      ensures hubPort.Some?
      ensures old(hubPort).Some? ==> hubPort == old(hubPort) && media.next == old(media.next)
      ensures old(hubPort).None? ==> hubPort == Some(old(media.next)) && media.next == old(media.next) + 1
    {
      if hubPort.None? {
        var port := media.Build();
        hubPort := Some(port);
      }
    }

    /** `releaseHubPort()`: the port is released and forgotten; without a port, the call
        throws and nothing changes. */
    method ReleaseHubPort() returns (r: ReleaseResult)
      requires Valid()
      modifies this`hubPort, media`released
      ensures Valid()
      ensures old(hubPort).Some? ==>
        r == Released(old(hubPort).value) && hubPort == None
        && media.released == old(media.released) + {old(hubPort).value}
      ensures old(hubPort).None? ==>
        r == NullHubPort && hubPort == None && media.released == old(media.released)
    {
      if hubPort.None? {
        return NullHubPort;
      }
      var port := hubPort.value;
      media.Release(port);
      hubPort := None;
      r := Released(port);
    }

    /** `renewHubPort()`: the current port is released and a fresh one built; without a
        port, the release throws and no port is built. */
    method RenewHubPort() returns (r: ReleaseResult)
      requires Valid()
      modifies this`hubPort, media`next, media`released
      ensures Valid()
      ensures old(hubPort).Some? ==>
        && r == Released(old(hubPort).value)
        && media.released == old(media.released) + {old(hubPort).value}
        && hubPort == Some(old(media.next)) && media.next == old(media.next) + 1
        && hubPort.value != old(hubPort).value
      ensures old(hubPort).None? ==>
        && r == NullHubPort && hubPort == None
        && media.released == old(media.released) && media.next == old(media.next)
    {
      r := ReleaseHubPort();
      if r.NullHubPort? {
        return;
      }
      NewHubPort();
    }
  }

  /** `equals` is an equivalence on participants. */
  lemma EqualsIsEquivalence(a: Participant, b: Participant, c: Participant)
    ensures a.Equals(a)
    ensures a.Equals(b) ==> b.Equals(a)
    ensures a.Equals(b) && b.Equals(c) ==> a.Equals(c)
  {
  }
}
