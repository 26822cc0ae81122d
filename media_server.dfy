/** The Kurento media server as the agent's classes see it through the client API. Media
    elements (WebRTC endpoints, hub ports, pass-through elements) are opaque ids drawn from a
    counter by `build()`; `release()` records the id as released; `connect` and
    `addIceCandidate` are logged in the order they are issued. */
module Media {
  class MediaServer {
    var next: nat
    var released: set<nat>
    var links: seq<(nat, nat)>
    var candidates: seq<(nat, string)>

    /** Only built elements are ever released. */
    ghost predicate Valid()
      reads this`next, this`released
    {
      forall e :: e in released ==> e < next
    }

    constructor ()
      ensures Valid()
      ensures next == 0 && released == {} && links == [] && candidates == []
    {
      next := 0;
      released := {};
      links := [];
      candidates := [];
    }

    /** `new ….Builder(pipeline).build()`: a new element, never released before. */
    method Build() returns (e: nat)
      requires Valid()
      modifies this`next
      ensures Valid()
      ensures e == old(next) && next == old(next) + 1
      ensures e !in released
    {
      e := next;
      next := next + 1;
    }

    /** `element.release()`. */
    method Release(e: nat)
      requires Valid() && e < next
      modifies this`released
      ensures Valid()
      ensures released == old(released) + {e}
    {
      released := released + {e};
    }

    /** `source.connect(sink)`. */
    method Connect(source: nat, sink: nat)
      modifies this`links
      ensures links == old(links) + [(source, sink)]
    {
      links := links + [(source, sink)];
    }

    /** `endpoint.addIceCandidate(candidate)`. */
    method AddIceCandidate(e: nat, candidate: string)
      modifies this`candidates
      ensures candidates == old(candidates) + [(e, candidate)]
    {
      candidates := candidates + [(e, candidate)];
    }
  }
}
