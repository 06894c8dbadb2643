/**
 * The client page and the backend each hard-code the same six servers. The
 * backend adds an address and a liveness marker; every field the client
 * shows agrees, entry by entry and in the same order.
 */
module ServerLists {
  import Dashboard
  import VpnApi

  /** The client's view of a backend listing entry. */
  function AsClientEntry(e: VpnApi.Endpoint): Dashboard.Server {
    Dashboard.Server(e.id, e.name, e.country, e.flag, e.ping, e.load)
  }

  lemma ClientListMatchesCatalogue()
    ensures |Dashboard.Servers()| == |VpnApi.Catalogue()|
    ensures forall i :: 0 <= i < |VpnApi.Catalogue()| ==> Dashboard.Servers()[i] == AsClientEntry(VpnApi.Catalogue()[i])
  {
  }
}
