/** The two pure request gates of server.js: client resolution and the
    origin allow-list. */
module Admission {
  import opened Wrappers
  import opened Clients

  /** The `{ error, status }` object returned by a failed resolution. */
  datatype Rejection = Rejection(status: int, error: string)

  /** A JavaScript id is falsy when it is missing or the empty string. */
  predicate Present(s: Option<string>) {
    s.Some? && s.value != ""
  }

  /** `getClientOrThrow`: 400 without an id, 404 for an unknown id,
      403 for a disabled client, otherwise the registry entry itself. */
  function ResolveClient(clients: map<string, Client>, clientId: Option<string>): (r: Result<Client, Rejection>)
    ensures r.Success? <==> Present(clientId) && clientId.value in clients && clients[clientId.value].enabled
    ensures r.Success? ==> r.value == clients[clientId.value]
    ensures !Present(clientId) ==> r == Failure(Rejection(400, "clientId required"))
    ensures Present(clientId) && clientId.value !in clients ==> r == Failure(Rejection(404, "Unknown client"))
    ensures Present(clientId) && clientId.value in clients && !clients[clientId.value].enabled
            ==> r == Failure(Rejection(403, "Client disabled"))
  {
    if !Present(clientId) then Failure(Rejection(400, "clientId required"))
    else if clientId.value !in clients then Failure(Rejection(404, "Unknown client"))
    else if !clients[clientId.value].enabled then Failure(Rejection(403, "Client disabled"))
    else Success(clients[clientId.value])
  }

  /** The client's allow-list, or the empty list when it has none. */
  function AllowedOrigins(client: Client): seq<string> {
    client.allowedOrigins.GetOr([])
  }

  datatype OriginCheck = Admit | Reject(reason: string)

  /** `enforceOrigin`: admits exactly a non-empty origin on the allow-list. */
  function EnforceOrigin(origin: Option<string>, client: Client): (r: OriginCheck)
    ensures r.Admit? <==> Present(origin) && origin.value in AllowedOrigins(client)
    ensures !Present(origin) ==> r == Reject("Missing Origin")
    ensures Present(origin) && origin.value !in AllowedOrigins(client)
            ==> r == Reject("Origin not allowed: " + origin.value)
  {
    if !Present(origin) then Reject("Missing Origin")
    else if origin.value !in AllowedOrigins(client) then Reject("Origin not allowed: " + origin.value)
    else Admit
  }

  /** Resolving an id against a freshly loaded registry succeeds exactly when
      the last clients.json entry with that id is enabled, and yields that entry. */
  lemma ResolveLoaded(entries: seq<Client>, id: string)
    requires id != ""
    ensures ResolveClient(BuildRegistry(entries), Some(id)).Success?
            <==> exists i :: 0 <= i < |entries| && IsLastWithId(entries, i)
                             && entries[i].clientId == id && entries[i].enabled
    ensures forall i :: 0 <= i < |entries| && IsLastWithId(entries, i) && entries[i].clientId == id && entries[i].enabled
                        ==> ResolveClient(BuildRegistry(entries), Some(id)) == Success(entries[i])
  {
    var registry := BuildRegistry(entries);
    RegistryKeyedById(entries);
    if id in registry {
      RegistryValueIsLast(entries, id);
    }
    if exists i :: 0 <= i < |entries| && IsLastWithId(entries, i) && entries[i].clientId == id && entries[i].enabled {
      var i :| 0 <= i < |entries| && IsLastWithId(entries, i) && entries[i].clientId == id && entries[i].enabled;
      RegistryLastWins(entries, i);
    }
    forall i | 0 <= i < |entries| && IsLastWithId(entries, i) && entries[i].clientId == id && entries[i].enabled
      ensures ResolveClient(BuildRegistry(entries), Some(id)) == Success(entries[i])
    {
      RegistryLastWins(entries, i);
    }
  }

  /** An id that no clients.json entry carries is answered with 404. */
  lemma UnlistedIsUnknown(entries: seq<Client>, id: string)
    requires id != ""
    requires forall i :: 0 <= i < |entries| ==> entries[i].clientId != id
    ensures ResolveClient(BuildRegistry(entries), Some(id)) == Failure(Rejection(404, "Unknown client"))
  {
    RegistryDomain(entries, id);
  }
}
