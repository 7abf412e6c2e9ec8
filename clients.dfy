/** The client registry of server.js: the clients.json entries keyed by
    `clientId`, built at start-up and replaced on every successful reload. */
module Clients {
  import opened Wrappers

  /** UI settings are passed through to the widget untouched. */
  type Ui = map<string, string>

  /** `limits` object of a client; `rpm` may be absent. */
  datatype Limits = Limits(rpm: Option<int>)

  /** One entry of clients.json. Absent optional fields are `None`; a missing
      `enabled` is falsy in the source and is therefore `false` here. */
  datatype Client = Client(
    clientId: string,
    enabled: bool,
    allowedOrigins: Option<seq<string>>,
    ui: Option<Ui>,
    promptBase: Option<string>,
    promptClient: Option<string>,
    model: Option<string>,
    limits: Option<Limits>)

  /** The parsed clients.json document; its `clients` list may be absent. */
  datatype Document = Document(clients: Option<seq<Client>>)

  /** The document's client list, or the empty list when it has none. */
  function Entries(doc: Document): seq<Client> {
    doc.clients.GetOr([])
  }

  /** The map the loader's loop produces: each entry stored under its id,
      later entries overwriting earlier ones with the same id. */
  function BuildRegistry(entries: seq<Client>): map<string, Client>
    decreases |entries|
  {
    if entries == [] then map[]
    else
      var last := entries[|entries| - 1];
      BuildRegistry(entries[..|entries| - 1])[last.clientId := last]
  }

  /** Every registry entry is stored under its own id. */
  ghost predicate KeyedById(registry: map<string, Client>) {
    forall id :: id in registry ==> registry[id].clientId == id
  }

  /** No entry after index `i` has the id of entry `i`. */
  ghost predicate IsLastWithId(entries: seq<Client>, i: int)
    requires 0 <= i < |entries|
  {
    forall j :: i < j < |entries| ==> entries[j].clientId != entries[i].clientId
  }

  lemma {:induction false} RegistryKeyedById(entries: seq<Client>)
    ensures KeyedById(BuildRegistry(entries))
  {
    if entries != [] {
      RegistryKeyedById(entries[..|entries| - 1]);
    }
  }

  /** An id is in the registry exactly when some entry carries it. */
  lemma {:induction false} RegistryDomain(entries: seq<Client>, id: string)
    ensures id in BuildRegistry(entries) <==> exists i :: 0 <= i < |entries| && entries[i].clientId == id
  {
    if entries != [] {
      var init := entries[..|entries| - 1];
      RegistryDomain(init, id);
      if id in BuildRegistry(init) {
        var i :| 0 <= i < |init| && init[i].clientId == id;
        assert entries[i] == init[i];
      }
      if exists i :: 0 <= i < |entries| && entries[i].clientId == id {
        var i :| 0 <= i < |entries| && entries[i].clientId == id;
        if i < |init| {
          assert init[i] == entries[i];
        }
      }
    }
  }

  /** The registry holds, for an id, the last entry carrying that id. */
  lemma {:induction false} RegistryLastWins(entries: seq<Client>, i: int)
    requires 0 <= i < |entries| && IsLastWithId(entries, i)
    ensures entries[i].clientId in BuildRegistry(entries)
    ensures BuildRegistry(entries)[entries[i].clientId] == entries[i]
  {
    var init := entries[..|entries| - 1];
    if i < |entries| - 1 {
      assert IsLastWithId(init, i) by {
        forall j | i < j < |init| ensures init[j].clientId != init[i].clientId {
          assert init[j] == entries[j];
        }
      }
      RegistryLastWins(init, i);
    }
  }

  /** Conversely, whatever the registry holds for an id is the last entry with that id. */
  lemma {:induction false} RegistryValueIsLast(entries: seq<Client>, id: string)
    requires id in BuildRegistry(entries)
    ensures exists i :: 0 <= i < |entries| && IsLastWithId(entries, i)
                        && entries[i].clientId == id && BuildRegistry(entries)[id] == entries[i]
  {
    var n := |entries|;
    var init := entries[..n - 1];
    if entries[n - 1].clientId == id {
      assert IsLastWithId(entries, n - 1);
    } else {
      RegistryValueIsLast(init, id);
      var i :| 0 <= i < |init| && IsLastWithId(init, i) && init[i].clientId == id && BuildRegistry(init)[id] == init[i];
      assert entries[i] == init[i];
      assert IsLastWithId(entries, i) by {
        forall j | i < j < n ensures entries[j].clientId != entries[i].clientId {
          if j < n - 1 {
            assert entries[j] == init[j];
          }
        }
      }
    }
  }

  /** `loadClients` after reading and parsing: the `for ... map.set` loop. */
  method LoadClients(doc: Document) returns (registry: map<string, Client>)
    ensures registry == BuildRegistry(Entries(doc))
  {
    var entries := Entries(doc);
    registry := map[];
    for k := 0 to |entries|
      invariant registry == BuildRegistry(entries[..k])
    {
      assert entries[..k + 1][..k] == entries[..k];
      registry := registry[entries[k].clientId := entries[k]];
    }
    assert entries[..|entries|] == entries;
  }

  /** The module-level `CLIENTS` variable. */
  class Registry {
    var clients: map<string, Client>

    ghost predicate Valid()
      reads this
    {
      KeyedById(clients)
    }

    /** `let CLIENTS = loadClients()` at start-up. */
    constructor(doc: Document)
      ensures Valid()
      ensures clients == BuildRegistry(Entries(doc))
    {
      var loaded := LoadClients(doc);
      RegistryKeyedById(Entries(doc));
      clients := loaded;
    }

    /** The file-watch callback. `attempt` is `None` when reading or parsing
        clients.json failed; the previous registry is then kept. */
    method Reload(attempt: Option<Document>)
      requires Valid()
      modifies this
      ensures Valid()
      ensures attempt.Some? ==> clients == BuildRegistry(Entries(attempt.value))
      ensures attempt.None? ==> clients == old(clients)
    {
      match attempt {
        case Some(doc) =>
          var loaded := LoadClients(doc);
          RegistryKeyedById(Entries(doc));
          clients := loaded;
        case None =>
      }
    }
  }
}
