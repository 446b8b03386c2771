/**
 * The client collection (src/context/ClientContext.tsx): the list held in
 * memory, loaded after demo data is seeded, mirrored to storage after every change.
 */
module ClientContext {
  import opened Options
  import opened Types
  import opened Storage
  import Records

  /** `Partial<Client>`: `Some` fields overwrite, `None` fields keep the record's value. */
  datatype ClientPatch = ClientPatch(
    id: Option<string>,
    name: Option<string>,
    email: Option<string>,
    address: Option<string>,
    phone: Option<string>,
    company: Option<string>)

  /** The patch the client list sends after an edit: the whole submitted form. */
  function DataPatch(d: ClientData): ClientPatch {
    ClientPatch(None, Some(d.name), Some(d.email), Some(d.address), d.phone, d.company)
  }

  /** `{ ...client, ...patch }`. */
  function Merge(c: Client, p: ClientPatch): Client {
    Client(p.id.GetOr(c.id), p.name.GetOr(c.name), p.email.GetOr(c.email), p.address.GetOr(c.address),
           if p.phone.Some? then p.phone else c.phone, if p.company.Some? then p.company else c.company)
  }

  function MergeWith(p: ClientPatch): Client -> Client {
    c => Merge(c, p)
  }

  /** An edit from the form keeps the id and takes every submitted field. */
  lemma MergeEdit(c: Client, d: ClientData)
    requires d.phone.Some? && d.company.Some?
    ensures Merge(c, DataPatch(d)) == NewClient(c.id, d)
  {
  }

  /** The client provider's state. */
  class ClientStore {
    var clients: seq<Client>
    const storage: LocalStorage

    ghost predicate Synced()
      reads this, storage
    {
      storage.GetClients() == clients
    }

    constructor (storage: LocalStorage)
      ensures this.storage == storage && clients == []
    {
      this.storage := storage;
      clients := [];
    }

    /** The mount effect: `initializeData()`, then `setClients(getClients())`. */
    method Load()
      modifies this, storage
      ensures storage.items == Seeded(old(storage.items))
      ensures clients == ClientsIn(Seeded(old(storage.items))) && Synced()
    {
      storage.InitializeData();
      clients := storage.GetClients();
    }

    /** `getClientById(id)`: the first client in memory with that id. */
    function GetClientById(id: string): (r: Option<Client>)
      reads this
      ensures r.None? <==> !Records.HasId(clients, ClientId, id)
      ensures r.Some? ==> Records.FirstWithId(clients, ClientId, id, r.value)
      ensures r.Some? ==> r.value in clients && r.value.id == id
    {
      Records.FindFirst(clients, ClientId, id)
    }

    /** `addClient(client)`: append `{ id, ...client }` and persist. */
    method AddClient(data: ClientData, newId: string)
      modifies this, storage
      ensures clients == old(clients) + [NewClient(newId, data)]
      ensures storage.items == old(storage.items)[ClientsKey := ClientList(clients)]
      ensures storage.GetInvoices() == old(storage.GetInvoices())
      ensures Synced()
    {
      var updated := clients + [NewClient(newId, data)];
      clients := updated;
      storage.SaveClients(updated);
    }

    /** `updateClient(id, fields)`: merge the fields into every client with that id, persist. */
    method UpdateClient(id: string, patch: ClientPatch)
      modifies this, storage
      ensures clients == Records.UpdateWhere(old(clients), ClientId, id, MergeWith(patch))
      ensures storage.items == old(storage.items)[ClientsKey := ClientList(clients)]
      ensures storage.GetInvoices() == old(storage.GetInvoices())
      ensures Synced()
    {
      var updated := Records.UpdateWhere(clients, ClientId, id, MergeWith(patch));
      clients := updated;
      storage.SaveClients(updated);
    }

    /**
     * `deleteClient(id)`: drop every client with that id, persist. Invoices
     * that name the client are left as they are.
     */
    method DeleteClient(id: string)
      modifies this, storage
      ensures clients == Records.RemoveId(old(clients), ClientId, id)
      ensures storage.items == old(storage.items)[ClientsKey := ClientList(clients)]
      ensures storage.GetInvoices() == old(storage.GetInvoices())
      ensures Synced()
    {
      var updated := Records.RemoveId(clients, ClientId, id);
      clients := updated;
      storage.SaveClients(updated);
    }
  }
}
