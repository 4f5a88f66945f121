/** The roster page `src/pages/Clients.tsx`: a search over the loaded roster, one form that
    either edits the client being edited or adds a new client at the front, and a delete
    that files a tombstone before dropping the client. The page works in the roster client
    shape (`firstName`, `lastName`, `condition`). */
module ClientsPage {
  import opened Common
  import Store

  /** The form's five fields. */
  datatype ClientForm = ClientForm(firstName: string, lastName: string, email: string, phone: string, condition: string)

  function OrEmpty(s: Option<string>): string {
    if s.Some? then s.value else ""
  }

  /** The search keeps a client when the lower-cased query occurs in the lower-cased first
      name, last name, email or condition (a missing condition reads as ""). */
  predicate MatchesSearch(c: Store.RosterClient, search: string) {
    var q := ToLower(search);
    Contains(ToLower(c.firstName), q) || Contains(ToLower(c.lastName), q)
    || Contains(ToLower(c.email), q) || Contains(ToLower(OrEmpty(c.condition)), q)
  }

  /** `filtered`. */
  function Search(clients: seq<Store.RosterClient>, search: string): seq<Store.RosterClient> {
    Filter(clients, (c: Store.RosterClient) => MatchesSearch(c, search))
  }

  /** The search keeps exactly the matching clients, each as often as it occurs and in roster
      order; an empty query keeps everyone. */
  lemma {:induction false} SearchSpec(a: seq<Store.RosterClient>, b: seq<Store.RosterClient>, search: string)
    ensures forall c :: c in Search(a, search) <==> c in a && MatchesSearch(c, search)
    ensures forall c :: MatchesSearch(c, search) ==> multiset(Search(a, search))[c] == multiset(a)[c]
    ensures Search(a + b, search) == Search(a, search) + Search(b, search)
    ensures search == "" ==> Search(a, search) == a
  {
    var p := (c: Store.RosterClient) => MatchesSearch(c, search);
    FilterMembers(a, p);
    FilterConcat(a, b, p);
    forall c | MatchesSearch(c, search)
      ensures multiset(Search(a, search))[c] == multiset(a)[c]
    {
      FilterMultiplicity(a, p, c);
    }
    if search == "" {
      forall i | 0 <= i < |a| ensures p(a[i]) {
        ContainsEmpty(ToLower(a[i].firstName));
      }
      FilterKeepsAll(a, p);
    }
  }

  /** The edit branch of `handleSubmit`: every client with the edited id takes the form's five
      fields; the others are kept as they are. */
  function EditClients(clients: seq<Store.RosterClient>, editedId: string, form: ClientForm): (r: seq<Store.RosterClient>)
    ensures |r| == |clients|
    ensures forall i :: 0 <= i < |r| && clients[i].id != editedId ==> r[i] == clients[i]
    ensures forall i :: 0 <= i < |r| && clients[i].id == editedId ==>
              r[i] == Store.RosterClient(clients[i].id, form.firstName, form.lastName, form.email,
                                         Some(form.phone), Some(form.condition), clients[i].createdAt)
  {
    seq(|clients|, i requires 0 <= i < |clients| =>
      if clients[i].id == editedId
      then clients[i].(firstName := form.firstName, lastName := form.lastName, email := form.email,
                       phone := Some(form.phone), condition := Some(form.condition))
      else clients[i])
  }

  /** The add branch: a new client (id and creation time supplied) in front of the roster. */
  function AddClient(clients: seq<Store.RosterClient>, newId: string, form: ClientForm, now: int): (r: seq<Store.RosterClient>)
    ensures |r| == |clients| + 1 && r[1..] == clients
    ensures r[0] == Store.RosterClient(newId, form.firstName, form.lastName, form.email, Some(form.phone), Some(form.condition), now)
  {
    [Store.RosterClient(newId, form.firstName, form.lastName, form.email, Some(form.phone), Some(form.condition), now)] + clients
  }

  /** `clients.filter(c => c.id !== id)`. */
  function WithoutClient(clients: seq<Store.RosterClient>, id: string): seq<Store.RosterClient> {
    Filter(clients, (c: Store.RosterClient) => c.id != id)
  }

  /** Deleting drops every client with that id, keeps every other one as often as it occurred
      and keeps their order. */
  lemma {:induction false} WithoutClientSpec(a: seq<Store.RosterClient>, b: seq<Store.RosterClient>, id: string)
    ensures forall c :: c in WithoutClient(a, id) <==> c in a && c.id != id
    ensures forall c: Store.RosterClient :: c.id != id ==> multiset(WithoutClient(a, id))[c] == multiset(a)[c]
    ensures WithoutClient(a + b, id) == WithoutClient(a, id) + WithoutClient(b, id)
  {
    var p := (c: Store.RosterClient) => c.id != id;
    FilterMembers(a, p);
    FilterConcat(a, b, p);
    forall c: Store.RosterClient | c.id != id
      ensures multiset(WithoutClient(a, id))[c] == multiset(a)[c]
    {
      FilterMultiplicity(a, p, c);
    }
  }

  /** The tombstone filed for a deleted client: its id, names and email, and the time. */
  function TombstoneOf(c: Store.RosterClient, now: int): Store.RosterTombstone {
    Store.RosterTombstone(c.id, c.firstName, c.lastName, c.email, now)
  }

  class RosterPage {
    const storage: Store.LocalStorage
    var clients: seq<Store.RosterClient>
    var search: string
    var modalOpen: bool
    var editingClient: Option<Store.RosterClient>
    var form: ClientForm

    /** Mounting loads the stored roster (clearing a corrupt entry). */
    constructor (storage: Store.LocalStorage)
      modifies storage
      ensures this.storage == storage && search == "" && !modalOpen && editingClient == None
      ensures clients == Store.LoadRoster(old(storage.items))
      ensures storage.items == Store.AfterRead(old(storage.items), Store.ClientsKey)
    {
      this.storage := storage;
      search := "";
      modalOpen := false;
      editingClient := None;
      form := ClientForm("", "", "", "", "");
      new;
      clients := storage.GetRoster();
    }

    /** The clients the list shows. */
    function Filtered(): seq<Store.RosterClient>
      reads this
    {
      Search(clients, search)
    }

    /** `openAdd`: an empty form for a new client. */
    method OpenAdd()
      modifies this`editingClient, this`form, this`modalOpen
      ensures editingClient == None && form == ClientForm("", "", "", "", "") && modalOpen
    {
      editingClient := None;
      form := ClientForm("", "", "", "", "");
      modalOpen := true;
    }

    /** `openEdit(c)`: the form shows `c` (missing phone or condition as ""). */
    method OpenEdit(c: Store.RosterClient)
      modifies this`editingClient, this`form, this`modalOpen
      ensures editingClient == Some(c) && modalOpen
      ensures form == ClientForm(c.firstName, c.lastName, c.email, OrEmpty(c.phone), OrEmpty(c.condition))
    {
      editingClient := Some(c);
      form := ClientForm(c.firstName, c.lastName, c.email, OrEmpty(c.phone), OrEmpty(c.condition));
      modalOpen := true;
    }

    /** `handleSubmit`: edits the client being edited, or adds a new one (id and time supplied)
        at the front; the roster is saved and the form closed. */
    method HandleSubmit(newId: string, now: int, written: bool)
      modifies this`clients, this`modalOpen, storage
      ensures clients == if editingClient.Some? then EditClients(old(clients), editingClient.value.id, form)
                         else AddClient(old(clients), newId, form, now)
      ensures storage.items == if written then old(storage.items)[Store.ClientsKey := Store.Json(Store.RosterDoc(clients))]
                               else old(storage.items)
      ensures !modalOpen
    {
      var updated;
      if editingClient.Some? {
        updated := EditClients(clients, editingClient.value.id, form);
      } else {
        updated := AddClient(clients, newId, form, now);
      }
      clients := updated;
      storage.SaveRoster(updated, written);
      modalOpen := false;
    }

    /** `handleDelete(id)`: nothing happens for an unknown id or a declined confirmation;
        otherwise a tombstone for the first client with that id goes in front of the stored
        tombstones, and every client with that id leaves the roster. */
    method HandleDelete(id: string, confirmed: bool, now: int, tombstoneWritten: bool, rosterWritten: bool)
      modifies this`clients, storage
      ensures var found := FindFirst(old(clients), (c: Store.RosterClient) => c.id == id);
              found.None? || !confirmed ==> clients == old(clients) && storage.items == old(storage.items)
      ensures var found := FindFirst(old(clients), (c: Store.RosterClient) => c.id == id);
              found.Some? && confirmed ==>
                var tombstones := [TombstoneOf(old(clients)[found.value], now)] + Store.LoadTombstones(old(storage.items));
                var afterRead := Store.AfterRead(old(storage.items), Store.DeletedClientsKey);
                var afterTombstone := if tombstoneWritten then afterRead[Store.DeletedClientsKey := Store.Json(Store.TombstonesDoc(tombstones))]
                                      else afterRead;
                clients == WithoutClient(old(clients), id)
                && storage.items == if rosterWritten then afterTombstone[Store.ClientsKey := Store.Json(Store.RosterDoc(clients))]
                                    else afterTombstone
    {
      var found := FindFirst(clients, (c: Store.RosterClient) => c.id == id);
      if found.None? {
        return;
      }
      var client := clients[found.value];
      if !confirmed {
        return;
      }
      var deleted := storage.GetTombstones();
      deleted := [TombstoneOf(client, now)] + deleted;
      storage.SaveTombstones(deleted, tombstoneWritten);
      var updated := WithoutClient(clients, id);
      clients := updated;
      storage.SaveRoster(updated, rosterWritten);
    }
  }

  /** A confirmed delete of a listed client leaves no client with that id, files its tombstone
      first, and keeps the stored tombstones after it. */
  lemma DeleteFilesTombstone(clients: seq<Store.RosterClient>, items: map<string, Store.Cell>, id: string, now: int)
    requires FindFirst(clients, (c: Store.RosterClient) => c.id == id).Some?
    ensures var k := FindFirst(clients, (c: Store.RosterClient) => c.id == id).value;
            var tombstones := [TombstoneOf(clients[k], now)] + Store.LoadTombstones(items);
            var stored := Store.AfterRead(items, Store.DeletedClientsKey)[Store.DeletedClientsKey := Store.Json(Store.TombstonesDoc(tombstones))];
            Store.LoadTombstones(stored)[0] == Store.RosterTombstone(id, clients[k].firstName, clients[k].lastName, clients[k].email, now)
            && Store.LoadTombstones(stored)[1..] == Store.LoadTombstones(items)
    ensures forall c :: c in WithoutClient(clients, id) ==> c.id != id
    ensures |WithoutClient(clients, id)| < |clients|
  {
    var k := FindFirst(clients, (c: Store.RosterClient) => c.id == id).value;
    WithoutClientSpec(clients, [], id);
    assert clients[k] in multiset(clients);
    assert clients[k] !in WithoutClient(clients, id);
    WithoutClientCount(clients, id);
  }

  /** Deleting an id that occurs drops at least one client. */
  lemma {:induction false} WithoutClientCount(clients: seq<Store.RosterClient>, id: string)
    requires exists i :: 0 <= i < |clients| && clients[i].id == id
    ensures |WithoutClient(clients, id)| < |clients|
  {
    if clients[0].id == id {
      assert WithoutClient(clients, id) == WithoutClient(clients[1..], id);
    } else {
      assert WithoutClient(clients, id) == [clients[0]] + WithoutClient(clients[1..], id);
      var i :| 0 <= i < |clients| && clients[i].id == id;
      assert clients[1..][i - 1].id == id;
      WithoutClientCount(clients[1..], id);
    }
  }
}
