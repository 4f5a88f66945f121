/** The plain script `js/dashboard.js`: the signed-in check on load and the clients page whose
    closure holds the loaded client list, the status filter, the name search, the add-client
    form and the profile view's status, session and save buttons. Client objects are changed
    in place and the whole list is written back after each change. */
module LegacyDashboard {
  import opened Common
  import Store

  // ---------------------------------------------------------------------------
  // Loading
  // ---------------------------------------------------------------------------

  /** Where the page lands on load. */
  datatype Landing =
    | ToLogin                                      // no signed-in user: redirect to index.html
    | Broken                                       // a stored value made `JSON.parse` throw
    | ClientsPage(clients: seq<Store.LegacyClient>)

  /** `JSON.parse(localStorage.getItem(key))`: nothing stored parses as `null`, any text that
      is not JSON (the empty string too) throws. */
  function ParseItem(items: map<string, Store.Cell>, key: string): Outcome<Option<Store.Doc>> {
    var raw := Store.Lookup(items, key);
    if raw.None? then Ok(None)
    else if raw.value.Text? then Err("SyntaxError: JSON.parse")
    else Ok(Some(raw.value.doc))
  }

  /** `!userData` holds for `null` (nothing stored, or a stored null user); any stored object
      passes. */
  predicate NoUser(doc: Option<Store.Doc>) {
    doc.None? || doc == Some(Store.UserDataDoc(None))
  }

  /** `JSON.parse(localStorage.getItem('therapyClients')) || []`. */
  function LoadLegacy(items: map<string, Store.Cell>): Outcome<seq<Store.LegacyClient>> {
    var r := ParseItem(items, Store.ClientsKey);
    if r.Err? then Err(r.message)
    else if r.value.Some? && r.value.value.LegacyClientsDoc? then Ok(r.value.value.legacy)
    else Ok([])
  }

  /** The load handler: the user check first, then the clients page's read. */
  function LandingOf(items: map<string, Store.Cell>): Landing {
    var user := ParseItem(items, Store.UserDataKey);
    if user.Err? then Broken
    else if NoUser(user.value) then ToLogin
    else match LoadLegacy(items)
         case Err(_) => Broken
         case Ok(cs) => ClientsPage(cs)
  }

  /** The page opens only for a signed-in user with a readable client list; without a user it
      redirects whatever the list holds; corrupt text under either key breaks the page. */
  lemma LandingSpec(items: map<string, Store.Cell>)
    ensures LandingOf(items).ClientsPage? <==>
              ParseItem(items, Store.UserDataKey).Ok? && !NoUser(ParseItem(items, Store.UserDataKey).value)
              && LoadLegacy(items).Ok?
    ensures Store.UserDataKey !in items ==> LandingOf(items) == ToLogin
    ensures LandingOf(items).ClientsPage? ==> LandingOf(items).clients == LoadLegacy(items).value
    ensures (Store.ClientsKey in items && items[Store.ClientsKey].Text?) ==> !LandingOf(items).ClientsPage?
    ensures Store.ClientsKey !in items && LandingOf(items).ClientsPage? ==> LandingOf(items).clients == []
  {
  }

  // ---------------------------------------------------------------------------
  // Filter and search
  // ---------------------------------------------------------------------------

  /** `filterClients(clients, filter)`. */
  function FilterClients(clients: seq<Store.LegacyClient>, filter: string): seq<Store.LegacyClient> {
    if filter == "active" then Filter(clients, (c: Store.LegacyClient) => c.status == "active")
    else if filter == "completed" then Filter(clients, (c: Store.LegacyClient) => c.status == "completed")
    else clients
  }

  /** The "active" and "completed" tabs keep exactly the clients with that status, as often as
      they occur; every other filter keeps the list as it is. */
  lemma FilterClientsSpec(clients: seq<Store.LegacyClient>, filter: string)
    ensures filter == "active" || filter == "completed" ==>
              (forall c :: c in FilterClients(clients, filter) <==> c in clients && c.status == filter)
              && (forall c: Store.LegacyClient :: c.status == filter ==> multiset(FilterClients(clients, filter))[c] == multiset(clients)[c])
    ensures filter != "active" && filter != "completed" ==> FilterClients(clients, filter) == clients
  {
    if filter == "active" || filter == "completed" {
      var p := (c: Store.LegacyClient) => c.status == filter;
      assert FilterClients(clients, filter) == Filter(clients, p);
      FilterMembers(clients, p);
      forall c: Store.LegacyClient | c.status == filter
        ensures multiset(FilterClients(clients, filter))[c] == multiset(clients)[c]
      {
        FilterMultiplicity(clients, p, c);
      }
    }
  }

  /** The search box: the lower-cased name contains the lower-cased term. */
  predicate NameMatches(c: Store.LegacyClient, term: string) {
    Contains(ToLower(c.name), ToLower(term))
  }

  /** The search handler's list: the name search, then the current status filter. */
  function SearchView(clients: seq<Store.LegacyClient>, term: string, filter: string): seq<Store.LegacyClient> {
    FilterClients(Filter(clients, (c: Store.LegacyClient) => NameMatches(c, term)), filter)
  }

  /** A client is listed exactly when its name matches and it passes the status filter; an
      empty term keeps every name. */
  lemma SearchViewSpec(clients: seq<Store.LegacyClient>, term: string, filter: string)
    ensures forall c :: c in SearchView(clients, term, filter) <==>
              c in clients && NameMatches(c, term)
              && (filter == "active" || filter == "completed" ==> c.status == filter)
    ensures term == "" ==> SearchView(clients, term, filter) == FilterClients(clients, filter)
  {
    var p := (c: Store.LegacyClient) => NameMatches(c, term);
    var named := Filter(clients, p);
    FilterMembers(clients, p);
    FilterClientsSpec(named, filter);
    if term == "" {
      forall i | 0 <= i < |clients| ensures p(clients[i]) {
        ContainsEmpty(ToLower(clients[i].name));
      }
      FilterKeepsAll(clients, p);
    }
  }

  // ---------------------------------------------------------------------------
  // Sessions
  // ---------------------------------------------------------------------------

  /** One session-button listener: "−" takes one off a positive count, the other button adds
      one. */
  function SessionStep(sessions: int, minus: bool): int {
    if minus then (if sessions > 0 then sessions - 1 else sessions) else sessions + 1
  }

  /** `n` listeners run one after the other on the same client. */
  function SessionSteps(sessions: int, minus: bool, n: nat): int {
    if n == 0 then sessions else SessionStep(SessionSteps(sessions, minus, n - 1), minus)
  }

  /** A single step never takes a count below zero that was not already below it. */
  lemma SessionStepFloor(sessions: int, minus: bool)
    ensures sessions >= 0 ==> SessionStep(sessions, minus) >= 0
    ensures !minus ==> SessionStep(sessions, minus) == sessions + 1
    ensures minus && sessions > 0 ==> SessionStep(sessions, minus) == sessions - 1
    ensures minus && sessions <= 0 ==> SessionStep(sessions, minus) == sessions
  {
  }

  /** `n` listeners add `n` sessions, or take off `n` down to zero. */
  lemma {:induction false} SessionStepsClosedForm(sessions: int, minus: bool, n: nat)
    ensures SessionSteps(sessions, minus, n) ==
              if !minus then sessions + n
              else if sessions <= 0 then sessions
              else Max(0, sessions - n)
  {
    if n > 0 {
      SessionStepsClosedForm(sessions, minus, n - 1);
    }
  }

  /** Two profile views leave two listeners on the "+" button, so one click adds two
      sessions where one was meant. */
  lemma TwoViewsOneClick()
    ensures SessionSteps(0, false, 2) == 2
    ensures SessionStep(0, false) == 1
    ensures SessionSteps(3, true, 2) == 1 && SessionStep(3, true) == 2
  {
    SessionStepsClosedForm(0, false, 2);
    SessionStepsClosedForm(3, true, 2);
  }

  // ---------------------------------------------------------------------------
  // The clients page
  // ---------------------------------------------------------------------------

  /** The add-client form's inputs. */
  datatype AddForm = AddForm(name: string, age: string, email: string, phone: string)

  /** The profile view's free-text fields, as the save button reads them. */
  datatype ProfileDetails = ProfileDetails(
    occupation: string,
    chiefComplaints: string,
    hopi: string,
    sessionNotes: string,
    nextSessionDate: string,
    followUpNotes: string)

  const ContactMessage := "Please provide either email or phone number"

  /** The new client: id `Date.now()`, `parseInt` of the age, status "active", no sessions and
      empty profile fields, created at the given ISO time. */
  function NewLegacyClient(form: AddForm, now: int, isoNow: string): Store.LegacyClient {
    Store.LegacyClient(now, form.name, ParseInt(form.age), form.email, form.phone, "active", 0,
                       "", "", "", "", "", "", isoNow)
  }

  /** `clients.find(c => c.id === currentClientId)` (no client matches `null`). */
  function CurrentIndex(clients: seq<Store.LegacyClient>, id: Option<int>): (r: Option<nat>)
    ensures r.Some? ==> r.value < |clients| && id == Some(clients[r.value].id)
    ensures r.Some? ==> forall j :: 0 <= j < r.value ==> id != Some(clients[j].id)
    ensures r.None? ==> forall j :: 0 <= j < |clients| ==> id != Some(clients[j].id)
  {
    FindFirst(clients, (c: Store.LegacyClient) => id == Some(c.id))
  }

  /** Replacing a client by one with the same id does not move the current client. */
  lemma CurrentIndexAfterUpdate(clients: seq<Store.LegacyClient>, id: Option<int>, k: nat, c: Store.LegacyClient)
    requires k < |clients| && c.id == clients[k].id
    ensures CurrentIndex(clients[k := c], id) == CurrentIndex(clients, id)
  {
    assert forall j :: 0 <= j < |clients| ==> clients[k := c][j].id == clients[j].id;
  }

  class ClientsScript {
    const storage: Store.LocalStorage
    var clients: seq<Store.LegacyClient>
    var currentFilter: string
    var currentClientId: Option<int>
    /** How many times `addProfileEventListeners` ran: each run adds one more click listener
        to every status, session and save button, and none is ever removed. */
    var profileViews: nat

    constructor (storage: Store.LocalStorage, clients: seq<Store.LegacyClient>)
      ensures this.storage == storage && this.clients == clients
      ensures currentFilter == "all" && currentClientId == None && profileViews == 0
    {
      this.storage := storage;
      this.clients := clients;
      currentFilter := "all";
      currentClientId := None;
      profileViews := 0;
    }

    /** The list the current tab selects. */
    function Shown(): seq<Store.LegacyClient>
      reads this
    {
      FilterClients(clients, currentFilter)
    }

    /** A filter tab: the filter becomes current. */
    method ChooseFilter(filter: string)
      modifies this`currentFilter
      ensures currentFilter == filter && Shown() == FilterClients(clients, filter)
    {
      currentFilter := filter;
    }

    /** The add-client form: refused with an alert when both email and phone are empty;
        otherwise the new client is pushed at the end of the list and the list is written
        (the push stands even when the write throws). */
    method Submit(form: AddForm, now: int, isoNow: string, written: bool) returns (r: Outcome<Store.LegacyClient>)
      modifies this`clients, storage
      ensures form.email == "" && form.phone == "" ==>
                r == Err(ContactMessage) && clients == old(clients) && storage.items == old(storage.items)
      ensures form.email != "" || form.phone != "" ==>
                r == Ok(NewLegacyClient(form, now, isoNow)) && clients == old(clients) + [r.value]
                && storage.items == if written then old(storage.items)[Store.ClientsKey := Store.Json(Store.LegacyClientsDoc(clients))]
                                    else old(storage.items)
    {
      if form.email == "" && form.phone == "" {
        return Err(ContactMessage);
      }
      var client := NewLegacyClient(form, now, isoNow);
      clients := clients + [client];
      storage.SetItem(Store.ClientsKey, Store.LegacyClientsDoc(clients), written);
      r := Ok(client);
    }

    /** A client card: an unknown id does nothing; otherwise that client becomes current and
        another set of profile listeners is added. */
    method ShowProfile(clientId: int)
      modifies this`currentClientId, this`profileViews
      ensures CurrentIndex(clients, Some(clientId)).None? ==>
                currentClientId == old(currentClientId) && profileViews == old(profileViews)
      ensures CurrentIndex(clients, Some(clientId)).Some? ==>
                currentClientId == Some(clientId) && profileViews == old(profileViews) + 1
    {
      if CurrentIndex(clients, Some(clientId)).None? {
        return;
      }
      currentClientId := Some(clientId);
      profileViews := profileViews + 1;
    }

    /** A status button: the current client, and no other, takes the status, and the list is
        written. Each extra listener repeats the same assignment and write. */
    method ClickStatus(status: string, written: bool)
      modifies this`clients, storage
      ensures var k := CurrentIndex(old(clients), currentClientId);
              k.None? ==> clients == old(clients) && storage.items == old(storage.items)
      ensures var k := CurrentIndex(old(clients), currentClientId);
              k.Some? ==>
                |clients| == |old(clients)|
                && clients[k.value] == old(clients)[k.value].(status := status)
                && (forall j :: 0 <= j < |clients| && j != k.value ==> clients[j] == old(clients)[j])
                && storage.items == if written then old(storage.items)[Store.ClientsKey := Store.Json(Store.LegacyClientsDoc(clients))]
                                    else old(storage.items)
    {
      var k := CurrentIndex(clients, currentClientId);
      if k.None? {
        return;
      }
      clients := clients[k.value := clients[k.value].(status := status)];
      storage.SetItem(Store.ClientsKey, Store.LegacyClientsDoc(clients), written);
    }

    /** A session button as the script behaves: every listener added by a profile view runs,
        each finding the current client again, stepping its count and writing the list. */
    method ClickSessionAsWritten(minus: bool, written: bool)
      modifies this`clients, storage
      ensures var k := CurrentIndex(old(clients), currentClientId);
              k.None? || profileViews == 0 ==> clients == old(clients) && storage.items == old(storage.items)
      ensures var k := CurrentIndex(old(clients), currentClientId);
              k.Some? && profileViews > 0 ==>
                clients == old(clients)[k.value := old(clients)[k.value].(sessions := SessionSteps(old(clients)[k.value].sessions, minus, profileViews))]
                && storage.items == if written then old(storage.items)[Store.ClientsKey := Store.Json(Store.LegacyClientsDoc(clients))]
                                    else old(storage.items)
    {
      var k0 := CurrentIndex(clients, currentClientId);
      ghost var start := clients;
      var i := 0;
      while i < profileViews
        invariant 0 <= i <= profileViews
        invariant k0.None? ==> clients == start && storage.items == old(storage.items)
        invariant k0.Some? ==> clients == start[k0.value := start[k0.value].(sessions := SessionSteps(start[k0.value].sessions, minus, i))]
        invariant k0.Some? ==> storage.items == if written && i > 0 then old(storage.items)[Store.ClientsKey := Store.Json(Store.LegacyClientsDoc(clients))]
                                                else old(storage.items)
      {
        var k := CurrentIndex(clients, currentClientId);
        if k0.Some? {
          CurrentIndexAfterUpdate(start, currentClientId, k0.value, clients[k0.value]);
        }
        if k.Some? {
          clients := clients[k.value := clients[k.value].(sessions := SessionStep(clients[k.value].sessions, minus))];
          storage.SetItem(Store.ClientsKey, Store.LegacyClientsDoc(clients), written);
        }
        i := i + 1;
      }
    }

    /** A session button as intended: one step on the current client, however many times a
        profile was shown. */
    method ClickSession(minus: bool, written: bool)
      modifies this`clients, storage
      ensures var k := CurrentIndex(old(clients), currentClientId);
              k.None? ==> clients == old(clients) && storage.items == old(storage.items)
      ensures var k := CurrentIndex(old(clients), currentClientId);
              k.Some? ==>
                clients == old(clients)[k.value := old(clients)[k.value].(sessions := SessionStep(old(clients)[k.value].sessions, minus))]
                && storage.items == if written then old(storage.items)[Store.ClientsKey := Store.Json(Store.LegacyClientsDoc(clients))]
                                    else old(storage.items)
    {
      var k := CurrentIndex(clients, currentClientId);
      if k.None? {
        return;
      }
      clients := clients[k.value := clients[k.value].(sessions := SessionStep(clients[k.value].sessions, minus))];
      storage.SetItem(Store.ClientsKey, Store.LegacyClientsDoc(clients), written);
    }

    /** The save button: the current client takes the six profile fields and the list is
        written; the returned count is how many success alerts appear (one per listener). */
    method ClickSave(details: ProfileDetails, written: bool) returns (alerts: nat)
      modifies this`clients, storage
      ensures var k := CurrentIndex(old(clients), currentClientId);
              k.None? ==> clients == old(clients) && storage.items == old(storage.items) && alerts == 0
      ensures var k := CurrentIndex(old(clients), currentClientId);
              k.Some? ==>
                clients == old(clients)[k.value := old(clients)[k.value].(
                  occupation := details.occupation, chiefComplaints := details.chiefComplaints, hopi := details.hopi,
                  sessionNotes := details.sessionNotes, nextSessionDate := details.nextSessionDate,
                  followUpNotes := details.followUpNotes)]
                && storage.items == (if written then old(storage.items)[Store.ClientsKey := Store.Json(Store.LegacyClientsDoc(clients))]
                                     else old(storage.items))
                && alerts == (if written then profileViews else 0)
    {
      var k := CurrentIndex(clients, currentClientId);
      if k.None? {
        return 0;
      }
      clients := clients[k.value := clients[k.value].(
        occupation := details.occupation, chiefComplaints := details.chiefComplaints, hopi := details.hopi,
        sessionNotes := details.sessionNotes, nextSessionDate := details.nextSessionDate,
        followUpNotes := details.followUpNotes)];
      storage.SetItem(Store.ClientsKey, Store.LegacyClientsDoc(clients), written);
      alerts := if written then profileViews else 0;
    }
  }

  /** The load handler: the page exists only when `LandingOf` says so, holding the stored
      list with the "all" filter and no current client. */
  method Mount(storage: Store.LocalStorage) returns (page: Option<ClientsScript>)
    ensures page.Some? <==> LandingOf(storage.items).ClientsPage?
    ensures page.Some? ==> fresh(page.value) && page.value.storage == storage
                           && page.value.clients == LandingOf(storage.items).clients
                           && page.value.currentFilter == "all" && page.value.currentClientId == None
                           && page.value.profileViews == 0
  {
    var landing := LandingOf(storage.items);
    if !landing.ClientsPage? {
      return None;
    }
    var p := new ClientsScript(storage, landing.clients);
    page := Some(p);
  }
}
