/** The shared types and helpers of `src/utils/store.ts`: the record shapes the React pages
    persist, the browser's key-value storage (an in-memory map from key to stored value), the
    `CL-###` client-ID generator and the time-formatting helpers. */
module Store {
  import opened Common

  // ---------------------------------------------------------------------------
  // Records
  // ---------------------------------------------------------------------------

  datatype SessionRecord = SessionRecord(
    id: string,
    date: string,
    notes: string,
    followUpDate: string,
    followUpNotes: string)

  datatype ClientStatus = Active | Completed

  /** A client. `createdAt` is `None` when the stored object lacks it; a missing `clientId`
      is the empty string. */
  datatype Client = Client(
    id: string,
    clientId: string,
    name: string,
    email: string,
    phone: string,
    gender: string,
    relationshipStatus: string,
    age: int,
    occupation: string,
    status: ClientStatus,
    sessionCount: int,
    chiefComplaints: string,
    hopi: string,
    sessionHistory: seq<SessionRecord>,
    createdAt: Option<int>)

  /** The tombstone kept when a client leaves the active roster. */
  datatype DeletedClient = DeletedClient(
    id: string,
    clientId: string,
    name: string,
    email: string,
    deletedAt: int)

  /** The client shape that `src/pages/Clients.tsx` and `src/dashboard.ts` declare for the
      same stored roster; `phone` and `condition` are `None` when the object lacks them. */
  datatype RosterClient = RosterClient(
    id: string,
    firstName: string,
    lastName: string,
    email: string,
    phone: Option<string>,
    condition: Option<string>,
    createdAt: int)

  /** The tombstone shape those two files declare. */
  datatype RosterTombstone = RosterTombstone(
    id: string,
    firstName: string,
    lastName: string,
    email: string,
    deletedAt: int)

  /** The client shape of the plain script `js/dashboard.js`: a numeric id, `age` as
      `parseInt` left it (`None` for NaN), and a free-form status. */
  datatype LegacyClient = LegacyClient(
    id: int,
    name: string,
    age: Option<int>,
    email: string,
    phone: string,
    status: string,
    sessions: int,
    occupation: string,
    chiefComplaints: string,
    hopi: string,
    sessionNotes: string,
    nextSessionDate: string,
    followUpNotes: string,
    createdAt: string)

  /** `clientAge` is `None` when the field was left empty or did not parse. */
  datatype Appointment = Appointment(
    id: string,
    clientName: string,
    clientAge: Option<int>,
    dateTime: int,
    duration: Option<int>,
    notes: Option<string>)

  datatype Session = Session(id: string, clientName: string, scheduledDate: int, kind: string)

  /** One day's earnings; `month` counts from 0 and `amount` is in paise. */
  datatype Earning = Earning(id: string, day: int, month: int, year: int, amount: int, timestamp: int)

  datatype ThemeMode = Light | Dark | System

  datatype UserData = UserData(
    email: string,
    name: string,
    id: Option<string>,
    registeredAt: Option<string>,
    avatar: Option<string>,
    theme: Option<ThemeMode>,
    notificationsEnabled: Option<bool>)

  datatype Density = Compact | Comfortable
  datatype SidebarBehavior = Expanded | Collapsed
  datatype Language = En | Hi | Ta | Es | Fr
  datatype TimeFormat = TwelveHour | TwentyFourHour

  datatype SiteSettings = SiteSettings(
    themeMode: ThemeMode,
    density: Density,
    sidebarBehavior: SidebarBehavior,
    language: Language,
    timeFormat: TimeFormat,
    accentColor: string,
    practiceName: string)

  const DefaultSiteSettings := SiteSettings(System, Comfortable, Expanded, En, TwelveHour, "#667eea", "Therapy")

  // ---------------------------------------------------------------------------
  // Storage: key -> stored string, with JSON encoding kept abstract
  // ---------------------------------------------------------------------------

  const ClientsKey := "therapyClients"
  const DeletedClientsKey := "therapyDeletedClients"
  const AppointmentsKey := "therapyAppointments"
  const SessionsKey := "therapySessions"
  const EarningsKey := "therapyEarnings"
  const UserDataKey := "userData"
  const SiteSettingsKey := "siteSettings"

  /** A JSON document as `JSON.stringify` wrote it. */
  datatype Doc =
    | ClientsDoc(clients: seq<Client>)
    | DeletedClientsDoc(deleted: seq<DeletedClient>)
    | AppointmentsDoc(appointments: seq<Appointment>)
    | SessionsDoc(sessions: seq<Session>)
    | EarningsDoc(earnings: seq<Earning>)
    | UserDataDoc(user: Option<UserData>)
    | SiteSettingsDoc(settings: SiteSettings)
    | RosterDoc(roster: seq<RosterClient>)
    | TombstonesDoc(tombstones: seq<RosterTombstone>)
    | LegacyClientsDoc(legacy: seq<LegacyClient>)

  /** A stored string: the encoding of a document, or text that `JSON.parse` rejects
      (the empty string among them). */
  datatype Cell = Json(doc: Doc) | Text(raw: string)

  /** What `safeParse` decides: use the fallback (clearing the key when the text was corrupt),
      or use the decoded document. */
  datatype Parse = Fallback(clearKey: bool) | Parsed(doc: Doc)

  function Lookup(items: map<string, Cell>, key: string): Option<Cell> {
    if key in items then Some(items[key]) else None
  }

  /** `safeParse`: an absent or empty value gives the fallback; corrupt text gives the fallback
      and the key is removed; anything else is decoded. */
  function SafeParse(raw: Option<Cell>): Parse {
    match raw
    case None => Fallback(false)
    case Some(Text(t)) => Fallback(t != "")
    case Some(Json(d)) => Parsed(d)
  }

  /** The document a read of `key` yields, if any. */
  function Read(items: map<string, Cell>, key: string): Option<Doc> {
    match SafeParse(Lookup(items, key))
    case Parsed(d) => Some(d)
    case Fallback(_) => None
  }

  /** The storage after a read of `key`: corrupt text under that key is removed. */
  function AfterRead(items: map<string, Cell>, key: string): map<string, Cell> {
    if SafeParse(Lookup(items, key)) == Fallback(true) then items - {key} else items
  }

  function LoadClients(items: map<string, Cell>): seq<Client> {
    match Read(items, ClientsKey)
    case Some(ClientsDoc(cs)) => cs
    case _ => []
  }

  /** `getClients()` as the roster page reads it, in its own client shape. */
  function LoadRoster(items: map<string, Cell>): seq<RosterClient> {
    match Read(items, ClientsKey)
    case Some(RosterDoc(cs)) => cs
    case _ => []
  }

  /** `getDeletedClients()` as the roster page reads it. */
  function LoadTombstones(items: map<string, Cell>): seq<RosterTombstone> {
    match Read(items, DeletedClientsKey)
    case Some(TombstonesDoc(ts)) => ts
    case _ => []
  }

  function LoadDeletedClients(items: map<string, Cell>): seq<DeletedClient> {
    match Read(items, DeletedClientsKey)
    case Some(DeletedClientsDoc(ds)) => ds
    case _ => []
  }

  function LoadAppointments(items: map<string, Cell>): seq<Appointment> {
    match Read(items, AppointmentsKey)
    case Some(AppointmentsDoc(xs)) => xs
    case _ => []
  }

  function LoadSessions(items: map<string, Cell>): seq<Session> {
    match Read(items, SessionsKey)
    case Some(SessionsDoc(xs)) => xs
    case _ => []
  }

  function LoadEarnings(items: map<string, Cell>): seq<Earning> {
    match Read(items, EarningsKey)
    case Some(EarningsDoc(xs)) => xs
    case _ => []
  }

  function LoadUserData(items: map<string, Cell>): Option<UserData> {
    match Read(items, UserDataKey)
    case Some(UserDataDoc(u)) => u
    case _ => None
  }

  function LoadSiteSettings(items: map<string, Cell>): SiteSettings {
    match Read(items, SiteSettingsKey)
    case Some(SiteSettingsDoc(s)) => s
    case _ => DefaultSiteSettings
  }

  /** `safeParse`'s three outcomes: nothing stored or an empty string reads as the fallback and
      leaves the storage alone; corrupt text reads as the fallback and removes the key; a
      stored document reads back as itself and leaves the storage alone. */
  lemma SafeParseOutcomes(items: map<string, Cell>, key: string)
    ensures key !in items || items[key] == Text("") ==>
              Read(items, key) == None && AfterRead(items, key) == items
    ensures key in items && items[key].Text? && items[key].raw != "" ==>
              Read(items, key) == None && AfterRead(items, key) == items - {key} && key !in AfterRead(items, key)
    ensures key in items && items[key].Json? ==>
              Read(items, key) == Some(items[key].doc) && AfterRead(items, key) == items
  {
  }

  /** A read touches no key but its own, and reading twice gives what reading once gave. */
  lemma ReadIsIdempotent(items: map<string, Cell>, key: string)
    ensures Read(AfterRead(items, key), key) == Read(items, key)
    ensures AfterRead(AfterRead(items, key), key) == AfterRead(items, key)
    ensures forall k :: k != key ==> Lookup(AfterRead(items, key), k) == Lookup(items, k)
  {
  }

  /** A read of one key leaves what another key reads unchanged. */
  lemma ReadElsewhere(items: map<string, Cell>, key: string, other: string)
    requires other != key
    ensures Read(AfterRead(items, key), other) == Read(items, other)
  {
  }

  /** `getClients` after a successful `saveClients(x)` returns `x`, whatever was stored before,
      and the other collections read as before. */
  lemma SaveThenLoad(items: map<string, Cell>, x: seq<Client>)
    ensures LoadClients(items[ClientsKey := Json(ClientsDoc(x))]) == x
    ensures LoadDeletedClients(items[ClientsKey := Json(ClientsDoc(x))]) == LoadDeletedClients(items)
    ensures LoadAppointments(items[ClientsKey := Json(ClientsDoc(x))]) == LoadAppointments(items)
  {
  }

  /** With nothing stored, the settings are the defaults, the user is absent and every
      collection is empty. */
  lemma EmptyStorageDefaults()
    ensures LoadSiteSettings(map[]) == DefaultSiteSettings
    ensures LoadUserData(map[]) == None
    ensures LoadClients(map[]) == [] && LoadDeletedClients(map[]) == []
    ensures LoadAppointments(map[]) == [] && LoadEarnings(map[]) == [] && LoadSessions(map[]) == []
  {
  }

  /** `appointments.filter(a => a.id !== appointmentId)`. */
  function WithoutAppointment(appointments: seq<Appointment>, appointmentId: string): seq<Appointment> {
    Filter(appointments, (a: Appointment) => a.id != appointmentId)
  }

  /** `deleted.filter(c => c.id !== clientId)`. */
  function WithoutDeletedClient(deleted: seq<DeletedClient>, clientId: string): seq<DeletedClient> {
    Filter(deleted, (c: DeletedClient) => c.id != clientId)
  }

  /** Deleting an appointment drops exactly the entries carrying that id and keeps the others
      in their order (deleting from a concatenation deletes from each part). */
  lemma {:induction false} WithoutAppointmentSpec(a: seq<Appointment>, b: seq<Appointment>, appointmentId: string)
    ensures forall x :: x in WithoutAppointment(a, appointmentId) <==> x in a && x.id != appointmentId
    ensures WithoutAppointment(a + b, appointmentId) == WithoutAppointment(a, appointmentId) + WithoutAppointment(b, appointmentId)
    ensures (forall i :: 0 <= i < |a| ==> a[i].id != appointmentId) ==> WithoutAppointment(a, appointmentId) == a
  {
    FilterMembers(a, (x: Appointment) => x.id != appointmentId);
    FilterConcat(a, b, (x: Appointment) => x.id != appointmentId);
    if forall i :: 0 <= i < |a| ==> a[i].id != appointmentId {
      FilterKeepsAll(a, (x: Appointment) => x.id != appointmentId);
    }
  }

  lemma {:induction false} WithoutDeletedClientSpec(a: seq<DeletedClient>, b: seq<DeletedClient>, clientId: string)
    ensures forall x :: x in WithoutDeletedClient(a, clientId) <==> x in a && x.id != clientId
    ensures WithoutDeletedClient(a + b, clientId) == WithoutDeletedClient(a, clientId) + WithoutDeletedClient(b, clientId)
    ensures (forall i :: 0 <= i < |a| ==> a[i].id != clientId) ==> WithoutDeletedClient(a, clientId) == a
  {
    FilterMembers(a, (x: DeletedClient) => x.id != clientId);
    FilterConcat(a, b, (x: DeletedClient) => x.id != clientId);
    if forall i :: 0 <= i < |a| ==> a[i].id != clientId {
      FilterKeepsAll(a, (x: DeletedClient) => x.id != clientId);
    }
  }

  /** The browser's local storage. Writes take `written`: false models a write that failed
      (quota exceeded) and was swallowed. */
  class LocalStorage {
    var items: map<string, Cell>

    constructor (initial: map<string, Cell>)
      ensures items == initial
    {
      items := initial;
    }

    method GetClients() returns (cs: seq<Client>)
      modifies this
      ensures cs == LoadClients(old(items)) && items == AfterRead(old(items), ClientsKey)
    {
      cs := LoadClients(items);
      items := AfterRead(items, ClientsKey);
    }

    method SaveClients(cs: seq<Client>, written: bool)
      modifies this
      ensures items == if written then old(items)[ClientsKey := Json(ClientsDoc(cs))] else old(items)
      ensures written ==> LoadClients(items) == cs
    {
      if written {
        items := items[ClientsKey := Json(ClientsDoc(cs))];
      }
    }

    method GetDeletedClients() returns (ds: seq<DeletedClient>)
      modifies this
      ensures ds == LoadDeletedClients(old(items)) && items == AfterRead(old(items), DeletedClientsKey)
    {
      ds := LoadDeletedClients(items);
      items := AfterRead(items, DeletedClientsKey);
    }

    method SaveDeletedClients(ds: seq<DeletedClient>, written: bool)
      modifies this
      ensures items == if written then old(items)[DeletedClientsKey := Json(DeletedClientsDoc(ds))] else old(items)
      ensures written ==> LoadDeletedClients(items) == ds
    {
      if written {
        items := items[DeletedClientsKey := Json(DeletedClientsDoc(ds))];
      }
    }

    method GetAppointments() returns (xs: seq<Appointment>)
      modifies this
      ensures xs == LoadAppointments(old(items)) && items == AfterRead(old(items), AppointmentsKey)
    {
      xs := LoadAppointments(items);
      items := AfterRead(items, AppointmentsKey);
    }

    method SaveAppointments(xs: seq<Appointment>, written: bool)
      modifies this
      ensures items == if written then old(items)[AppointmentsKey := Json(AppointmentsDoc(xs))] else old(items)
      ensures written ==> LoadAppointments(items) == xs
    {
      if written {
        items := items[AppointmentsKey := Json(AppointmentsDoc(xs))];
      }
    }

    method GetSessions() returns (xs: seq<Session>)
      modifies this
      ensures xs == LoadSessions(old(items)) && items == AfterRead(old(items), SessionsKey)
    {
      xs := LoadSessions(items);
      items := AfterRead(items, SessionsKey);
    }

    method SaveSessions(xs: seq<Session>, written: bool)
      modifies this
      ensures items == if written then old(items)[SessionsKey := Json(SessionsDoc(xs))] else old(items)
    {
      if written {
        items := items[SessionsKey := Json(SessionsDoc(xs))];
      }
    }

    method GetEarnings() returns (xs: seq<Earning>)
      modifies this
      ensures xs == LoadEarnings(old(items)) && items == AfterRead(old(items), EarningsKey)
    {
      xs := LoadEarnings(items);
      items := AfterRead(items, EarningsKey);
    }

    method SaveEarnings(xs: seq<Earning>, written: bool)
      modifies this
      ensures items == if written then old(items)[EarningsKey := Json(EarningsDoc(xs))] else old(items)
      ensures written ==> LoadEarnings(items) == xs
    {
      if written {
        items := items[EarningsKey := Json(EarningsDoc(xs))];
      }
    }

    method GetUserData() returns (u: Option<UserData>)
      modifies this
      ensures u == LoadUserData(old(items)) && items == AfterRead(old(items), UserDataKey)
    {
      u := LoadUserData(items);
      items := AfterRead(items, UserDataKey);
    }

    method SaveUserData(u: UserData, written: bool)
      modifies this
      ensures items == if written then old(items)[UserDataKey := Json(UserDataDoc(Some(u)))] else old(items)
      ensures written ==> LoadUserData(items) == Some(u)
    {
      if written {
        items := items[UserDataKey := Json(UserDataDoc(Some(u)))];
      }
    }

    method GetSiteSettings() returns (s: SiteSettings)
      modifies this
      ensures s == LoadSiteSettings(old(items)) && items == AfterRead(old(items), SiteSettingsKey)
    {
      s := LoadSiteSettings(items);
      items := AfterRead(items, SiteSettingsKey);
    }

    method SaveSiteSettings(s: SiteSettings, written: bool)
      modifies this
      ensures items == if written then old(items)[SiteSettingsKey := Json(SiteSettingsDoc(s))] else old(items)
      ensures written ==> LoadSiteSettings(items) == s
    {
      if written {
        items := items[SiteSettingsKey := Json(SiteSettingsDoc(s))];
      }
    }

    method GetRoster() returns (cs: seq<RosterClient>)
      modifies this
      ensures cs == LoadRoster(old(items)) && items == AfterRead(old(items), ClientsKey)
    {
      cs := LoadRoster(items);
      items := AfterRead(items, ClientsKey);
    }

    method SaveRoster(cs: seq<RosterClient>, written: bool)
      modifies this
      ensures items == if written then old(items)[ClientsKey := Json(RosterDoc(cs))] else old(items)
      ensures written ==> LoadRoster(items) == cs
    {
      if written {
        items := items[ClientsKey := Json(RosterDoc(cs))];
      }
    }

    method GetTombstones() returns (ts: seq<RosterTombstone>)
      modifies this
      ensures ts == LoadTombstones(old(items)) && items == AfterRead(old(items), DeletedClientsKey)
    {
      ts := LoadTombstones(items);
      items := AfterRead(items, DeletedClientsKey);
    }

    method SaveTombstones(ts: seq<RosterTombstone>, written: bool)
      modifies this
      ensures items == if written then old(items)[DeletedClientsKey := Json(TombstonesDoc(ts))] else old(items)
      ensures written ==> LoadTombstones(items) == ts
    {
      if written {
        items := items[DeletedClientsKey := Json(TombstonesDoc(ts))];
      }
    }

    /** A bare `localStorage.setItem(key, JSON.stringify(doc))`, as the plain scripts write. */
    method SetItem(key: string, doc: Doc, written: bool)
      modifies this
      ensures items == if written then old(items)[key := Json(doc)] else old(items)
    {
      if written {
        items := items[key := Json(doc)];
      }
    }

    /** `generateClientId`: reads both client lists (clearing corrupt ones) and proposes the
        next readable ID. */
    method GenerateClientId() returns (clientId: string)
      modifies this
      ensures clientId == NextClientId(LoadClients(old(items)), LoadDeletedClients(old(items)))
      ensures items == AfterRead(AfterRead(old(items), ClientsKey), DeletedClientsKey)
    {
      var clients := GetClients();
      var deleted := GetDeletedClients();
      assert deleted == LoadDeletedClients(old(items));
      clientId := NextClientId(clients, deleted);
    }

    /** `deleteAppointment`: rewrites the stored list without the given id. */
    method DeleteAppointment(appointmentId: string, written: bool)
      modifies this
      ensures items == if written
                         then AfterRead(old(items), AppointmentsKey)[AppointmentsKey :=
                                Json(AppointmentsDoc(WithoutAppointment(LoadAppointments(old(items)), appointmentId)))]
                         else AfterRead(old(items), AppointmentsKey)
      ensures written ==> LoadAppointments(items) == WithoutAppointment(LoadAppointments(old(items)), appointmentId)
    {
      var appointments := GetAppointments();
      SaveAppointments(WithoutAppointment(appointments, appointmentId), written);
    }

    /** `deleteDeletedClient`: rewrites the stored tombstones without the given id. */
    method DeleteDeletedClient(clientId: string, written: bool)
      modifies this
      ensures items == if written
                         then AfterRead(old(items), DeletedClientsKey)[DeletedClientsKey :=
                                Json(DeletedClientsDoc(WithoutDeletedClient(LoadDeletedClients(old(items)), clientId)))]
                         else AfterRead(old(items), DeletedClientsKey)
      ensures written ==> LoadDeletedClients(items) == WithoutDeletedClient(LoadDeletedClients(old(items)), clientId)
    {
      var deleted := GetDeletedClients();
      SaveDeletedClients(WithoutDeletedClient(deleted, clientId), written);
    }
  }

  // ---------------------------------------------------------------------------
  // Client IDs: CL-001, CL-002, ...
  // ---------------------------------------------------------------------------

  /** The digits captured by the unanchored pattern `CL-(\d+)`: the leftmost "CL-" followed by
      a digit, and then the longest run of digits. */
  function ClientIdDigits(s: string): (r: Option<string>)
    ensures r.Some? ==> r.value != [] && AllDigits(r.value)
  {
    if |s| < 4 then None
    else if s[..3] == "CL-" && IsDigit(s[3]) then Some(DigitPrefix(s[3..]))
    else ClientIdDigits(s[1..])
  }

  /** The number an ID contributes: the captured digits, or 0 when the pattern does not match. */
  function ClientIdNumber(s: string): nat {
    match ClientIdDigits(s)
    case Some(ds) => DecimalValue(ds)
    case None => 0
  }

  /** Every clientId of the active list followed by the deleted list. */
  function AllClientIds(clients: seq<Client>, deleted: seq<DeletedClient>): (r: seq<string>)
    ensures |r| == |clients| + |deleted|
    ensures forall i :: 0 <= i < |clients| ==> r[i] == clients[i].clientId
    ensures forall i :: 0 <= i < |deleted| ==> r[|clients| + i] == deleted[i].clientId
  {
    seq(|clients|, i requires 0 <= i < |clients| => clients[i].clientId)
      + seq(|deleted|, i requires 0 <= i < |deleted| => deleted[i].clientId)
  }

  /** `Math.max(...numbers)`, or 0 for no IDs. */
  function MaxClientNumber(ids: seq<string>): (m: nat)
    ensures forall i :: 0 <= i < |ids| ==> ClientIdNumber(ids[i]) <= m
    ensures m == 0 || exists i :: 0 <= i < |ids| && ClientIdNumber(ids[i]) == m
  {
    if ids == [] then 0
    else Max(MaxClientNumber(ids[..|ids| - 1]), ClientIdNumber(ids[|ids| - 1]))
  }

  /** "CL-" and the number, zero-padded to at least three digits. */
  function FormatClientId(n: nat): string {
    "CL-" + PadZeros(NatToDecimal(n), 3)
  }

  function NextClientId(clients: seq<Client>, deleted: seq<DeletedClient>): string {
    FormatClientId(MaxClientNumber(AllClientIds(clients, deleted)) + 1)
  }

  /** The formatted ID parses back to its number. */
  lemma FormatClientIdNumber(n: nat)
    ensures ClientIdNumber(FormatClientId(n)) == n
  {
    var digits := PadZeros(NatToDecimal(n), 3);
    PaddedDecimalValue(n, 3);
    var s := FormatClientId(n);
    assert s[..3] == "CL-" && s[3..] == digits;
    assert IsDigit(s[3]) by { assert s[3] == digits[0]; }
    DigitPrefixOf(digits, []);
    assert digits + [] == digits;
  }

  /** The largest number is the one every ID stays at or below and some ID reaches (or 0). */
  lemma MaxClientNumberIs(ids: seq<string>, m: nat)
    requires forall i :: 0 <= i < |ids| ==> ClientIdNumber(ids[i]) <= m
    requires m == 0 || exists i :: 0 <= i < |ids| && ClientIdNumber(ids[i]) == m
    ensures MaxClientNumber(ids) == m
  {
    var top := MaxClientNumber(ids);
    if top != 0 {
      var i :| 0 <= i < |ids| && ClientIdNumber(ids[i]) == top;
    }
    if m != 0 {
      var i :| 0 <= i < |ids| && ClientIdNumber(ids[i]) == m;
    }
  }

  /** The generated ID is "CL-" followed by one more than the largest number found in either
      list, padded to three digits: numbers in between that no ID uses are not reused. */
  lemma NextClientIdIsMaxPlusOne(clients: seq<Client>, deleted: seq<DeletedClient>, m: nat)
    requires forall c :: c in clients ==> ClientIdNumber(c.clientId) <= m
    requires forall d :: d in deleted ==> ClientIdNumber(d.clientId) <= m
    requires m == 0 || (exists c :: c in clients && ClientIdNumber(c.clientId) == m)
                    || (exists d :: d in deleted && ClientIdNumber(d.clientId) == m)
    ensures NextClientId(clients, deleted) == FormatClientId(m + 1)
  {
    var ids := AllClientIds(clients, deleted);
    forall i | 0 <= i < |ids| ensures ClientIdNumber(ids[i]) <= m {
      if i < |clients| {
        assert clients[i] in clients;
      } else {
        assert deleted[i - |clients|] in deleted;
      }
    }
    if m != 0 {
      if c :| c in clients && ClientIdNumber(c.clientId) == m {
        var i :| 0 <= i < |clients| && clients[i] == c;
        assert ids[i] == c.clientId;
      } else {
        var d :| d in deleted && ClientIdNumber(d.clientId) == m;
        var i :| 0 <= i < |deleted| && deleted[i] == d;
        assert ids[|clients| + i] == d.clientId;
      }
    }
    MaxClientNumberIs(ids, m);
  }

  /** The generated ID differs from every existing clientId, active or deleted: an equal string
      would parse to the same number, and every existing number is below max + 1. */
  lemma NextClientIdIsFresh(clients: seq<Client>, deleted: seq<DeletedClient>)
    ensures forall c :: c in clients ==> c.clientId != NextClientId(clients, deleted)
    ensures forall d :: d in deleted ==> d.clientId != NextClientId(clients, deleted)
  {
    var ids := AllClientIds(clients, deleted);
    var m := MaxClientNumber(ids);
    FormatClientIdNumber(m + 1);
    forall c | c in clients ensures c.clientId != NextClientId(clients, deleted) {
      var i :| 0 <= i < |clients| && clients[i] == c;
      assert ids[i] == c.clientId;
    }
    forall d | d in deleted ensures d.clientId != NextClientId(clients, deleted) {
      var i :| 0 <= i < |deleted| && deleted[i] == d;
      assert ids[|clients| + i] == d.clientId;
    }
  }

  lemma FormatSmallClientId(n: nat)
    requires 1 <= n <= 9
    ensures FormatClientId(n) == "CL-00" + [DigitChar(n)]
  {
    assert Zeros(2) == "00";
  }

  /** No IDs at all give "CL-001". */
  lemma FirstClientId()
    ensures NextClientId([], []) == "CL-001"
  {
    assert AllClientIds([], []) == [];
    FormatSmallClientId(1);
  }

  /** CL-001 and CL-003 give CL-004: the unused CL-002 is not filled in. */
  lemma NoGapFilling(a: Client, b: Client)
    requires a.clientId == "CL-001" && b.clientId == "CL-003"
    ensures NextClientId([a, b], []) == "CL-004"
  {
    assert ClientIdNumber(a.clientId) == 1 by {
      FormatSmallClientId(1);
      FormatClientIdNumber(1);
      assert DigitChar(1) == '1';
      assert "CL-00" + ['1'] == "CL-001";
    }
    assert ClientIdNumber(b.clientId) == 3 by {
      FormatSmallClientId(3);
      FormatClientIdNumber(3);
      assert DigitChar(3) == '3';
      assert "CL-00" + ['3'] == "CL-003";
    }
    assert forall c :: c in [a, b] ==> ClientIdNumber(c.clientId) <= 3 by {
      assert forall c :: c in [a, b] ==> c == a || c == b;
    }
    assert b in [a, b];
    NextClientIdIsMaxPlusOne([a, b], [], 3);
    assert FormatClientId(4) == "CL-004" by {
      FormatSmallClientId(4);
      assert DigitChar(4) == '4';
      assert "CL-00" + ['4'] == "CL-004";
    }
  }

  /** The pattern is unanchored, and an ID without it counts as 0. */
  lemma ClientIdNumberExamples()
    ensures ClientIdNumber("xCL-12") == 12
    ensures ClientIdNumber("CL-") == 0
  {
    assert "xCL-12"[..3][0] == 'x';
    assert "xCL-12"[1..] == "CL-12";
    var t := "CL-12";
    assert t[..3] == "CL-" && t[3..] == "12";
    DigitPrefixOf("12", []);
    assert "12" + [] == "12";
    assert "12"[..1] == "1" && "1"[..0] == "";
  }

  // ---------------------------------------------------------------------------
  // Time formatting
  // ---------------------------------------------------------------------------

  /** `format24to12`: input without ':' (or empty) is returned unchanged; otherwise the hour
      before the first ':' becomes `hour % 12 || 12`, padded to two digits, followed by the
      text up to the next ':' and AM or PM (PM iff the hour is at least 12; an hour that does
      not parse reads as 12 AM). */
  function Format24To12(time24: string): string {
    if time24 == "" || ':' !in time24 then time24
    else
      var hour := ParseInt(BeforeFirst(time24, ':'));
      var minutes := SecondField(time24, ':');
      var pm := hour.Some? && hour.value >= 12;
      var display := if hour.None? || JsRem(hour.value, 12) == 0 then 12 else JsRem(hour.value, 12);
      PadZeros(IntToDecimal(display), 2) + ":" + minutes + " " + (if pm then "PM" else "AM")
  }

  datatype Meridiem = AM | PM

  /** What `\s*(AM|PM)?` (case-insensitive) captures after the minutes. */
  function MeridiemOf(rest: string): Option<Meridiem> {
    var t := TrimStart(rest);
    if |t| >= 2 && (t[1] == 'M' || t[1] == 'm') then
      if t[0] == 'A' || t[0] == 'a' then Some(AM)
      else if t[0] == 'P' || t[0] == 'p' then Some(PM)
      else None
    else None
  }

  datatype TimeMatch = TimeMatch(hours: string, minutes: string, meridiem: Option<Meridiem>)

  /** `(\d{1,2}):(\d{2})\s*(AM|PM)?` matched at the start of `s`, two hour digits preferred. */
  function MatchTimeAt(s: string): Option<TimeMatch> {
    if |s| >= 5 && IsDigit(s[0]) && IsDigit(s[1]) && s[2] == ':' && IsDigit(s[3]) && IsDigit(s[4]) then
      Some(TimeMatch(s[..2], s[3..5], MeridiemOf(s[5..])))
    else if |s| >= 4 && IsDigit(s[0]) && s[1] == ':' && IsDigit(s[2]) && IsDigit(s[3]) then
      Some(TimeMatch(s[..1], s[2..4], MeridiemOf(s[4..])))
    else None
  }

  /** The leftmost match of the pattern in `s` (the pattern is not anchored). */
  function MatchTime(s: string): (r: Option<TimeMatch>)
    ensures r.Some? ==> r.value.hours != [] && AllDigits(r.value.hours)
  {
    if s == [] then None
    else if MatchTimeAt(s).Some? then MatchTimeAt(s)
    else MatchTime(s[1..])
  }

  /** `format12to24`: empty or unmatched input is returned unchanged; otherwise 12 PM stays 12,
      other PM hours gain 12, 12 AM becomes 0, and the hour is padded to two digits. */
  function Format12To24(time12: string): string {
    if time12 == "" then time12
    else match MatchTime(time12)
      case None => time12
      case Some(m) => PadZeros(NatToDecimal(To24Hour(DecimalValue(m.hours), m.meridiem)), 2) + ":" + m.minutes
  }

  /** 12 PM stays 12, other PM hours gain 12, 12 AM becomes 0; without a suffix the hour is kept. */
  function To24Hour(h: nat, meridiem: Option<Meridiem>): nat {
    if meridiem == Some(PM) && h != 12 then h + 12
    else if meridiem == Some(AM) && h == 12 then 0
    else h
  }

  /** `formatTimeDisplay`: the stored 24-hour text, converted only for the 12-hour setting. */
  function FormatTimeDisplay(time24: string, timeFormat: TimeFormat): (r: string)
    ensures time24 == "" || timeFormat == TwentyFourHour ==> r == time24
    ensures timeFormat == TwelveHour ==> r == Format24To12(time24)
  {
    if time24 == "" then time24
    else if timeFormat == TwentyFourHour then time24
    else Format24To12(time24)
  }

  /** A two-digit numeral is the zero-padded numeral of its value. */
  lemma TwoDigitsCanonical(ab: string)
    requires |ab| == 2 && AllDigits(ab)
    ensures PadZeros(NatToDecimal(DecimalValue(ab)), 2) == ab
  {
    var h := DecimalValue(ab);
    assert ab[..|ab| - 1] == [ab[0]] && [ab[0]][..0] == [];
    assert DecimalValue([ab[0]]) == DigitValue(ab[0]);
    assert h == DigitValue(ab[0]) * 10 + DigitValue(ab[1]);
    if h < 10 {
      assert DigitValue(ab[0]) == 0;
      assert NatToDecimal(h) == [DigitChar(h)];
    } else {
      assert h / 10 == DigitValue(ab[0]) && h % 10 == DigitValue(ab[1]);
      assert NatToDecimal(h) == NatToDecimal(h / 10) + [DigitChar(h % 10)];
    }
  }

  /** The 12-hour text of an hour 0..23: hour % 12 or 12, padded, then AM or PM. */
  lemma Format24To12OfClock(hh: string, mm: string)
    requires |hh| == 2 && AllDigits(hh) && DecimalValue(hh) <= 23
    requires |mm| == 2 && AllDigits(mm)
    ensures var h := DecimalValue(hh);
            var display := if h % 12 == 0 then 12 else h % 12;
            Format24To12(hh + ":" + mm)
              == PadZeros(NatToDecimal(display), 2) + ":" + mm + " " + (if h >= 12 then "PM" else "AM")
  {
    var t := hh + ":" + mm;
    assert t[2] == ':' && ':' !in hh && ':' !in mm;
    assert IndexOf(t, ':') == Some(2) by { assert t[..2] == hh; }
    assert BeforeFirst(t, ':') == hh;
    assert t[3..] == mm;
    assert IndexOf(mm, ':') == None;
    ParseIntOfDigits(hh, []);
    assert hh + [] == hh;
  }

  /** A two-digit hour, ':', two-digit minutes and a space-separated suffix match the
      pattern at the first character. */
  lemma MatchOfClock(dd: string, mm: string, suffix: string)
    requires |dd| == 2 && AllDigits(dd) && |mm| == 2 && AllDigits(mm)
    ensures MatchTime(dd + ":" + mm + " " + suffix) == Some(TimeMatch(dd, mm, MeridiemOf(" " + suffix)))
  {
    var u := dd + ":" + mm + " " + suffix;
    assert u[..2] == dd && u[2] == ':' && u[3..5] == mm && u[5..] == " " + suffix;
    assert IsDigit(u[0]) && IsDigit(u[1]) && IsDigit(u[3]) && IsDigit(u[4]);
  }

  lemma MeridiemOfSuffix(suffix: string)
    requires suffix == "AM" || suffix == "PM"
    ensures MeridiemOf(" " + suffix) == Some(if suffix == "PM" then PM else AM)
  {
    var t := " " + suffix;
    assert IsSpace(t[0]) && t[1..] == suffix;
    assert !IsSpace(suffix[0]);
    assert TrimStart(t) == suffix;
  }

  /** The 24-hour hour a 12-hour display hour and its suffix stand for. */
  lemma BackTo24(h: nat)
    requires h <= 23
    ensures To24Hour(if h % 12 == 0 then 12 else h % 12, Some(if h >= 12 then PM else AM)) == h
  {
  }

  /** Converting a zero-padded 24-hour "HH:MM" to 12-hour text and back gives it back. */
  lemma Format24To12RoundTrip(hh: string, mm: string)
    requires |hh| == 2 && AllDigits(hh) && DecimalValue(hh) <= 23
    requires |mm| == 2 && AllDigits(mm)
    ensures Format12To24(Format24To12(hh + ":" + mm)) == hh + ":" + mm
  {
    var h := DecimalValue(hh);
    var display: nat := if h % 12 == 0 then 12 else h % 12;
    var dd := PadZeros(NatToDecimal(display), 2);
    var suffix := if h >= 12 then "PM" else "AM";
    var u := dd + ":" + mm + " " + suffix;
    var meridiem := Some(if h >= 12 then PM else AM);
    assert |dd| == 2 && AllDigits(dd) && DecimalValue(dd) == display by {
      PaddedDecimalValue(display, 2);
      assert display < 10 || |NatToDecimal(display)| == 2;
    }
    calc {
      Format12To24(Format24To12(hh + ":" + mm));
      { Format24To12OfClock(hh, mm); }
      Format12To24(u);
      { MatchOfClock(dd, mm, suffix); MeridiemOfSuffix(suffix); }
      PadZeros(NatToDecimal(To24Hour(DecimalValue(dd), meridiem)), 2) + ":" + mm;
      PadZeros(NatToDecimal(To24Hour(display, meridiem)), 2) + ":" + mm;
      { BackTo24(h); }
      PadZeros(NatToDecimal(h), 2) + ":" + mm;
      { TwoDigitsCanonical(hh); }
      hh + ":" + mm;
    }
  }

  // ---------------------------------------------------------------------------
  // Relative time
  // ---------------------------------------------------------------------------

  /** The bucket `timeAgo` chooses for a timestamp seen at `now` (both in milliseconds). */
  datatype Ago = JustNow | MinutesAgo(minutes: int) | HoursAgo(hours: int) | DaysAgo(days: int) | OnDate

  function AgoBucket(now: int, timestamp: int): (r: Ago)
    ensures var diff := now - timestamp;
      && (r == JustNow <==> diff < 60000)
      && (r.MinutesAgo? <==> 60000 <= diff < 3600000)
      && (r.HoursAgo? <==> 3600000 <= diff < 86400000)
      && (r.DaysAgo? <==> 86400000 <= diff < 604800000)
      && (r == OnDate <==> 604800000 <= diff)
      && (r.MinutesAgo? ==> 1 <= r.minutes <= 59 && r.minutes * 60000 <= diff < (r.minutes + 1) * 60000)
      && (r.HoursAgo? ==> 1 <= r.hours <= 23 && r.hours * 3600000 <= diff < (r.hours + 1) * 3600000)
      && (r.DaysAgo? ==> 1 <= r.days <= 6 && r.days * 86400000 <= diff < (r.days + 1) * 86400000)
  {
    var diff := now - timestamp;
    var minutes := diff / 60000;
    var hours := diff / 3600000;
    var days := diff / 86400000;
    if minutes < 1 then JustNow
    else if minutes < 60 then MinutesAgo(minutes)
    else if hours < 24 then HoursAgo(hours)
    else if days < 7 then DaysAgo(days)
    else OnDate
  }

  /** `timeAgo`; `localeDate` is `new Date(timestamp).toLocaleDateString()`, which depends on
      the browser's locale and time zone. */
  function TimeAgo(now: int, timestamp: int, localeDate: string): string {
    match AgoBucket(now, timestamp)
    case JustNow => "Just now"
    case MinutesAgo(m) => IntToDecimal(m) + " min ago"
    case HoursAgo(h) => IntToDecimal(h) + " hour" + (if h > 1 then "s" else "") + " ago"
    case DaysAgo(d) => IntToDecimal(d) + " day" + (if d > 1 then "s" else "") + " ago"
    case OnDate => localeDate
  }

  /** The unit is plural exactly when the count exceeds one. */
  lemma TimeAgoPlural(now: int, timestamp: int, localeDate: string)
    ensures AgoBucket(now, timestamp) == HoursAgo(1) ==> TimeAgo(now, timestamp, localeDate) == "1 hour ago"
    ensures AgoBucket(now, timestamp) == DaysAgo(1) ==> TimeAgo(now, timestamp, localeDate) == "1 day ago"
    ensures 2 * 3600000 <= now - timestamp < 3 * 3600000 ==> TimeAgo(now, timestamp, localeDate) == "2 hours ago"
    ensures now - timestamp < 60000 ==> TimeAgo(now, timestamp, localeDate) == "Just now"
  {
    assert NatToDecimal(1) == "1" && NatToDecimal(2) == "2";
  }
}
