/** The multi-page script `src/dashboard.ts`: its raw reads of the stored lists, the three
    dashboard boxes, the stats cards, the highlighted navigation item and the add-client form.
    It works in the roster client shape (`firstName`, `lastName`, `condition`). */
module DashboardScript {
  import opened Common
  import Store
  import Dashboard

  // ---------------------------------------------------------------------------
  // Reads: `stored ? JSON.parse(stored) : []`
  // ---------------------------------------------------------------------------

  const ParseError := "SyntaxError: JSON.parse"

  /** Nothing stored and the empty string read as no document; a stored document reads as
      itself; any other text makes `JSON.parse` throw. */
  function RawRead(items: map<string, Store.Cell>, key: string): Outcome<Option<Store.Doc>> {
    var raw := Store.Lookup(items, key);
    if raw.None? then Ok(None)
    else if raw.value.Text? then (if raw.value.raw == "" then Ok(None) else Err(ParseError))
    else Ok(Some(raw.value.doc))
  }

  /** Where the React pages' `safeParse` falls back and clears the key, this read throws;
      everywhere else both read the same document, and neither changes the storage. */
  lemma RawReadVersusSafeParse(items: map<string, Store.Cell>, key: string)
    ensures RawRead(items, key).Err? <==> Store.SafeParse(Store.Lookup(items, key)) == Store.Fallback(true)
    ensures RawRead(items, key).Ok? ==> RawRead(items, key).value == Store.Read(items, key)
  {
  }

  /** `getClients()`. */
  function ScriptClients(items: map<string, Store.Cell>): Outcome<seq<Store.RosterClient>> {
    var r := RawRead(items, Store.ClientsKey);
    if r.Err? then Err(r.message)
    else if r.value.Some? && r.value.value.RosterDoc? then Ok(r.value.value.roster)
    else Ok([])
  }

  /** `getDeletedClients()`. */
  function ScriptTombstones(items: map<string, Store.Cell>): Outcome<seq<Store.RosterTombstone>> {
    var r := RawRead(items, Store.DeletedClientsKey);
    if r.Err? then Err(r.message)
    else if r.value.Some? && r.value.value.TombstonesDoc? then Ok(r.value.value.tombstones)
    else Ok([])
  }

  /** `getAppointments()`. */
  function ScriptAppointments(items: map<string, Store.Cell>): Outcome<seq<Store.Appointment>> {
    var r := RawRead(items, Store.AppointmentsKey);
    if r.Err? then Err(r.message)
    else if r.value.Some? && r.value.value.AppointmentsDoc? then Ok(r.value.value.appointments)
    else Ok([])
  }

  /** `getSessions()`. */
  function ScriptSessions(items: map<string, Store.Cell>): Outcome<seq<Store.Session>> {
    var r := RawRead(items, Store.SessionsKey);
    if r.Err? then Err(r.message)
    else if r.value.Some? && r.value.value.SessionsDoc? then Ok(r.value.value.sessions)
    else Ok([])
  }

  // ---------------------------------------------------------------------------
  // Dashboard boxes
  // ---------------------------------------------------------------------------

  /** `renderDeletedClients`: most recently deleted first (the comparator `b - a` is an
      ascending sort on the negated time), at most five. */
  function RecentlyDeleted(deleted: seq<Store.RosterTombstone>): seq<Store.RosterTombstone> {
    Take(SortBy(deleted, (t: Store.RosterTombstone) => -t.deletedAt), Dashboard.BoxSize)
  }

  /** `renderUpcomingAppointments`: the future appointments, soonest first, at most five. */
  function SoonestAppointments(appointments: seq<Store.Appointment>, now: int): seq<Store.Appointment> {
    Take(Dashboard.UpcomingAppointments(appointments, now), Dashboard.BoxSize)
  }

  /** `renderNewSessions`: the latest scheduled first, at most five. */
  function NewestSessions(sessions: seq<Store.Session>): seq<Store.Session> {
    Take(SortBy(sessions, (s: Store.Session) => -s.scheduledDate), Dashboard.BoxSize)
  }

  /** The deleted box shows up to five tombstones, latest first, and no tombstone it leaves
      out was deleted later than one it shows. */
  lemma RecentlyDeletedSpec(deleted: seq<Store.RosterTombstone>)
    ensures var r := RecentlyDeleted(deleted);
            |r| == Min(Dashboard.BoxSize, |deleted|)
            && (forall t :: t in r ==> t in deleted)
            && (forall i, j :: 0 <= i < j < |r| ==> r[i].deletedAt >= r[j].deletedAt)
            && (forall t, u :: t in r && u in deleted && u !in r ==> t.deletedAt >= u.deletedAt)
  {
    TakeSortedSpec(deleted, (t: Store.RosterTombstone) => -t.deletedAt, Dashboard.BoxSize);
  }

  /** The appointments box shows up to five future appointments, soonest first, and no future
      appointment it leaves out comes sooner than one it shows. */
  lemma SoonestAppointmentsSpec(appointments: seq<Store.Appointment>, now: int)
    ensures var r := SoonestAppointments(appointments, now);
            |r| <= Dashboard.BoxSize
            && (forall a :: a in r ==> a in appointments && a.dateTime > now)
            && (forall i, j :: 0 <= i < j < |r| ==> r[i].dateTime <= r[j].dateTime)
            && (forall a, b :: a in r && b in appointments && b.dateTime > now && b !in r ==> a.dateTime <= b.dateTime)
  {
    var key := (a: Store.Appointment) => a.dateTime;
    var future := Filter(appointments, (a: Store.Appointment) => a.dateTime > now);
    TakeSortedSpec(future, key, Dashboard.BoxSize);
    Dashboard.UpcomingAppointmentsSpec(appointments, now);
    FilterMembers(appointments, (a: Store.Appointment) => a.dateTime > now);
  }

  /** The sessions box shows up to five sessions, latest scheduled first, and no session it
      leaves out is scheduled later than one it shows. */
  lemma NewestSessionsSpec(sessions: seq<Store.Session>)
    ensures var r := NewestSessions(sessions);
            |r| == Min(Dashboard.BoxSize, |sessions|)
            && (forall s :: s in r ==> s in sessions)
            && (forall i, j :: 0 <= i < j < |r| ==> r[i].scheduledDate >= r[j].scheduledDate)
            && (forall s, t :: s in r && t in sessions && t !in r ==> s.scheduledDate >= t.scheduledDate)
  {
    TakeSortedSpec(sessions, (s: Store.Session) => -s.scheduledDate, Dashboard.BoxSize);
  }

  /** The three boxes with their count labels. */
  datatype Boxes = Boxes(
    deletedLabel: string,
    deletedShown: seq<Store.RosterTombstone>,
    appointmentsLabel: string,
    appointmentsShown: seq<Store.Appointment>,
    sessionsLabel: string,
    sessionsShown: seq<Store.Session>)

  function BoxesOf(deleted: seq<Store.RosterTombstone>, appointments: seq<Store.Appointment>,
                   sessions: seq<Store.Session>, now: int): Boxes
  {
    var upcoming := SoonestAppointments(appointments, now);
    Boxes(Dashboard.CountLabel(|deleted|, "client"), RecentlyDeleted(deleted),
          Dashboard.CountLabel(|upcoming|, "appointment"), upcoming,
          Dashboard.CountLabel(|sessions|, "session"), NewestSessions(sessions))
  }

  /** The deleted and sessions labels count the whole list, while the appointments label
      counts only the (at most five) appointments shown: with six future appointments it reads
      "5 appointments" where the React overview reads "6 appointments". */
  lemma BoxLabels(deleted: seq<Store.RosterTombstone>, appointments: seq<Store.Appointment>,
                  sessions: seq<Store.Session>, now: int)
    ensures var b := BoxesOf(deleted, appointments, sessions, now);
            b.deletedLabel == Dashboard.CountLabel(|deleted|, "client")
            && b.sessionsLabel == Dashboard.CountLabel(|sessions|, "session")
            && b.appointmentsLabel == Dashboard.CountLabel(Min(Dashboard.BoxSize, |Dashboard.UpcomingAppointments(appointments, now)|), "appointment")
    ensures var future := |Filter(appointments, (a: Store.Appointment) => a.dateTime > now)|;
            future > Dashboard.BoxSize ==>
              BoxesOf(deleted, appointments, sessions, now).appointmentsLabel
              != Dashboard.OverviewOf([], [], appointments, [], now).appointmentsLabel
  {
    var future := Filter(appointments, (a: Store.Appointment) => a.dateTime > now);
    SortBySpec(future, (a: Store.Appointment) => a.dateTime);
    if |future| > Dashboard.BoxSize {
      LabelsDiffer(Dashboard.BoxSize, |future|, "appointment");
    }
  }

  /** Labels for two different counts differ. */
  lemma LabelsDiffer(m: nat, n: nat, noun: string)
    requires m != n
    ensures Dashboard.CountLabel(m, noun) != Dashboard.CountLabel(n, noun)
  {
    DecimalRoundTrip(m);
    DecimalRoundTrip(n);
    var a := NatToDecimal(m);
    var b := NatToDecimal(n);
    if Dashboard.CountLabel(m, noun) == Dashboard.CountLabel(n, noun) {
      DecimalPrefixes(a, b, Dashboard.CountLabel(m, noun));
    }
  }

  /** A label starts with its numeral, which runs up to the first space. */
  lemma DecimalPrefixes(a: string, b: string, text: string)
    requires AllDigits(a) && AllDigits(b) && a <= text && b <= text
    requires |a| < |text| && text[|a|] == ' ' && |b| < |text| && text[|b|] == ' '
    ensures a == b
  {
  }

  // ---------------------------------------------------------------------------
  // Stats cards and navigation
  // ---------------------------------------------------------------------------

  /** The three stat cards' text. */
  datatype Stats = Stats(clients: string, sessions: string, completed: string)

  /** `updateStats`: the client count, three sessions per client, and a fixed "0". */
  function StatsOf(clients: seq<Store.RosterClient>): Stats {
    Stats(NatToDecimal(|clients|), NatToDecimal(|clients| * 3), "0")
  }

  /** The cards read back as the number of clients, three times that, and zero. */
  lemma StatsSpec(clients: seq<Store.RosterClient>)
    ensures AllDigits(StatsOf(clients).clients) && AllDigits(StatsOf(clients).sessions)
    ensures DecimalValue(StatsOf(clients).clients) == |clients|
    ensures DecimalValue(StatsOf(clients).sessions) == 3 * DecimalValue(StatsOf(clients).clients)
    ensures StatsOf(clients).completed == "0"
  {
    DecimalRoundTrip(|clients|);
    DecimalRoundTrip(|clients| * 3);
  }

  /** `pathname.split('/').pop()`: the text after the last '/', or all of it when there is
      none. */
  function LastSegment(path: string): (seg: string)
    ensures |seg| <= |path| && seg == path[|path| - |seg|..]
    ensures forall i :: 0 <= i < |seg| ==> seg[i] != '/'
    ensures |seg| < |path| ==> path[|path| - |seg| - 1] == '/'
  {
    if path == [] || path[|path| - 1] == '/' then []
    else LastSegment(path[..|path| - 1]) + [path[|path| - 1]]
  }

  /** The current file: the last segment, or "dashboard.html" when it is empty. */
  function CurrentFile(pathname: string): string {
    var seg := LastSegment(pathname);
    if seg == "" then "dashboard.html" else seg
  }

  /** `fileToPage[currentFile] || 'dashboard'`. */
  function CurrentPageName(pathname: string): string {
    var file := CurrentFile(pathname);
    if file == "clients.html" then "clients"
    else if file == "insights.html" then "insights"
    else if file == "settings.html" then "settings"
    else "dashboard"
  }

  /** The highlighted item is the page whose file ends the path; an unknown file or a path
      ending in '/' highlights the dashboard. */
  lemma CurrentPageSpec(pathname: string)
    ensures CurrentPageName(pathname) in ["dashboard", "clients", "insights", "settings"]
    ensures CurrentPageName(pathname) == "clients" <==> LastSegment(pathname) == "clients.html"
    ensures CurrentPageName(pathname) == "insights" <==> LastSegment(pathname) == "insights.html"
    ensures CurrentPageName(pathname) == "settings" <==> LastSegment(pathname) == "settings.html"
    ensures LastSegment(pathname) !in ["clients.html", "insights.html", "settings.html"] ==> CurrentPageName(pathname) == "dashboard"
    ensures pathname != [] && pathname[|pathname| - 1] == '/' ==> CurrentPageName(pathname) == "dashboard"
  {
  }

  // ---------------------------------------------------------------------------
  // Adding a client
  // ---------------------------------------------------------------------------

  /** The add-client form's five inputs. */
  datatype AddForm = AddForm(firstName: string, lastName: string, email: string, phone: string, condition: string)

  const RequiredMessage := "Please fill in all required fields"
  const QuotaError := "QuotaExceededError"

  predicate MissingRequired(form: AddForm) {
    form.firstName == "" || form.lastName == "" || form.email == ""
  }

  /** The new client: id `Date.now().toString()` and creation time from a second clock read;
      phone and condition are stored even when empty. */
  function NewClient(form: AddForm, idStamp: int, now: int): Store.RosterClient {
    Store.RosterClient(IntToDecimal(idStamp), form.firstName, form.lastName, form.email,
                       Some(form.phone), Some(form.condition), now)
  }

  /** `handleAddClient`: a form missing a first name, last name or email is refused with an
      alert; otherwise the stored roster is read (a corrupt one throws), the new client is
      pushed at its end and the roster is written back (a full storage throws). The result on
      success is the notification text. */
  method HandleAddClient(storage: Store.LocalStorage, form: AddForm, idStamp: int, now: int, written: bool)
    returns (r: Outcome<string>)
    modifies storage
    ensures MissingRequired(form) ==> r == Err(RequiredMessage) && storage.items == old(storage.items)
    ensures !MissingRequired(form) && ScriptClients(old(storage.items)).Err? ==>
              r == Err(ParseError) && storage.items == old(storage.items)
    ensures !MissingRequired(form) && ScriptClients(old(storage.items)).Ok? ==>
              var stored := ScriptClients(old(storage.items)).value + [NewClient(form, idStamp, now)];
              r == (if written then Ok(form.firstName + " " + form.lastName + " added successfully!") else Err(QuotaError))
              && storage.items == if written then old(storage.items)[Store.ClientsKey := Store.Json(Store.RosterDoc(stored))]
                                  else old(storage.items)
    ensures r.Ok? ==> ScriptClients(storage.items).Ok?
                      && ScriptClients(storage.items).value == ScriptClients(old(storage.items)).value + [NewClient(form, idStamp, now)]
  {
    if MissingRequired(form) {
      return Err(RequiredMessage);
    }
    var clients := ScriptClients(storage.items);
    if clients.Err? {
      return Err(clients.message);
    }
    var updated := clients.value + [NewClient(form, idStamp, now)];
    storage.SetItem(Store.ClientsKey, Store.RosterDoc(updated), written);
    if !written {
      return Err(QuotaError);
    }
    r := Ok(form.firstName + " " + form.lastName + " added successfully!");
  }

  /** An accepted add grows the stored roster by exactly the new client at its end and leaves
      the other lists alone. */
  lemma AddAppendsOne(items: map<string, Store.Cell>, form: AddForm, idStamp: int, now: int)
    requires !MissingRequired(form) && ScriptClients(items).Ok?
    ensures var after := items[Store.ClientsKey := Store.Json(Store.RosterDoc(ScriptClients(items).value + [NewClient(form, idStamp, now)]))];
            var before := ScriptClients(items).value;
            ScriptClients(after).Ok? && |ScriptClients(after).value| == |before| + 1
            && ScriptClients(after).value[..|before|] == before
            && ScriptClients(after).value[|before|].firstName == form.firstName
            && ScriptTombstones(after) == ScriptTombstones(items)
            && ScriptAppointments(after) == ScriptAppointments(items)
            && ScriptSessions(after) == ScriptSessions(items)
  {
    var before := ScriptClients(items).value;
    assert (before + [NewClient(form, idStamp, now)])[..|before|] == before;
  }
}
