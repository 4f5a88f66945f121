/** The client page `src/pages/ClientProfile.tsx`. The page keeps an editable copy of one
    client; every save goes through `persist`, which re-reads the stored roster, merges the
    changed fields into that client's entry and writes the roster back. */
module ClientProfile {
  import opened Common
  import Store

  // ---------------------------------------------------------------------------
  // persist: a field-wise merge into the stored roster
  // ---------------------------------------------------------------------------

  /** A `Partial<Client>` as the handlers build it: `None` leaves the stored field alone. */
  datatype Patch = Patch(
    name: Option<string>,
    age: Option<int>,
    occupation: Option<string>,
    status: Option<Store.ClientStatus>,
    sessionCount: Option<int>,
    chiefComplaints: Option<string>,
    hopi: Option<string>,
    sessionHistory: Option<seq<Store.SessionRecord>>)

  const Untouched := Patch(None, None, None, None, None, None, None, None)

  function Pick<T>(field: Option<T>, stored: T): T {
    if field.Some? then field.value else stored
  }

  /** `{ ...stored, ...updated }`. */
  function Merge(stored: Store.Client, updated: Patch): Store.Client {
    stored.(name := Pick(updated.name, stored.name),
            age := Pick(updated.age, stored.age),
            occupation := Pick(updated.occupation, stored.occupation),
            status := Pick(updated.status, stored.status),
            sessionCount := Pick(updated.sessionCount, stored.sessionCount),
            chiefComplaints := Pick(updated.chiefComplaints, stored.chiefComplaints),
            hopi := Pick(updated.hopi, stored.hopi),
            sessionHistory := Pick(updated.sessionHistory, stored.sessionHistory))
  }

  /** The merge never touches the client's identity, contact details or creation time; an
      empty patch changes nothing, and merging a patch twice is merging it once. */
  lemma MergeKeepsIdentity(stored: Store.Client, updated: Patch)
    ensures var m := Merge(stored, updated);
            m.id == stored.id && m.clientId == stored.clientId && m.email == stored.email
            && m.phone == stored.phone && m.gender == stored.gender
            && m.relationshipStatus == stored.relationshipStatus && m.createdAt == stored.createdAt
    ensures Merge(stored, Untouched) == stored
    ensures Merge(Merge(stored, updated), updated) == Merge(stored, updated)
  {
  }

  /** `clients.findIndex(c => c.id === id)`, with `None` for -1. */
  function FindClient(clients: seq<Store.Client>, id: string): (r: Option<nat>)
    ensures r.Some? ==> r.value < |clients| && clients[r.value].id == id
    ensures r.Some? ==> forall j :: 0 <= j < r.value ==> clients[j].id != id
    ensures r.None? ==> forall j :: 0 <= j < |clients| ==> clients[j].id != id
  {
    FindFirst(clients, (c: Store.Client) => c.id == id)
  }

  /** What `persist` leaves behind: the storage, and the merged client it hands to
      `setClient` (`None` when it returned early). */
  datatype PersistResult = PersistResult(items: map<string, Store.Cell>, merged: Option<Store.Client>)

  /** `persist(updated)` as seen from a closure whose `client` is `seen`. */
  function PersistEffect(items: map<string, Store.Cell>, seen: Option<Store.Client>, updated: Patch, written: bool): PersistResult {
    if seen.None? then PersistResult(items, None)
    else
      var clients := Store.LoadClients(items);
      var cleared := Store.AfterRead(items, Store.ClientsKey);
      match FindClient(clients, seen.value.id)
      case None => PersistResult(cleared, None)
      case Some(k) =>
        var merged := Merge(clients[k], updated);
        PersistResult(if written then cleared[Store.ClientsKey := Store.Json(Store.ClientsDoc(clients[k := merged]))] else cleared,
                      Some(merged))
  }

  /** The stored client with the same id as `seen` exists. */
  predicate Found(items: map<string, Store.Cell>, seen: Option<Store.Client>) {
    seen.Some? && FindClient(Store.LoadClients(items), seen.value.id).Some?
  }

  /** `persist` does nothing without a loaded client or when its id is no longer stored (the
      roster reads as before); otherwise it replaces exactly the first entry with that id by
      the merge, keeping the length and every other entry, and touches no other key. */
  lemma PersistSpec(items: map<string, Store.Cell>, seen: Option<Store.Client>, updated: Patch, written: bool)
    ensures seen.None? ==> PersistEffect(items, seen, updated, written) == PersistResult(items, None)
    ensures var e := PersistEffect(items, seen, updated, written);
            forall key :: key != Store.ClientsKey ==> Store.Lookup(e.items, key) == Store.Lookup(items, key)
    ensures var e := PersistEffect(items, seen, updated, written);
            e.merged.Some? <==> Found(items, seen)
    ensures var e := PersistEffect(items, seen, updated, written);
            !Found(items, seen) || !written ==> Store.LoadClients(e.items) == Store.LoadClients(items)
    ensures Found(items, seen) ==>
              var before := Store.LoadClients(items);
              var e := PersistEffect(items, seen, updated, written);
              var k := FindClient(before, seen.value.id).value;
              e.merged == Some(Merge(before[k], updated))
              && (written ==>
                    var after := Store.LoadClients(e.items);
                    |after| == |before| && after[k] == Merge(before[k], updated)
                    && forall j :: 0 <= j < |before| && j != k ==> after[j] == before[j])
  {
    Store.ReadIsIdempotent(items, Store.ClientsKey);
  }

  /** A `persist` that found its client finds it again at the same position: the merge keeps
      the id and the entries in front of it. */
  lemma PersistKeepsFound(items: map<string, Store.Cell>, seen: Option<Store.Client>, updated: Patch, written: bool)
    requires Found(items, seen)
    ensures var e := PersistEffect(items, seen, updated, written);
            Found(e.items, seen)
            && FindClient(Store.LoadClients(e.items), seen.value.id) == FindClient(Store.LoadClients(items), seen.value.id)
            && e.merged == Some(Merge(Store.LoadClients(items)[FindClient(Store.LoadClients(items), seen.value.id).value], updated))
            && (written ==> Store.LoadClients(e.items)[FindClient(Store.LoadClients(items), seen.value.id).value] == e.merged.value)
  {
    PersistSpec(items, seen, updated, written);
    if written {
      var before := Store.LoadClients(items);
      var k := FindClient(before, seen.value.id).value;
      MergeKeepsIdentity(before[k], updated);
      var after := Store.LoadClients(PersistEffect(items, seen, updated, written).items);
      assert after[k].id == seen.value.id;
      assert FindClient(after, seen.value.id) == Some(k);
    }
  }

  // ---------------------------------------------------------------------------
  // Pure pieces of the handlers
  // ---------------------------------------------------------------------------

  /** The follow-up moment stored with a session: the date and time combined (`combined`, the
      ISO string the browser builds from them) when both were entered, else the date as typed. */
  function FollowUp(date: string, time: string, combined: string): string {
    if date != "" && time != "" then combined else date
  }

  /** `(client.sessionHistory || []).filter(s => s.id !== recordId)`. */
  function WithoutRecord(history: seq<Store.SessionRecord>, recordId: string): seq<Store.SessionRecord> {
    Filter(history, (s: Store.SessionRecord) => s.id != recordId)
  }

  /** Deleting a record drops every record with that id, keeps every other one as often as it
      occurred, and keeps their order (deleting from a concatenation deletes from each part). */
  lemma {:induction false} WithoutRecordSpec(a: seq<Store.SessionRecord>, b: seq<Store.SessionRecord>, recordId: string)
    ensures forall s :: s in WithoutRecord(a, recordId) <==> s in a && s.id != recordId
    ensures forall s: Store.SessionRecord :: s.id != recordId ==> multiset(WithoutRecord(a, recordId))[s] == multiset(a)[s]
    ensures WithoutRecord(a + b, recordId) == WithoutRecord(a, recordId) + WithoutRecord(b, recordId)
  {
    var p := (s: Store.SessionRecord) => s.id != recordId;
    FilterMembers(a, p);
    FilterConcat(a, b, p);
    forall s: Store.SessionRecord | s.id != recordId
      ensures multiset(WithoutRecord(a, recordId))[s] == multiset(a)[s]
    {
      FilterMultiplicity(a, p, s);
    }
  }

  /** The age field's `onChange`: `Math.max(0, parseInt(value) || 0)`; text that does not parse
      counts as 0. */
  function TypedAge(value: string): (age: int)
    ensures age >= 0
    ensures ParseInt(value).Some? && ParseInt(value).value >= 0 ==> age == ParseInt(value).value
    ensures ParseInt(value).None? || ParseInt(value).value <= 0 ==> age == 0
  {
    var n := ParseInt(value);
    Max(0, if n.Some? then n.value else 0)
  }

  /** The history list shows the records newest first; entry `i` is numbered `length - i`. */
  function HistoryView(history: seq<Store.SessionRecord>): (view: seq<(int, Store.SessionRecord)>)
    ensures |view| == |history|
    ensures forall i :: 0 <= i < |view| ==> 1 <= view[i].0 <= |history| && view[i].1 == history[view[i].0 - 1]
    ensures forall i, j :: 0 <= i < j < |view| ==> view[j].0 < view[i].0
    ensures history != [] ==> view[0] == (|history|, history[|history| - 1])
  {
    seq(|history|, i requires 0 <= i < |history| => (|history| - i, history[|history| - 1 - i]))
  }

  /** Every record of the history appears in the list exactly under its own position number. */
  lemma HistoryViewNumbersEachRecord(history: seq<Store.SessionRecord>, n: int)
    requires 1 <= n <= |history|
    ensures exists i :: 0 <= i < |history| && HistoryView(history)[i] == (n, history[n - 1])
  {
    var view := HistoryView(history);
    assert view[|history| - n].0 == n;
  }

  // ---------------------------------------------------------------------------
  // The hold-to-repeat session timer (defined by the page, but no element calls
  // `startSessionChange`, so what follows is latent)
  // ---------------------------------------------------------------------------

  /** The minimal record a timer tick appends. */
  function TickRecord(recordId: string, now: string): Store.SessionRecord {
    Store.SessionRecord(recordId, now, "Recorded", "", "")
  }

  /** The stored history after one tick per record of `records`, as written: every tick
      appends its record to the history of the client captured when the hold started. */
  function HeldHistoryAsWritten(start: seq<Store.SessionRecord>, records: seq<Store.SessionRecord>): seq<Store.SessionRecord> {
    if records == [] then start
    else start + [records[|records| - 1]]
  }

  /** The stored history after the same ticks when each tick appends to the history the
      previous tick left. */
  function HeldHistory(start: seq<Store.SessionRecord>, records: seq<Store.SessionRecord>): seq<Store.SessionRecord> {
    if records == [] then start
    else HeldHistory(start, records[..|records| - 1]) + [records[|records| - 1]]
  }

  /** With each tick building on the last, the history gains every tick's record, in order. */
  lemma {:induction false} HeldHistoryKeepsEveryTick(start: seq<Store.SessionRecord>, records: seq<Store.SessionRecord>)
    ensures HeldHistory(start, records) == start + records
  {
    if records != [] {
      var init := records[..|records| - 1];
      HeldHistoryKeepsEveryTick(start, init);
      assert records == init + [records[|records| - 1]];
    }
  }

  /** As written, a hold of two or more ticks keeps only the last tick's record: the count
      moves once per tick but the history grows by one. */
  lemma StaleHoldLosesRecords(start: seq<Store.SessionRecord>, records: seq<Store.SessionRecord>)
    requires |records| >= 2
    ensures |HeldHistoryAsWritten(start, records)| == |start| + 1 < |start| + |records|
    ensures HeldHistoryAsWritten(start, records) != HeldHistory(start, records)
  {
    HeldHistoryKeepsEveryTick(start, records);
  }

  /** Two ticks from an empty history: two records were made, one is stored. */
  lemma TwoTicksKeepOneRecord()
    ensures HeldHistoryAsWritten([], [TickRecord("a", "t1"), TickRecord("b", "t2")]) == [TickRecord("b", "t2")]
    ensures HeldHistory([], [TickRecord("a", "t1"), TickRecord("b", "t2")]) == [TickRecord("a", "t1"), TickRecord("b", "t2")]
  {
    HeldHistoryKeepsEveryTick([], [TickRecord("a", "t1"), TickRecord("b", "t2")]);
  }

  // ---------------------------------------------------------------------------
  // The page
  // ---------------------------------------------------------------------------

  class ProfilePage {
    const storage: Store.LocalStorage
    var client: Option<Store.Client>
    var editing: bool
    var timeFormat: Store.TimeFormat
    var name: string
    var age: int
    var occupation: string
    var status: Store.ClientStatus
    var sessionCount: int
    var chiefComplaints: string
    var hopi: string
    var sessionNotes: string
    var followUpDate: string
    var followUpTime: string
    var followUpNotes: string

    /** The editable fields show the stored client `c`. */
    predicate Shows(c: Store.Client)
      reads this
    {
      client == Some(c) && name == c.name && age == c.age && occupation == c.occupation && status == c.status
      && sessionCount == c.sessionCount && chiefComplaints == c.chiefComplaints && hopi == c.hopi
    }

    /** The storage and the page's client after a `persist` with effect `e`. */
    predicate After(e: PersistResult, prior: Option<Store.Client>)
      reads this, storage
    {
      storage.items == e.items && client == (if e.merged.Some? then e.merged else prior)
    }

    /** The page's initial state: no client and empty fields. */
    constructor (storage: Store.LocalStorage)
      ensures this.storage == storage && client == None && !editing
      ensures sessionNotes == "" && followUpDate == "" && followUpTime == "" && followUpNotes == ""
    {
      this.storage := storage;
      client := None;
      editing := false;
      timeFormat := Store.TwelveHour;
      name, age, occupation, status, sessionCount := "", 0, "", Store.Active, 0;
      chiefComplaints, hopi := "", "";
      sessionNotes, followUpDate, followUpTime, followUpNotes := "", "", "", "";
    }

    /** The mount effect for `id`: the fields show the first stored client with that id (and
        the settings are read for the time format), or the page stays as it was (and navigates
        back to the roster) when there is none. */
    method Open(id: string)
      modifies this`client, this`name, this`age, this`occupation, this`status, this`sessionCount,
               this`chiefComplaints, this`hopi, this`timeFormat, storage
      ensures var found := FindClient(Store.LoadClients(old(storage.items)), id);
              found.None? ==> client == old(client) && storage.items == Store.AfterRead(old(storage.items), Store.ClientsKey)
      ensures var clients := Store.LoadClients(old(storage.items));
              var found := FindClient(clients, id);
              found.Some? ==> Shows(clients[found.value])
      ensures var afterRoster := Store.AfterRead(old(storage.items), Store.ClientsKey);
              FindClient(Store.LoadClients(old(storage.items)), id).Some? ==>
                storage.items == Store.AfterRead(afterRoster, Store.SiteSettingsKey)
                && timeFormat == Store.LoadSiteSettings(afterRoster).timeFormat
    {
      var clients := storage.GetClients();
      var found := FindClient(clients, id);
      if found.None? {
        return;
      }
      var c := clients[found.value];
      client := Some(c);
      name, age, occupation, status, sessionCount := c.name, c.age, c.occupation, c.status, c.sessionCount;
      chiefComplaints, hopi := c.chiefComplaints, c.hopi;
      var settings := storage.GetSiteSettings();
      timeFormat := settings.timeFormat;
    }

    /** `persist(updated)` from a closure that sees `seen` as the page's client. */
    method Persist(seen: Option<Store.Client>, updated: Patch, written: bool)
      modifies this`client, storage
      ensures After(PersistEffect(old(storage.items), seen, updated, written), old(client))
    {
      if seen.None? {
        return;
      }
      var clients := storage.GetClients();
      var idx := FindClient(clients, seen.value.id);
      if idx.None? {
        return;
      }
      var merged := Merge(clients[idx.value], updated);
      clients := clients[idx.value := merged];
      storage.SaveClients(clients, written);
      client := Some(merged);
    }

    /** `handleSaveProfile`: saves the profile fields and leaves edit mode. */
    method HandleSaveProfile(written: bool)
      modifies this`client, this`editing, storage
      ensures After(PersistEffect(old(storage.items), old(client),
                                  Patch(Some(name), Some(age), Some(occupation), Some(status), Some(sessionCount), None, None, None),
                                  written), old(client))
      ensures !editing
    {
      Persist(client, Patch(Some(name), Some(age), Some(occupation), Some(status), Some(sessionCount), None, None, None), written);
      editing := false;
    }

    /** `handleSaveAll`: the profile fields and both clinical notes, then leaves edit mode. */
    method HandleSaveAll(written: bool)
      modifies this`client, this`editing, storage
      ensures After(PersistEffect(old(storage.items), old(client),
                                  Patch(Some(name), Some(age), Some(occupation), Some(status), Some(sessionCount),
                                        Some(chiefComplaints), Some(hopi), None),
                                  written), old(client))
      ensures !editing
    {
      Persist(client, Patch(Some(name), Some(age), Some(occupation), Some(status), Some(sessionCount),
                            Some(chiefComplaints), Some(hopi), None), written);
      editing := false;
    }

    /** `handleSaveComplaints`. */
    method HandleSaveComplaints(written: bool)
      modifies this`client, storage
      ensures After(PersistEffect(old(storage.items), old(client), Untouched.(chiefComplaints := Some(chiefComplaints)), written), old(client))
    {
      Persist(client, Untouched.(chiefComplaints := Some(chiefComplaints)), written);
    }

    /** `handleSaveHopi`. */
    method HandleSaveHopi(written: bool)
      modifies this`client, storage
      ensures After(PersistEffect(old(storage.items), old(client), Untouched.(hopi := Some(hopi)), written), old(client))
    {
      Persist(client, Untouched.(hopi := Some(hopi)), written);
    }

    /** `handleSaveSession`: appends one record (id and date supplied) to the loaded client's
        history, saves it with the clinical notes and clears the session form. */
    method HandleSaveSession(recordId: string, now: string, combined: string, written: bool)
      modifies this`client, this`sessionNotes, this`followUpDate, this`followUpTime, this`followUpNotes, storage
      ensures old(client).None? ==>
                storage.items == old(storage.items) && client == old(client)
                && sessionNotes == old(sessionNotes) && followUpDate == old(followUpDate)
                && followUpTime == old(followUpTime) && followUpNotes == old(followUpNotes)
      ensures old(client).Some? ==>
                var record := Store.SessionRecord(recordId, now, old(sessionNotes),
                                                  FollowUp(old(followUpDate), old(followUpTime), combined), old(followUpNotes));
                After(PersistEffect(old(storage.items), old(client),
                                    Untouched.(chiefComplaints := Some(chiefComplaints), hopi := Some(hopi),
                                               sessionHistory := Some(old(client).value.sessionHistory + [record])),
                                    written), old(client))
                && sessionNotes == "" && followUpDate == "" && followUpTime == "" && followUpNotes == ""
      ensures Found(old(storage.items), old(client)) ==>
                client.Some? && |client.value.sessionHistory| == |old(client).value.sessionHistory| + 1
                && client.value.sessionHistory[..|old(client).value.sessionHistory|] == old(client).value.sessionHistory
                && (old(followUpTime) == "" ==> client.value.sessionHistory[|old(client).value.sessionHistory|].followUpDate == old(followUpDate))
    {
      if client.None? {
        return;
      }
      var fullFollowUpDate := FollowUp(followUpDate, followUpTime, combined);
      var record := Store.SessionRecord(recordId, now, sessionNotes, fullFollowUpDate, followUpNotes);
      var history := client.value.sessionHistory + [record];
      ghost var before := client.value.sessionHistory;
      PersistSpec(storage.items, client, Untouched.(chiefComplaints := Some(chiefComplaints), hopi := Some(hopi), sessionHistory := Some(history)), written);
      Persist(client, Untouched.(chiefComplaints := Some(chiefComplaints), hopi := Some(hopi), sessionHistory := Some(history)), written);
      assert history[..|before|] == before;
      sessionNotes, followUpDate, followUpTime, followUpNotes := "", "", "", "";
    }

    /** `deleteSessionRecord`: saves the loaded client's history without that record. */
    method DeleteSessionRecord(recordId: string, written: bool)
      modifies this`client, storage
      ensures old(client).None? ==> storage.items == old(storage.items) && client == old(client)
      ensures old(client).Some? ==>
                After(PersistEffect(old(storage.items), old(client),
                                    Untouched.(sessionHistory := Some(WithoutRecord(old(client).value.sessionHistory, recordId))),
                                    written), old(client))
    {
      if client.None? {
        return;
      }
      var history := WithoutRecord(client.value.sessionHistory, recordId);
      Persist(client, Untouched.(sessionHistory := Some(history)), written);
    }

    /** `incrementSession`. */
    method IncrementSession(written: bool)
      modifies this`client, this`sessionCount, storage
      ensures sessionCount == old(sessionCount) + 1
      ensures After(PersistEffect(old(storage.items), old(client), Untouched.(sessionCount := Some(sessionCount)), written), old(client))
    {
      var next := sessionCount + 1;
      sessionCount := next;
      Persist(client, Untouched.(sessionCount := Some(next)), written);
    }

    /** `decrementSession`: one less, but never below 0. */
    method DecrementSession(written: bool)
      modifies this`client, this`sessionCount, storage
      ensures sessionCount >= 0
      ensures old(sessionCount) >= 1 ==> sessionCount == old(sessionCount) - 1
      ensures old(sessionCount) < 1 ==> sessionCount == 0
      ensures After(PersistEffect(old(storage.items), old(client), Untouched.(sessionCount := Some(sessionCount)), written), old(client))
    {
      var next := Max(0, sessionCount - 1);
      sessionCount := next;
      Persist(client, Untouched.(sessionCount := Some(next)), written);
    }

    /** `startAgeChange(delta)`: steps the age (never below 0) and then runs `stopAgeChange`,
        whose closure still sees the age from before the step and saves that. */
    method StartAgeChange(delta: int, written: bool)
      modifies this`client, this`age, storage
      ensures age >= 0 && age == Max(0, old(age) + delta)
      ensures After(PersistEffect(old(storage.items), old(client), Untouched.(age := Some(old(age))), written), old(client))
    {
      var seenAge := age;
      age := Max(0, age + delta);
      Persist(client, Untouched.(age := Some(seenAge)), written);
    }

    /** One tick of the age timer. */
    method AgeTick(delta: int)
      modifies this`age
      ensures age >= 0 && age == Max(0, old(age) + delta)
    {
      age := Max(0, age + delta);
    }

    /** `stopAgeChange` on release: saves the age shown. */
    method StopAgeChange(written: bool)
      modifies this`client, storage
      ensures After(PersistEffect(old(storage.items), old(client), Untouched.(age := Some(age)), written), old(client))
    {
      Persist(client, Untouched.(age := Some(age)), written);
    }

    /** Typing in the age field, which is read-only outside edit mode. */
    method TypeAge(value: string)
      modifies this`age
      ensures editing ==> age >= 0
      ensures age == if editing then TypedAge(value) else old(age)
    {
      if editing {
        age := TypedAge(value);
      }
    }

    /** `startSessionChange(delta)`'s immediate step: the count moves by `delta`, never below
        0, and is saved. */
    method StartSessionChange(delta: int, written: bool)
      modifies this`client, this`sessionCount, storage
      ensures sessionCount >= 0 && sessionCount == Max(0, old(sessionCount) + delta)
      ensures After(PersistEffect(old(storage.items), old(client), Untouched.(sessionCount := Some(sessionCount)), written), old(client))
    {
      var next := Max(0, sessionCount + delta);
      Persist(client, Untouched.(sessionCount := Some(next)), written);
      sessionCount := next;
    }

    /** A session-timer tick as written: the callback sees `captured`, the page's client when
        the hold started, so the history it saves is that client's history plus one record. */
    method SessionTickAsWritten(captured: Option<Store.Client>, delta: int, recordId: string, now: string, written: bool)
      modifies this`client, this`sessionCount, storage
      ensures sessionCount >= 0 && sessionCount == Max(0, old(sessionCount) + delta)
      ensures captured.Some? ==>
                After(PersistEffect(old(storage.items), captured,
                                    Untouched.(sessionHistory := Some(captured.value.sessionHistory + [TickRecord(recordId, now)]),
                                               sessionCount := Some(sessionCount)),
                                    written), old(client))
      ensures captured.None? ==> storage.items == old(storage.items) && client == old(client)
    {
      var next := Max(0, sessionCount + delta);
      if captured.Some? {
        var history := captured.value.sessionHistory + [TickRecord(recordId, now)];
        Persist(captured, Untouched.(sessionHistory := Some(history), sessionCount := Some(next)), written);
      } else {
        Persist(captured, Untouched.(sessionCount := Some(next)), written);
      }
      sessionCount := next;
    }

    /** Two ticks of one hold as written: both callbacks see the client captured when the hold
        started, so the page's client and the stored entry end with that client's history plus
        the second record only, as `HeldHistoryAsWritten` says. */
    method HoldTwoTicksAsWritten(captured: Option<Store.Client>, delta: int, id1: string, t1: string,
                                 id2: string, t2: string, written: bool)
      requires Found(storage.items, captured)
      modifies this`client, this`sessionCount, storage
      ensures sessionCount == Max(0, Max(0, old(sessionCount) + delta) + delta)
      ensures client.Some?
      ensures client.value.sessionHistory
                == HeldHistoryAsWritten(captured.value.sessionHistory, [TickRecord(id1, t1), TickRecord(id2, t2)])
      ensures written ==>
                var stored := Store.LoadClients(storage.items);
                FindClient(stored, captured.value.id).Some? && stored[FindClient(stored, captured.value.id).value] == client.value
    {
      var items0 := storage.items;
      var count0 := sessionCount;
      SessionTickAsWritten(captured, delta, id1, t1, written);
      PersistKeepsFound(items0, captured, Untouched.(sessionHistory := Some(captured.value.sessionHistory + [TickRecord(id1, t1)]),
                                                     sessionCount := Some(Max(0, count0 + delta))), written);
      var items1 := storage.items;
      var count1 := sessionCount;
      SessionTickAsWritten(captured, delta, id2, t2, written);
      PersistKeepsFound(items1, captured, Untouched.(sessionHistory := Some(captured.value.sessionHistory + [TickRecord(id2, t2)]),
                                                     sessionCount := Some(Max(0, count1 + delta))), written);
    }

    /** A session-timer tick that reads the page's current client, so that consecutive ticks
        each add their record to what the previous tick saved. */
    method SessionTick(delta: int, recordId: string, now: string, written: bool)
      modifies this`client, this`sessionCount, storage
      ensures sessionCount >= 0 && sessionCount == Max(0, old(sessionCount) + delta)
      ensures old(client).Some? ==>
                After(PersistEffect(old(storage.items), old(client),
                                    Untouched.(sessionHistory := Some(old(client).value.sessionHistory + [TickRecord(recordId, now)]),
                                               sessionCount := Some(sessionCount)),
                                    written), old(client))
      ensures Found(old(storage.items), old(client)) ==>
                client.Some? && client.value.sessionHistory == old(client).value.sessionHistory + [TickRecord(recordId, now)]
                && client.value.sessionCount == sessionCount
      ensures old(client).None? ==> storage.items == old(storage.items) && client == old(client)
    {
      var next := Max(0, sessionCount + delta);
      if client.Some? {
        var history := client.value.sessionHistory + [TickRecord(recordId, now)];
        PersistSpec(storage.items, client, Untouched.(sessionHistory := Some(history), sessionCount := Some(next)), written);
        Persist(client, Untouched.(sessionHistory := Some(history), sessionCount := Some(next)), written);
      } else {
        Persist(client, Untouched.(sessionCount := Some(next)), written);
      }
      sessionCount := next;
    }
  }
}
