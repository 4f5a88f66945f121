/** The React overview page `src/pages/Dashboard.tsx`: selectors over the four freshly loaded
    lists, each box showing at most five items under a count label. */
module Dashboard {
  import opened Common
  import Store

  const BoxSize := 5

  /** `${n} ${noun}${n !== 1 ? 's' : ''}`. */
  function CountLabel(n: nat, noun: string): string {
    NatToDecimal(n) + " " + noun + (if n != 1 then "s" else "")
  }

  /** The singular appears only for exactly one item. */
  lemma CountLabelPlural(n: nat, noun: string)
    ensures n == 1 ==> CountLabel(n, noun) == "1 " + noun
    ensures n != 1 ==> |CountLabel(n, noun)| == |NatToDecimal(n)| + |noun| + 2
                       && CountLabel(n, noun)[|CountLabel(n, noun)| - 1] == 's'
                       && CountLabel(n, noun)[..|CountLabel(n, noun)| - 1] == NatToDecimal(n) + " " + noun
  {
    if n == 1 {
      assert NatToDecimal(1) == "1";
    } else {
      var stem := NatToDecimal(n) + " " + noun;
      assert CountLabel(n, noun) == stem + "s";
      assert (stem + "s")[..|stem|] == stem;
    }
  }

  /** `upcomingAppointments`: the appointments after `now`, soonest first. */
  function UpcomingAppointments(appointments: seq<Store.Appointment>, now: int): seq<Store.Appointment> {
    SortBy(Filter(appointments, (a: Store.Appointment) => a.dateTime > now), (a: Store.Appointment) => a.dateTime)
  }

  /** `upcomingSessions`: the sessions scheduled after `now`, soonest first. */
  function UpcomingSessions(sessions: seq<Store.Session>, now: int): seq<Store.Session> {
    SortBy(Filter(sessions, (s: Store.Session) => s.scheduledDate > now), (s: Store.Session) => s.scheduledDate)
  }

  /** `createdAt || 0`. */
  function CreatedOrZero(c: Store.Client): int {
    if c.createdAt.Some? then c.createdAt.value else 0
  }

  /** `completedClients`: the completed clients, newest first (a missing creation time counts
      as 0); the comparator `b - a` is an ascending sort on the negated key. */
  function CompletedClients(clients: seq<Store.Client>): seq<Store.Client> {
    SortBy(Filter(clients, (c: Store.Client) => c.status == Store.Completed), (c: Store.Client) => -CreatedOrZero(c))
  }

  /** The upcoming appointments are exactly those after `now`, each as often as it is stored,
      in ascending time order. */
  lemma UpcomingAppointmentsSpec(appointments: seq<Store.Appointment>, now: int)
    ensures var r := UpcomingAppointments(appointments, now);
            (forall a :: a in r <==> a in appointments && a.dateTime > now)
            && (forall a: Store.Appointment :: a.dateTime > now ==> multiset(r)[a] == multiset(appointments)[a])
            && (forall i, j :: 0 <= i < j < |r| ==> r[i].dateTime <= r[j].dateTime)
  {
    FilterSortSpec(appointments, (a: Store.Appointment) => a.dateTime > now, (a: Store.Appointment) => a.dateTime);
  }

  /** The upcoming sessions are exactly those scheduled after `now`, in ascending order. */
  lemma UpcomingSessionsSpec(sessions: seq<Store.Session>, now: int)
    ensures var r := UpcomingSessions(sessions, now);
            (forall s :: s in r <==> s in sessions && s.scheduledDate > now)
            && (forall s: Store.Session :: s.scheduledDate > now ==> multiset(r)[s] == multiset(sessions)[s])
            && (forall i, j :: 0 <= i < j < |r| ==> r[i].scheduledDate <= r[j].scheduledDate)
  {
    FilterSortSpec(sessions, (s: Store.Session) => s.scheduledDate > now, (s: Store.Session) => s.scheduledDate);
  }

  /** The completed box holds exactly the completed clients, newest first. */
  lemma CompletedClientsSpec(clients: seq<Store.Client>)
    ensures var r := CompletedClients(clients);
            (forall c :: c in r <==> c in clients && c.status == Store.Completed)
            && (forall c: Store.Client :: c.status == Store.Completed ==> multiset(r)[c] == multiset(clients)[c])
            && (forall i, j :: 0 <= i < j < |r| ==> CreatedOrZero(r[i]) >= CreatedOrZero(r[j]))
  {
    FilterSortSpec(clients, (c: Store.Client) => c.status == Store.Completed, (c: Store.Client) => -CreatedOrZero(c));
  }

  /** What the overview shows: the stat cards and the four boxes with their count labels. */
  datatype Overview = Overview(
    clientCount: nat,
    sessionCount: nat,
    completedCases: nat,
    deletedLabel: string,
    deletedShown: seq<Store.DeletedClient>,
    completedLabel: string,
    completedShown: seq<Store.Client>,
    appointmentsLabel: string,
    appointmentsShown: seq<Store.Appointment>,
    sessionsLabel: string,
    sessionsShown: seq<Store.Session>)

  /** The page for the loaded lists at time `now`. */
  function OverviewOf(clients: seq<Store.Client>, deleted: seq<Store.DeletedClient>, appointments: seq<Store.Appointment>,
                      sessions: seq<Store.Session>, now: int): Overview
  {
    var completed := CompletedClients(clients);
    var upcomingAppointments := UpcomingAppointments(appointments, now);
    var upcomingSessions := UpcomingSessions(sessions, now);
    Overview(|clients|, |sessions|, |deleted|,
             CountLabel(|deleted|, "client"), Take(deleted, BoxSize),
             CountLabel(|completed|, "client"), Take(completed, BoxSize),
             CountLabel(|upcomingAppointments|, "appointment"), Take(upcomingAppointments, BoxSize),
             CountLabel(|upcomingSessions|, "session"), Take(upcomingSessions, BoxSize))
  }

  /** Each box shows the first (at most) five of its list while its label counts the whole
      list; the completed-cases card counts the tombstones; the appointments box shows the
      soonest future appointments. */
  lemma OverviewSpec(clients: seq<Store.Client>, deleted: seq<Store.DeletedClient>, appointments: seq<Store.Appointment>,
                     sessions: seq<Store.Session>, now: int)
    ensures var o := OverviewOf(clients, deleted, appointments, sessions, now);
            o.completedCases == |deleted|
            && |o.deletedShown| <= BoxSize && o.deletedShown <= deleted
            && |o.completedShown| <= BoxSize && |o.appointmentsShown| <= BoxSize && |o.sessionsShown| <= BoxSize
            && o.appointmentsLabel == CountLabel(|Filter(appointments, (a: Store.Appointment) => a.dateTime > now)|, "appointment")
            && (forall a :: a in o.appointmentsShown ==> a in appointments && a.dateTime > now)
            && (forall i, j :: 0 <= i < j < |o.appointmentsShown| ==> o.appointmentsShown[i].dateTime <= o.appointmentsShown[j].dateTime)
  {
    var future := Filter(appointments, (a: Store.Appointment) => a.dateTime > now);
    SortBySpec(future, (a: Store.Appointment) => a.dateTime);
    UpcomingAppointmentsSpec(appointments, now);
    var o := OverviewOf(clients, deleted, appointments, sessions, now);
    var up := UpcomingAppointments(appointments, now);
    assert o.appointmentsShown <= up;
    forall a | a in o.appointmentsShown ensures a in appointments && a.dateTime > now {
      var i :| 0 <= i < |o.appointmentsShown| && o.appointmentsShown[i] == a;
      assert up[i] == a;
    }
  }
}
