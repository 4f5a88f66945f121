/** The insights page `src/pages/Insights.tsx`: the earnings table of the selected month (add,
    edit, delete a day, set the month's total), the per-day earnings chart, the age summary and
    age bands of the clients added in the month, and the month's counters. Amounts are whole
    paise; a number field is `None` when it is empty. */
module Insights {
  import opened Common
  import Store
  import Calendar

  // ---------------------------------------------------------------------------
  // The earnings table
  // ---------------------------------------------------------------------------

  /** The entry belongs to (day, month, year). */
  predicate InSlot(e: Store.Earning, day: int, month: int, year: int) {
    e.day == day && e.month == month && e.year == year
  }

  predicate SameSlot(a: Store.Earning, b: Store.Earning) {
    InSlot(a, b.day, b.month, b.year)
  }

  /** At most one entry per (day, month, year), the invariant the add handler keeps. */
  predicate UniqueSlots(es: seq<Store.Earning>) {
    forall i, j :: 0 <= i < j < |es| ==> !SameSlot(es[i], es[j])
  }

  /** `findIndex` for (day, month, year): the first matching position. */
  function FindSlot(es: seq<Store.Earning>, day: int, month: int, year: int): (r: Option<nat>)
    ensures r.None? <==> forall i :: 0 <= i < |es| ==> !InSlot(es[i], day, month, year)
    ensures r.Some? ==> r.value < |es| && InSlot(es[r.value], day, month, year)
    ensures r.Some? ==> forall i :: 0 <= i < r.value ==> !InSlot(es[i], day, month, year)
  {
    if es == [] then None
    else if InSlot(es[0], day, month, year) then Some(0)
    else match FindSlot(es[1..], day, month, year)
         case None => None
         case Some(k) => Some(k + 1)
  }

  /** How many entries belong to (day, month, year). */
  function SlotCount(es: seq<Store.Earning>, day: int, month: int, year: int): nat {
    if es == [] then 0
    else SlotCount(es[..|es| - 1], day, month, year) + (if InSlot(es[|es| - 1], day, month, year) then 1 else 0)
  }

  lemma {:induction false} SlotCountZero(es: seq<Store.Earning>, day: int, month: int, year: int)
    ensures SlotCount(es, day, month, year) == 0 <==> forall i :: 0 <= i < |es| ==> !InSlot(es[i], day, month, year)
  {
    if es != [] {
      SlotCountZero(es[..|es| - 1], day, month, year);
    }
  }

  /** Without repeated slots, an occupied slot holds exactly one entry. */
  lemma {:induction false} UniqueSlotCount(es: seq<Store.Earning>, i: nat)
    requires UniqueSlots(es) && i < |es|
    ensures SlotCount(es, es[i].day, es[i].month, es[i].year) == 1
  {
    var init := es[..|es| - 1];
    var last := es[|es| - 1];
    assert UniqueSlots(init);
    if i == |es| - 1 {
      SlotCountZero(init, last.day, last.month, last.year);
    } else {
      UniqueSlotCount(init, i);
      assert !SameSlot(es[i], last);
    }
  }

  /** What a handler does to a matching entry: set or adjust its amount, and stamp it. */
  datatype Change = SetAmount(amount: int) | AddAmount(delta: int)

  function Changed(e: Store.Earning, change: Change, now: int): Store.Earning {
    match change
    case SetAmount(a) => e.(amount := a, timestamp := now)
    case AddAmount(d) => e.(amount := e.amount + d, timestamp := now)
  }

  /** `earnings.map(e => matches(e) ? {...e, amount, timestamp: now} : e)`. */
  function UpdateSlot(es: seq<Store.Earning>, day: int, month: int, year: int, change: Change, now: int): (r: seq<Store.Earning>)
    ensures |r| == |es|
    ensures forall i :: 0 <= i < |es| ==>
              r[i] == if InSlot(es[i], day, month, year) then Changed(es[i], change, now) else es[i]
  {
    if es == [] then []
    else
      var last := es[|es| - 1];
      UpdateSlot(es[..|es| - 1], day, month, year, change, now)
        + [if InSlot(last, day, month, year) then Changed(last, change, now) else last]
  }

  /** The entries of the month (`monthEarnings`), in list order. */
  function MonthEarnings(es: seq<Store.Earning>, month: int, year: int): seq<Store.Earning> {
    if es == [] then []
    else
      var last := es[|es| - 1];
      MonthEarnings(es[..|es| - 1], month, year) + (if last.month == month && last.year == year then [last] else [])
  }

  /** The month's entries are exactly the entries dated in that month. */
  lemma {:induction false} MonthEarningsMembers(es: seq<Store.Earning>, month: int, year: int)
    ensures |MonthEarnings(es, month, year)| <= |es|
    ensures forall e :: e in MonthEarnings(es, month, year) <==> e in es && e.month == month && e.year == year
  {
    if es != [] {
      var init := es[..|es| - 1];
      MonthEarningsMembers(init, month, year);
      assert es == init + [es[|es| - 1]];
    }
  }

  function AmountTotal(es: seq<Store.Earning>): int {
    if es == [] then 0 else AmountTotal(es[..|es| - 1]) + es[|es| - 1].amount
  }

  /** `totalMonthEarnings`. */
  function MonthTotal(es: seq<Store.Earning>, month: int, year: int): int {
    AmountTotal(MonthEarnings(es, month, year))
  }

  lemma MonthTotalStep(es: seq<Store.Earning>, e: Store.Earning, month: int, year: int)
    ensures MonthTotal(es + [e], month, year) == MonthTotal(es, month, year) + (if e.month == month && e.year == year then e.amount else 0)
  {
    assert (es + [e])[..|es|] == es;
    var m := MonthEarnings(es, month, year);
    if e.month == month && e.year == year {
      assert (m + [e])[..|m|] == m;
    } else {
      assert m + [] == m;
    }
  }

  /** Adjusting the entries of one slot by `delta` moves that month's total by `delta` per
      entry in the slot. */
  lemma {:induction false} AdjustSlotTotal(es: seq<Store.Earning>, day: int, month: int, year: int, delta: int, now: int)
    ensures MonthTotal(UpdateSlot(es, day, month, year, AddAmount(delta), now), month, year)
            == MonthTotal(es, month, year) + delta * SlotCount(es, day, month, year)
  {
    if es != [] {
      var init := es[..|es| - 1];
      var last := es[|es| - 1];
      var before := UpdateSlot(init, day, month, year, AddAmount(delta), now);
      var changed := if InSlot(last, day, month, year) then Changed(last, AddAmount(delta), now) else last;
      var c := SlotCount(init, day, month, year);
      var shift := if last.month == month && last.year == year then last.amount else 0;
      var bump := if InSlot(last, day, month, year) then delta else 0;
      calc {
        MonthTotal(UpdateSlot(es, day, month, year, AddAmount(delta), now), month, year);
        { assert UpdateSlot(es, day, month, year, AddAmount(delta), now) == before + [changed]; }
        MonthTotal(before + [changed], month, year);
        { MonthTotalStep(before, changed, month, year); }
        MonthTotal(before, month, year) + shift + bump;
        { AdjustSlotTotal(init, day, month, year, delta, now); }
        MonthTotal(init, month, year) + delta * c + shift + bump;
        { assert es == init + [last]; MonthTotalStep(init, last, month, year); }
        MonthTotal(es, month, year) + delta * c + bump;
        { MulStep(delta, c, SlotCount(es, day, month, year), InSlot(last, day, month, year)); }
        MonthTotal(es, month, year) + delta * SlotCount(es, day, month, year);
      }
    }
  }

  lemma MulStep(delta: int, c: int, count: int, hit: bool)
    requires count == c + (if hit then 1 else 0)
    ensures delta * c + (if hit then delta else 0) == delta * count
  {
    if hit {
      MulSucc(delta, c);
    }
  }

  /** Adjusting the entries of one slot leaves every other month's total alone. */
  lemma {:induction false} AdjustSlotOtherMonths(es: seq<Store.Earning>, day: int, month: int, year: int, delta: int, now: int,
                                                 m: int, y: int)
    requires (m, y) != (month, year)
    ensures MonthTotal(UpdateSlot(es, day, month, year, AddAmount(delta), now), m, y) == MonthTotal(es, m, y)
  {
    if es != [] {
      var init := es[..|es| - 1];
      var last := es[|es| - 1];
      var before := UpdateSlot(init, day, month, year, AddAmount(delta), now);
      var changed := if InSlot(last, day, month, year) then Changed(last, AddAmount(delta), now) else last;
      assert es == init + [last];
      assert UpdateSlot(es, day, month, year, AddAmount(delta), now) == before + [changed];
      AdjustSlotOtherMonths(init, day, month, year, delta, now, m, y);
      MonthTotalStep(init, last, m, y);
      MonthTotalStep(before, changed, m, y);
    }
  }

  lemma MulSucc(a: int, c: int)
    ensures a * (c + 1) == a * c + a
  {
  }

  /** Changing amounts never changes which slot an entry belongs to. */
  lemma UpdateSlotKeepsUnique(es: seq<Store.Earning>, day: int, month: int, year: int, change: Change, now: int)
    requires UniqueSlots(es)
    ensures UniqueSlots(UpdateSlot(es, day, month, year, change, now))
  {
    var r := UpdateSlot(es, day, month, year, change, now);
    assert forall i :: 0 <= i < |es| ==> r[i].day == es[i].day && r[i].month == es[i].month && r[i].year == es[i].year;
  }

  /** The day check of `handleAddEarning` as written: an empty field is refused and a parsed
      day outside 1..maxDays is refused, but a day `parseInt` cannot read (NaN) fails both
      comparisons and is let through. */
  predicate DayCheckAsWritten(earnDay: string, maxDays: int) {
    earnDay != "" && match ParseInt(earnDay)
                     case None => true
                     case Some(d) => !(d < 1 || d > maxDays)
  }

  /** ".5" is a value a number field accepts; `parseInt` reads no digit from it, and the check
      as written accepts it, so an entry with no day would be stored. */
  lemma NaNDayPassesCheck()
    ensures DayCheckAsWritten(".5", 31) && ParseInt(".5").None?
  {
    assert !IsSpace('.');
    assert TrimStart(".5") == ".5";
    assert DigitPrefix(".5") == [];
  }

  /** The day the add handler should accept: a field that reads as a day of the month. */
  function EarnDay(earnDay: string, maxDays: int): (r: Option<int>)
    ensures r.Some? <==> earnDay != "" && ParseInt(earnDay).Some? && 1 <= ParseInt(earnDay).value <= maxDays
    ensures r.Some? ==> r == ParseInt(earnDay)
  {
    if earnDay == "" then None
    else match ParseInt(earnDay)
         case None => None
         case Some(d) => if d < 1 || d > maxDays then None else Some(d)
  }

  /** The corrected check refuses everything the written one refuses, and every day it accepts
      lies in the month. */
  lemma EarnDayIsStricter(earnDay: string, maxDays: int)
    ensures EarnDay(earnDay, maxDays).Some? ==> DayCheckAsWritten(earnDay, maxDays)
    ensures EarnDay(earnDay, maxDays).Some? ==> 1 <= EarnDay(earnDay, maxDays).value <= maxDays
    ensures !EarnDay(".5", 31).Some?
  {
    NaNDayPassesCheck();
  }

  /** `handleAddEarning` on the list: `None` when nothing happens; otherwise the entry for the
      slot gets the new amount and time, or a new entry (id = the time as text) is appended. */
  function AddEarning(es: seq<Store.Earning>, earnDay: string, earnAmount: Option<int>, maxDays: int,
                      month: int, year: int, now: int): (r: Option<seq<Store.Earning>>)
    ensures earnAmount.None? || EarnDay(earnDay, maxDays).None? ==> r.None?
    ensures r.Some? ==>
              var day := EarnDay(earnDay, maxDays).value;
              && SlotCount(r.value, day, month, year) >= 1
              && (forall i :: (0 <= i < |r.value| && InSlot(r.value[i], day, month, year) && SlotCount(es, day, month, year) <= 1)
                                 ==> r.value[i].amount == earnAmount.value && r.value[i].timestamp == now)
              && (FindSlot(es, day, month, year).Some? ==> |r.value| == |es|)
              && (FindSlot(es, day, month, year).Some? ==>
                    var i := FindSlot(es, day, month, year).value;
                    r.value == es[i := es[i].(amount := earnAmount.value, timestamp := now)])
              && (FindSlot(es, day, month, year).None? ==> r.value == es + [Store.Earning(IntToDecimal(now), day, month, year, earnAmount.value, now)])
              && (forall i :: 0 <= i < |es| && !InSlot(es[i], day, month, year) ==> r.value[i] == es[i])
  {
    if earnAmount.None? || EarnDay(earnDay, maxDays).None? then None
    else
      var day := EarnDay(earnDay, maxDays).value;
      var amount := earnAmount.value;
      match FindSlot(es, day, month, year)
      case Some(i) =>
        var updated := es[i := es[i].(amount := amount, timestamp := now)];
        AddAtSlot(es, i, updated, day, month, year, amount, now);
        Some(updated)
      case None =>
        var updated := es + [Store.Earning(IntToDecimal(now), day, month, year, amount, now)];
        SlotCountZero(es, day, month, year);
        assert updated[..|es|] == es;
        Some(updated)
  }

  lemma AddAtSlot(es: seq<Store.Earning>, i: nat, updated: seq<Store.Earning>, day: int, month: int, year: int, amount: int, now: int)
    requires i < |es| && InSlot(es[i], day, month, year)
    requires FindSlot(es, day, month, year) == Some(i)
    requires updated == es[i := es[i].(amount := amount, timestamp := now)]
    ensures SlotCount(updated, day, month, year) == SlotCount(es, day, month, year) >= 1
    ensures forall k :: 0 <= k < |updated| && InSlot(updated[k], day, month, year) && SlotCount(es, day, month, year) <= 1
              ==> updated[k].amount == amount && updated[k].timestamp == now
  {
    SlotCountZero(es, day, month, year);
    SameSlotsSameCount(es, updated, day, month, year);
    forall k | 0 <= k < |updated| && InSlot(updated[k], day, month, year) && SlotCount(es, day, month, year) <= 1
      ensures updated[k].amount == amount && updated[k].timestamp == now
    {
      if k != i {
        TwoInSlot(es, i, k, day, month, year);
      }
    }
  }

  lemma {:induction false} SameSlotsSameCount(a: seq<Store.Earning>, b: seq<Store.Earning>, day: int, month: int, year: int)
    requires |a| == |b| && forall k :: 0 <= k < |a| ==> (InSlot(a[k], day, month, year) <==> InSlot(b[k], day, month, year))
    ensures SlotCount(a, day, month, year) == SlotCount(b, day, month, year)
  {
    if a != [] {
      SameSlotsSameCount(a[..|a| - 1], b[..|b| - 1], day, month, year);
    }
  }

  /** Two different positions in one slot make the slot count at least two. */
  lemma {:induction false} TwoInSlot(es: seq<Store.Earning>, i: nat, k: nat, day: int, month: int, year: int)
    requires i < |es| && k < |es| && i != k
    requires InSlot(es[i], day, month, year) && InSlot(es[k], day, month, year)
    ensures SlotCount(es, day, month, year) >= 2
  {
    var init := es[..|es| - 1];
    if i == |es| - 1 {
      SlotCountZero(init, day, month, year);
      assert init[k] == es[k];
    } else if k == |es| - 1 {
      SlotCountZero(init, day, month, year);
      assert init[i] == es[i];
    } else {
      TwoInSlot(init, i, k, day, month, year);
    }
  }

  /** Adding keeps at most one entry per slot. */
  lemma AddEarningKeepsUnique(es: seq<Store.Earning>, earnDay: string, earnAmount: Option<int>, maxDays: int,
                              month: int, year: int, now: int)
    requires UniqueSlots(es)
    ensures var r := AddEarning(es, earnDay, earnAmount, maxDays, month, year, now);
            r.Some? ==> UniqueSlots(r.value)
  {
    var r := AddEarning(es, earnDay, earnAmount, maxDays, month, year, now);
    if r.Some? {
      var day := EarnDay(earnDay, maxDays).value;
      match FindSlot(es, day, month, year)
      case Some(i) =>
        assert forall k :: 0 <= k < |es| ==> r.value[k].day == es[k].day && r.value[k].month == es[k].month && r.value[k].year == es[k].year;
      case None =>
        assert forall k :: 0 <= k < |es| ==> r.value[k] == es[k];
    }
  }

  /** `handleSaveEdit`: nothing without a day being edited or with an empty amount; otherwise
      every entry of that day of the month gets the amount and the time. */
  function SaveEdit(es: seq<Store.Earning>, editingDay: Option<int>, editAmount: Option<int>, month: int, year: int, now: int)
    : (r: Option<seq<Store.Earning>>)
    ensures r.None? <==> editingDay.None? || editAmount.None?
    ensures r.Some? ==>
              && |r.value| == |es|
              && (forall i :: 0 <= i < |es| && InSlot(es[i], editingDay.value, month, year) ==>
                    r.value[i] == es[i].(amount := editAmount.value, timestamp := now))
              && (forall i :: 0 <= i < |es| && !InSlot(es[i], editingDay.value, month, year) ==> r.value[i] == es[i])
  {
    if editingDay.None? || editAmount.None? then None
    else Some(UpdateSlot(es, editingDay.value, month, year, SetAmount(editAmount.value), now))
  }

  /** `handleDeleteDay`: `earnings.filter(e => !matches(e))` for that day of the month. */
  function DeleteDay(es: seq<Store.Earning>, day: int, month: int, year: int): seq<Store.Earning> {
    if es == [] then []
    else
      var last := es[|es| - 1];
      DeleteDay(es[..|es| - 1], day, month, year) + (if InSlot(last, day, month, year) then [] else [last])
  }

  /** The entries of that day go; every other entry stays, with its multiplicity. */
  lemma {:induction false} DeleteDayMembers(es: seq<Store.Earning>, day: int, month: int, year: int)
    ensures |DeleteDay(es, day, month, year)| <= |es|
    ensures forall e :: e in DeleteDay(es, day, month, year) <==> e in es && !InSlot(e, day, month, year)
    ensures forall e :: !InSlot(e, day, month, year) ==> multiset(DeleteDay(es, day, month, year))[e] == multiset(es)[e]
  {
    if es != [] {
      var init := es[..|es| - 1];
      var last := es[|es| - 1];
      assert es == init + [last];
      DeleteDayMembers(init, day, month, year);
    }
  }

  /** Deleting keeps at most one entry per slot. */
  lemma {:induction false} DeleteDayKeepsUnique(es: seq<Store.Earning>, day: int, month: int, year: int)
    requires UniqueSlots(es)
    ensures UniqueSlots(DeleteDay(es, day, month, year))
  {
    if es != [] {
      var init := es[..|es| - 1];
      var last := es[|es| - 1];
      assert UniqueSlots(init);
      DeleteDayKeepsUnique(init, day, month, year);
      var kept := DeleteDay(init, day, month, year);
      var r := DeleteDay(es, day, month, year);
      if !InSlot(last, day, month, year) {
        assert r == kept + [last];
        assert forall i :: 0 <= i < |init| ==> !SameSlot(init[i], last) by {
          assert forall i :: 0 <= i < |init| ==> init[i] == es[i];
        }
        DeleteDayAvoids(init, day, month, year, last);
      } else {
        assert r == kept;
      }
    }
  }

  /** Deleting only removes entries, so no kept entry shares a slot that no entry had. */
  lemma {:induction false} DeleteDayAvoids(es: seq<Store.Earning>, day: int, month: int, year: int, x: Store.Earning)
    requires forall i :: 0 <= i < |es| ==> !SameSlot(es[i], x)
    ensures forall i :: 0 <= i < |DeleteDay(es, day, month, year)| ==> !SameSlot(DeleteDay(es, day, month, year)[i], x)
  {
    if es != [] {
      DeleteDayAvoids(es[..|es| - 1], day, month, year, x);
    }
  }

  /** `handleSaveTotalEarnings`: nothing for an empty or negative total. With entries in the
      month, the entries sharing the first one's day absorb the difference; otherwise a day-1
      entry holding the total is appended. */
  function SaveTotal(es: seq<Store.Earning>, newTotal: Option<int>, month: int, year: int, now: int)
    : (r: Option<seq<Store.Earning>>)
    ensures r.None? <==> newTotal.None? || newTotal.value < 0
    ensures r.Some? && MonthEarnings(es, month, year) == [] ==>
              r.value == es + [Store.Earning(IntToDecimal(now), 1, month, year, newTotal.value, now)]
    ensures r.Some? && MonthEarnings(es, month, year) != [] ==> |r.value| == |es|
  {
    if newTotal.None? || newTotal.value < 0 then None
    else
      var monthEarnings := MonthEarnings(es, month, year);
      var difference := newTotal.value - AmountTotal(monthEarnings);
      if monthEarnings != [] then
        Some(UpdateSlot(es, monthEarnings[0].day, month, year, AddAmount(difference), now))
      else
        Some(es + [Store.Earning(IntToDecimal(now), 1, month, year, newTotal.value, now)])
  }

  /** With one entry per slot, saving a total makes it the month's total and leaves every
      other month's total as it was; the slot invariant is kept. */
  lemma SaveTotalSetsTotal(es: seq<Store.Earning>, newTotal: Option<int>, month: int, year: int, now: int, m: int, y: int)
    requires UniqueSlots(es)
    ensures var r := SaveTotal(es, newTotal, month, year, now);
            r.Some? ==>
              && MonthTotal(r.value, month, year) == newTotal.value
              && ((m, y) != (month, year) ==> MonthTotal(r.value, m, y) == MonthTotal(es, m, y))
              && UniqueSlots(r.value)
  {
    if newTotal.Some? && newTotal.value >= 0 {
      var monthEarnings := MonthEarnings(es, month, year);
      assert newTotal == Some(newTotal.value);
      SaveTotalUnfolds(es, newTotal.value, month, year, now);
      if monthEarnings != [] {
        var first := monthEarnings[0];
        var r := UpdateSlot(es, first.day, month, year, AddAmount(newTotal.value - AmountTotal(monthEarnings)), now);
        assert SaveTotal(es, newTotal, month, year, now) == Some(r);
        assert SlotCount(es, first.day, month, year) == 1 by {
          assert first in es && first.month == month && first.year == year by {
            assert first in monthEarnings;
            MonthEarningsMembers(es, month, year);
          }
          var i :| 0 <= i < |es| && es[i] == first;
          UniqueSlotCount(es, i);
        }
        AdjustSingleSlot(es, first.day, month, year, newTotal.value - AmountTotal(monthEarnings), now);
        if (m, y) != (month, year) {
          AdjustSlotOtherMonths(es, first.day, month, year, newTotal.value - AmountTotal(monthEarnings), now, m, y);
        }
        UpdateSlotKeepsUnique(es, first.day, month, year, AddAmount(newTotal.value - AmountTotal(monthEarnings)), now);
      } else {
        TotalOnNewFirstDay(es, newTotal.value, month, year, now, m, y);
      }
    }
  }

  /** Adjusting a slot that holds a single entry moves its month's total by exactly `delta`. */
  lemma AdjustSingleSlot(es: seq<Store.Earning>, day: int, month: int, year: int, delta: int, now: int)
    requires SlotCount(es, day, month, year) == 1
    ensures MonthTotal(UpdateSlot(es, day, month, year, AddAmount(delta), now), month, year) == MonthTotal(es, month, year) + delta
  {
    AdjustSlotTotal(es, day, month, year, delta, now);
    MulOne(delta, SlotCount(es, day, month, year));
  }

  /** With no entry in the month, a day-1 entry holding the total is appended. */
  lemma TotalOnNewFirstDay(es: seq<Store.Earning>, newTotal: int, month: int, year: int, now: int, m: int, y: int)
    requires UniqueSlots(es) && MonthEarnings(es, month, year) == []
    ensures var r := es + [Store.Earning(IntToDecimal(now), 1, month, year, newTotal, now)];
            && MonthTotal(r, month, year) == newTotal
            && ((m, y) != (month, year) ==> MonthTotal(r, m, y) == MonthTotal(es, m, y))
            && UniqueSlots(r)
  {
    var entry := Store.Earning(IntToDecimal(now), 1, month, year, newTotal, now);
    var r := es + [entry];
    assert MonthTotal(r, month, year) == newTotal by {
      MonthTotalStep(es, entry, month, year);
    }
    assert (m, y) != (month, year) ==> MonthTotal(r, m, y) == MonthTotal(es, m, y) by {
      MonthTotalStep(es, entry, m, y);
    }
    assert UniqueSlots(r) by {
      EmptyMonth(es, month, year);
      forall i, j | 0 <= i < j < |r| ensures !SameSlot(r[i], r[j]) {
        if j < |es| {
          assert r[i] == es[i] && r[j] == es[j];
        } else {
          assert r[i] == es[i] && r[j] == entry;
        }
      }
    }
  }

  /** A month with no entries has no entry dated in it. */
  lemma {:induction false} EmptyMonth(es: seq<Store.Earning>, month: int, year: int)
    requires MonthEarnings(es, month, year) == []
    ensures forall k :: 0 <= k < |es| ==> es[k].month != month || es[k].year != year
  {
    if es != [] {
      EmptyMonth(es[..|es| - 1], month, year);
    }
  }

  lemma SaveTotalUnfolds(es: seq<Store.Earning>, newTotal: int, month: int, year: int, now: int)
    requires newTotal >= 0
    ensures var monthEarnings := MonthEarnings(es, month, year);
            SaveTotal(es, Some(newTotal), month, year, now)
            == if monthEarnings != [] then
                 Some(UpdateSlot(es, monthEarnings[0].day, month, year, AddAmount(newTotal - AmountTotal(monthEarnings)), now))
               else Some(es + [Store.Earning(IntToDecimal(now), 1, month, year, newTotal, now)])
  {
  }

  lemma MulOne(d: int, k: int)
    requires k == 1
    ensures d * k == d
  {
  }

  // ---------------------------------------------------------------------------
  // The per-day chart
  // ---------------------------------------------------------------------------

  /** The sum of the amounts entered for `day`. */
  function DaySum(es: seq<Store.Earning>, day: int): int {
    if es == [] then 0
    else DaySum(es[..|es| - 1], day) + (if es[|es| - 1].day == day then es[|es| - 1].amount else 0)
  }

  /** Slot `d - 1` holds the sum for day `d`, for the days of the month. */
  function DaySums(es: seq<Store.Earning>, maxDays: nat): (r: seq<int>)
    ensures |r| == maxDays
    ensures forall d :: 1 <= d <= maxDays ==> r[d - 1] == DaySum(es, d)
  {
    seq(maxDays, k => DaySum(es, k + 1))
  }

  /** `earningsByDay`: a zero-filled array with each in-range entry's amount added to its
      day's slot. */
  method EarningsByDay(monthEarnings: seq<Store.Earning>, maxDays: nat) returns (byDay: seq<int>)
    ensures byDay == DaySums(monthEarnings, maxDays)
  {
    var slots := new int[maxDays](_ => 0);
    var i := 0;
    while i < |monthEarnings|
      invariant 0 <= i <= |monthEarnings|
      invariant forall k :: 0 <= k < maxDays ==> slots[k] == DaySum(monthEarnings[..i], k + 1)
    {
      var e := monthEarnings[i];
      assert monthEarnings[..i + 1] == monthEarnings[..i] + [e];
      if 1 <= e.day <= maxDays {
        slots[e.day - 1] := slots[e.day - 1] + e.amount;
      }
      i := i + 1;
    }
    assert monthEarnings[..i] == monthEarnings;
    byDay := slots[..];
  }

  function Sum(xs: seq<int>): int {
    if xs == [] then 0 else Sum(xs[..|xs| - 1]) + xs[|xs| - 1]
  }

  lemma {:induction false} SumUpdate(xs: seq<int>, k: nat, v: int)
    requires k < |xs|
    ensures Sum(xs[k := xs[k] + v]) == Sum(xs) + v
  {
    var ys := xs[k := xs[k] + v];
    if k < |xs| - 1 {
      assert ys[..|ys| - 1] == xs[..|xs| - 1][k := xs[k] + v];
      SumUpdate(xs[..|xs| - 1], k, v);
    } else {
      assert ys[..|ys| - 1] == xs[..|xs| - 1];
    }
  }

  /** When every entry's day lies in the month, the chart's bars add up to the entries'
      total. */
  lemma {:induction false} DaySumsTotal(es: seq<Store.Earning>, maxDays: nat)
    requires forall e :: e in es ==> 1 <= e.day <= maxDays
    ensures Sum(DaySums(es, maxDays)) == AmountTotal(es)
  {
    if es == [] {
      ZeroSum(DaySums(es, maxDays));
    } else {
      var init := es[..|es| - 1];
      var last := es[|es| - 1];
      assert forall e :: e in init ==> e in es;
      DaySumsTotal(init, maxDays);
      assert last in es;
      DaySumsStep(es, maxDays);
      SumUpdate(DaySums(init, maxDays), last.day - 1, last.amount);
    }
  }

  /** One more entry adds its amount to its own day's bar only. */
  lemma DaySumsStep(es: seq<Store.Earning>, maxDays: nat)
    requires es != [] && 1 <= es[|es| - 1].day <= maxDays
    ensures var last := es[|es| - 1];
            var before := DaySums(es[..|es| - 1], maxDays);
            DaySums(es, maxDays) == before[last.day - 1 := before[last.day - 1] + last.amount]
  {
    var last := es[|es| - 1];
    var before := DaySums(es[..|es| - 1], maxDays);
    var after := before[last.day - 1 := before[last.day - 1] + last.amount];
    forall k | 0 <= k < maxDays ensures DaySums(es, maxDays)[k] == after[k] {
      assert DaySums(es, maxDays)[k] == DaySum(es, k + 1);
    }
  }

  lemma {:induction false} ZeroSum(xs: seq<int>)
    requires forall k :: 0 <= k < |xs| ==> xs[k] == 0
    ensures Sum(xs) == 0
  {
    if xs != [] {
      ZeroSum(xs[..|xs| - 1]);
    }
  }

  // ---------------------------------------------------------------------------
  // Clients added in the month
  // ---------------------------------------------------------------------------

  /** The instant falls in the month; an absent time (`new Date(undefined)`) never does. */
  predicate InMonth(t: Option<int>, dateOf: int -> Calendar.Day, month: int, year: int) {
    t.Some? && dateOf(t.value).month == month && dateOf(t.value).year == year
  }

  /** The filter of `clientsAddedThisMonth`: created in the month. */
  function AddedIn(dateOf: int -> Calendar.Day, month: int, year: int): Store.Client -> bool {
    (c: Store.Client) => InMonth(c.createdAt, dateOf, month, year)
  }

  /** The filter of `clientsDeletedThisMonth`: deleted in the month. */
  function DeletedIn(dateOf: int -> Calendar.Day, month: int, year: int): Store.DeletedClient -> bool {
    (d: Store.DeletedClient) => InMonth(Some(d.deletedAt), dateOf, month, year)
  }

  /** The filter of `monthAppointments`: starting in the month. */
  function ScheduledIn(dateOf: int -> Calendar.Day, month: int, year: int): Store.Appointment -> bool {
    (a: Store.Appointment) => InMonth(Some(a.dateTime), dateOf, month, year)
  }

  /** `a.dateTime > Date.now()`. */
  function After(now: int): Store.Appointment -> bool {
    (a: Store.Appointment) => a.dateTime > now
  }

  /** `clientsAddedThisMonth`: exactly the clients created in the month, each as often as it
      is stored. */
  function ClientsAdded(clients: seq<Store.Client>, dateOf: int -> Calendar.Day, month: int, year: int)
    : (r: seq<Store.Client>)
    ensures forall c :: c in r <==> c in clients && InMonth(c.createdAt, dateOf, month, year)
    ensures forall c :: multiset(r)[c] == if InMonth(c.createdAt, dateOf, month, year) then multiset(clients)[c] else 0
  {
    var added := AddedIn(dateOf, month, year);
    FilterMembers(clients, added);
    forall c ensures multiset(Filter(clients, added))[c] == if added(c) then multiset(clients)[c] else 0 {
      FilterMultiplicity(clients, added, c);
    }
    Filter(clients, added)
  }

  /** `monthAppointments`: exactly the appointments starting in the month, with multiplicity. */
  function MonthAppointments(appointments: seq<Store.Appointment>, dateOf: int -> Calendar.Day, month: int, year: int)
    : (r: seq<Store.Appointment>)
    ensures forall a :: multiset(r)[a] == if InMonth(Some(a.dateTime), dateOf, month, year) then multiset(appointments)[a] else 0
  {
    var scheduled := ScheduledIn(dateOf, month, year);
    forall a ensures multiset(Filter(appointments, scheduled))[a] == if scheduled(a) then multiset(appointments)[a] else 0 {
      FilterMultiplicity(appointments, scheduled, a);
    }
    Filter(appointments, scheduled)
  }

  /** Whether a client has an age to count (`c.age && typeof c.age === 'number'`). */
  predicate HasAge(c: Store.Client) {
    c.age != 0
  }

  /** The ages counted in the month (`c.age && typeof c.age === 'number'`: a zero age is
      skipped). */
  function Ages(clients: seq<Store.Client>): (r: seq<int>)
    ensures |r| <= |clients|
    ensures forall a :: a in r ==> a != 0
    ensures forall c :: c in clients && c.age != 0 ==> c.age in r
    ensures |r| == |Filter(clients, HasAge)|
    ensures forall i :: 0 <= i < |r| ==> r[i] == Filter(clients, HasAge)[i].age
  {
    if clients == [] then []
    else
      var init := clients[..|clients| - 1];
      var last := clients[|clients| - 1];
      assert forall c :: c in clients ==> c in init || c == last;
      assert clients == init + [last];
      FilterConcat(init, [last], HasAge);
      Ages(init) + (if last.age != 0 then [last.age] else [])
  }

  datatype AgeSummary = AgeSummary(min: int, max: int, avg: int)

  function Identity(x: int): int { x }

  /** `getAgeDistribution`: zeros for no ages; otherwise the least and greatest age and the
      mean rounded half up (`Math.round`). */
  function AgeDistribution(ages: seq<int>): (r: AgeSummary)
    ensures ages == [] ==> r == AgeSummary(0, 0, 0)
  {
    if ages == [] then AgeSummary(0, 0, 0)
    else
      var sorted := SortBy(ages, Identity);
      SortBySpec(ages, Identity);
      AgeSummary(sorted[0], sorted[|sorted| - 1], MathRound(Sum(ages), |ages|))
  }

  /** For some ages: the least and the greatest are among them, and the average lies between
      them within one half of the mean. */
  lemma AgeDistributionBounds(ages: seq<int>)
    requires ages != []
    ensures var r := AgeDistribution(ages);
            && r.min in ages && r.max in ages
            && (forall a :: a in ages ==> r.min <= a <= r.max)
            && WithinHalf(Sum(ages), |ages|, r.avg)
            && r.min <= r.avg <= r.max
  {
    var sorted := SortBy(ages, Identity);
    SortedEnds(ages);
    SumBounds(ages, sorted[0], sorted[|sorted| - 1]);
    RoundedMean(Sum(ages), |ages|, sorted[0], sorted[|sorted| - 1]);
    assert AgeDistribution(ages) == AgeSummary(sorted[0], sorted[|sorted| - 1], MathRound(Sum(ages), |ages|));
  }

  /** After the in-place sort, the first and last ages are the least and the greatest. */
  lemma SortedEnds(ages: seq<int>)
    requires ages != []
    ensures var sorted := SortBy(ages, Identity);
            && |sorted| == |ages| && sorted[0] in ages && sorted[|sorted| - 1] in ages
            && forall a :: a in ages ==> sorted[0] <= a <= sorted[|sorted| - 1]
  {
    var sorted := SortBy(ages, Identity);
    SortBySpec(ages, Identity);
    assert sorted[0] in multiset(sorted) && sorted[|sorted| - 1] in multiset(sorted);
    forall a | a in ages ensures sorted[0] <= a <= sorted[|sorted| - 1] {
      assert a in multiset(ages);
      var k :| 0 <= k < |sorted| && sorted[k] == a;
      assert Identity(sorted[0]) <= Identity(sorted[k]) <= Identity(sorted[|sorted| - 1]);
    }
  }

  lemma {:induction false} SumBounds(xs: seq<int>, lo: int, hi: int)
    requires forall x :: x in xs ==> lo <= x <= hi
    ensures |xs| * lo <= Sum(xs) <= |xs| * hi
  {
    if xs != [] {
      var init := xs[..|xs| - 1];
      assert forall x :: x in init ==> x in xs;
      SumBounds(init, lo, hi);
      assert xs[|xs| - 1] in xs;
      assert |xs| * lo == |init| * lo + lo;
      assert |xs| * hi == |init| * hi + hi;
    }
  }

  /** `q` is within one half of the mean `s / n`: `q - 1/2 <= s / n < q + 1/2`. */
  predicate WithinHalf(s: int, n: int, q: int) {
    n * (2 * q - 1) <= 2 * s < n * (2 * q + 1)
  }

  /** `Math.round(s / n)` for a positive count: the floor of the mean plus one half. */
  function MathRound(s: int, n: int): int
    requires n > 0
  {
    (2 * s + n) / (2 * n)
  }

  /** `Math.round(s / n)` is the integer within one half of the mean, and lies between any
      bounds of the averaged values. */
  lemma RoundedMean(s: int, n: int, lo: int, hi: int)
    requires n > 0 && n * lo <= s <= n * hi
    ensures WithinHalf(s, n, MathRound(s, n))
    ensures lo <= MathRound(s, n) <= hi
  {
    var q := MathRound(s, n);
    var r := (2 * s + n) % (2 * n);
    assert 2 * s + n == (2 * n) * q + r && 0 <= r < 2 * n;
    assert n * (2 * q - 1) == (2 * n) * q - n;
    assert n * (2 * q + 1) == (2 * n) * q + n;
    MulLess(n, 2 * lo, 2 * q + 1);
    MulLess(n, 2 * q - 1, 2 * hi + 1);
  }

  lemma MulLess(n: int, a: int, b: int)
    requires n > 0 && n * a < n * b
    ensures a < b
  {
    if a >= b {
      MulAtLeastZero(n, a - b);
      assert false;
    }
  }

  lemma MulAtLeastZero(n: int, d: int)
    requires n > 0 && d >= 0
    ensures n * d >= 0
  {
  }

  /** One age band of `getAgeRangeDistribution`. */
  datatype Band = Band(name: string, min: int, max: int)
  datatype AgeRange = AgeRange(name: string, min: int, max: int, count: int)

  /** The bands in order; 60 is in both "51-60" and "60+" and the first wins. */
  const Bands: seq<Band> := [Band("0-10", 0, 10), Band("11-20", 11, 20), Band("21-30", 21, 30), Band("31-40", 31, 40),
                             Band("41-50", 41, 50), Band("51-60", 51, 60), Band("60+", 60, 150)]

  /** `ranges.find(r => age >= r.min && age <= r.max)`: the position of the first band
      holding the age. */
  function FindBand(bands: seq<Band>, age: int): (r: Option<nat>)
    ensures r.None? <==> forall k :: 0 <= k < |bands| ==> !(bands[k].min <= age <= bands[k].max)
    ensures r.Some? ==> r.value < |bands| && bands[r.value].min <= age <= bands[r.value].max
    ensures r.Some? ==> forall k :: 0 <= k < r.value ==> !(bands[k].min <= age <= bands[k].max)
  {
    if bands == [] then None
    else if bands[0].min <= age <= bands[0].max then Some(0)
    else match FindBand(bands[1..], age)
         case None => None
         case Some(k) => Some(k + 1)
  }

  function BandOf(age: int): (r: Option<nat>)
    ensures r.Some? ==> r.value < 7
  {
    FindBand(Bands, age)
  }

  /** A band that holds the age, with no earlier band holding it, is the one found. */
  lemma FoundBand(bands: seq<Band>, age: int, k: nat)
    requires k < |bands| && bands[k].min <= age <= bands[k].max
    requires forall j :: 0 <= j < k ==> !(bands[j].min <= age <= bands[j].max)
    ensures FindBand(bands, age) == Some(k)
  {
  }

  /** The bounds of the bands: decades up to 60, then 60 to 150. */
  lemma BandTable()
    ensures |Bands| == 7
    ensures forall j :: 0 <= j < 6 ==> Bands[j].min == (if j == 0 then 0 else 10 * j + 1) && Bands[j].max == 10 * j + 10
    ensures Bands[6].min == 60 && Bands[6].max == 150
  {
    forall j | 0 <= j < 6
      ensures Bands[j].min == (if j == 0 then 0 else 10 * j + 1) && Bands[j].max == 10 * j + 10
    {
      assert j == 0 || j == 1 || j == 2 || j == 3 || j == 4 || j == 5;
    }
  }

  /** Every age from 0 to 150 is counted once, in the band its decade names, with 60 in
      "51-60" rather than "60+"; other ages are not counted. */
  lemma BandsCoverAges(age: int)
    ensures BandOf(age).None? <==> age < 0 || age > 150
    ensures 0 <= age <= 60 ==> BandOf(age) == Some(if age <= 10 then 0 else (age - 1) / 10)
    ensures 60 < age <= 150 ==> BandOf(age) == Some(6)
  {
    BandTable();
    if 0 <= age <= 60 {
      var k := if age <= 10 then 0 else (age - 1) / 10;
      FoundBand(Bands, age, k);
    } else if 60 < age <= 150 {
      FoundBand(Bands, age, 6);
    } else {
      forall j | 0 <= j < |Bands| ensures !(Bands[j].min <= age <= Bands[j].max) {
        if j < 6 {
        }
      }
    }
  }

  /** How many of the ages fall (first) in band `k`. */
  function BandCount(ages: seq<int>, k: nat): nat {
    if ages == [] then 0
    else BandCount(ages[..|ages| - 1], k) + (if BandOf(ages[|ages| - 1]) == Some(k) then 1 else 0)
  }

  /** One more age adds one to its own band's count and nothing to the others. */
  lemma BandCountStep(ages: seq<int>)
    requires ages != []
    ensures forall k: nat :: BandCount(ages, k) == BandCount(ages[..|ages| - 1], k) + (if BandOf(ages[|ages| - 1]) == Some(k) then 1 else 0)
  {
  }

  /** The seven bands with the given counts. */
  function WithCounts(counts: seq<int>): (r: seq<AgeRange>)
    requires |counts| == 7
    ensures |r| == 7
    ensures forall k :: 0 <= k < 7 ==> r[k].count == counts[k]
  {
    BandTable();
    seq(7, k requires 0 <= k < 7 => AgeRange(Bands[k].name, Bands[k].min, Bands[k].max, counts[k]))
  }

  /** Every band with the number of ages that fall first in it. */
  function BandCounts(ages: seq<int>): seq<AgeRange> {
    WithCounts(Tallies(ages))
  }

  /** `ranges.filter(r => r.count > 0)`. */
  function Counted(rs: seq<AgeRange>): seq<AgeRange> {
    if rs == [] then []
    else Counted(rs[..|rs| - 1]) + (if rs[|rs| - 1].count > 0 then [rs[|rs| - 1]] else [])
  }

  /** The kept ranges are exactly those with a count, in their order. */
  lemma {:induction false} CountedMembers(rs: seq<AgeRange>)
    ensures forall r :: r in Counted(rs) <==> r in rs && r.count > 0
    ensures |Counted(rs)| <= |rs|
  {
    if rs != [] {
      CountedMembers(rs[..|rs| - 1]);
      assert rs == rs[..|rs| - 1] + [rs[|rs| - 1]];
    }
  }

  /** `getAgeRangeDistribution`: each age bumps the count of its first band; the bands with a
      count are returned in band order. */
  method AgeRangeDistribution(ages: seq<int>) returns (ranges: seq<AgeRange>)
    ensures ranges == Counted(BandCounts(ages))
  {
    var counts := TallyAges(ages);
    ranges := KeepCounted(WithCounts(counts));
  }

  method KeepCounted(all: seq<AgeRange>) returns (ranges: seq<AgeRange>)
    ensures ranges == Counted(all)
  {
    ranges := [];
    var k := 0;
    while k < |all|
      invariant 0 <= k <= |all|
      invariant ranges == Counted(all[..k])
    {
      assert all[..k + 1][..k] == all[..k];
      if all[k].count > 0 {
        ranges := ranges + [all[k]];
      }
      k := k + 1;
    }
    assert all[..k] == all;
  }

  /** The `forEach` over the ages: each age bumps the count of the first band holding it. */
  method TallyAges(ages: seq<int>) returns (counts: seq<int>)
    ensures counts == Tallies(ages)
  {
    var tally := new int[7](_ => 0);
    var i := 0;
    while i < |ages|
      invariant 0 <= i <= |ages|
      invariant forall k :: 0 <= k < 7 ==> tally[k] == BandCount(ages[..i], k)
    {
      BandCountStep(ages[..i + 1]);
      assert ages[..i + 1][..i] == ages[..i];
      var band := BandOf(ages[i]);
      if band.Some? {
        tally[band.value] := tally[band.value] + 1;
      }
      i := i + 1;
    }
    assert ages[..i] == ages;
    counts := tally[..];
  }

  /** The number of ages between 0 and 150. */
  function CountBanded(ages: seq<int>): nat {
    if ages == [] then 0
    else CountBanded(ages[..|ages| - 1]) + (if 0 <= ages[|ages| - 1] <= 150 then 1 else 0)
  }

  /** The count of each of the seven bands. */
  function Tallies(ages: seq<int>): (r: seq<int>)
    ensures |r| == 7
  {
    seq(7, k requires 0 <= k < 7 => BandCount(ages, k))
  }

  /** The band counts add up to the number of ages from 0 to 150: each such age is counted
      exactly once. */
  lemma {:induction false} TalliesTotal(ages: seq<int>)
    ensures Sum(Tallies(ages)) == CountBanded(ages)
  {
    if ages == [] {
      ZeroSum(Tallies(ages));
    } else {
      var init := ages[..|ages| - 1];
      var age := ages[|ages| - 1];
      var before := Tallies(init);
      var band := BandOf(age);
      assert band.Some? <==> 0 <= age <= 150 by {
        BandsCoverAges(age);
      }
      TalliesTotal(init);
      TalliesStep(ages);
      SumBump(before, Tallies(ages), if band.Some? then band.value else 0, if band.Some? then 1 else 0);
    }
  }

  /** One more age bumps the tally of its band, if it has one. */
  lemma TalliesStep(ages: seq<int>)
    requires ages != []
    ensures var band := BandOf(ages[|ages| - 1]);
            forall j :: 0 <= j < 7 ==> Tallies(ages)[j] == Tallies(ages[..|ages| - 1])[j] + (if band == Some(j) then 1 else 0)
  {
    BandCountStep(ages);
  }

  /** Raising one entry by `v` raises the sum by `v`. */
  lemma SumBump(xs: seq<int>, ys: seq<int>, k: nat, v: int)
    requires k < |xs| == |ys|
    requires forall j :: 0 <= j < |xs| ==> ys[j] == xs[j] + (if j == k then v else 0)
    ensures Sum(ys) == Sum(xs) + v
  {
    assert ys == xs[k := xs[k] + v];
    SumUpdate(xs, k, v);
  }

  // ---------------------------------------------------------------------------
  // The month's counters
  // ---------------------------------------------------------------------------

  function CountStatus(clients: seq<Store.Client>, status: Store.ClientStatus): nat {
    if clients == [] then 0
    else CountStatus(clients[..|clients| - 1], status) + (if clients[|clients| - 1].status == status then 1 else 0)
  }

  /** The filter `c.status === status`. */
  function HasStatus(status: Store.ClientStatus): Store.Client -> bool {
    (c: Store.Client) => c.status == status
  }

  /** `clients.filter(c => c.status === status).length` is the count of that status. */
  lemma {:induction false} StatusCountIsFilter(clients: seq<Store.Client>, status: Store.ClientStatus)
    ensures |Filter(clients, HasStatus(status))| == CountStatus(clients, status)
  {
    if clients != [] {
      var init, last := clients[..|clients| - 1], clients[|clients| - 1];
      assert clients == init + [last];
      FilterConcat(init, [last], HasStatus(status));
      StatusCountIsFilter(init, status);
    }
  }

  /** Every client is either active or completed, so the two counts make up the total. */
  lemma {:induction false} StatusesPartition(clients: seq<Store.Client>)
    ensures CountStatus(clients, Store.Active) + CountStatus(clients, Store.Completed) == |clients|
  {
    if clients != [] {
      StatusesPartition(clients[..|clients| - 1]);
    }
  }

  /** Session records with a follow-up date, over the given clients. */
  function FollowUps(clients: seq<Store.Client>): nat {
    if clients == [] then 0
    else
      var c := clients[|clients| - 1];
      FollowUps(clients[..|clients| - 1]) + |Filter(c.sessionHistory, HasFollowUp)|
  }

  predicate HasFollowUp(s: Store.SessionRecord) { s.followUpDate != "" }

  datatype MonthMetrics = MonthMetrics(
    activeClients: nat,
    completedCases: nat,
    totalClients: nat,
    deletedClientsAdded: nat,
    totalMonthEarnings: int,
    scheduledSessions: nat,
    followUpSessions: nat,
    totalSessions: nat,
    upcomingAppointments: nat)

  /** The month's counters: clients added (and by status), clients deleted, earnings, the
      month's appointments, follow-ups of the added clients, and appointments still ahead. */
  function Metrics(clients: seq<Store.Client>, deleted: seq<Store.DeletedClient>, appointments: seq<Store.Appointment>,
                   earnings: seq<Store.Earning>, dateOf: int -> Calendar.Day, month: int, year: int, now: int)
    : (r: MonthMetrics)
    ensures r.activeClients + r.completedCases == r.totalClients
    ensures r.totalClients <= |clients| && r.deletedClientsAdded <= |deleted|
    ensures r.scheduledSessions <= |appointments| && r.upcomingAppointments <= r.scheduledSessions
    ensures r.totalSessions == r.scheduledSessions + r.followUpSessions
    ensures r.totalMonthEarnings == AmountTotal(MonthEarnings(earnings, month, year))
    ensures r.totalClients == CountWhere(clients, AddedIn(dateOf, month, year))
    ensures r.activeClients == CountStatus(ClientsAdded(clients, dateOf, month, year), Store.Active)
    ensures r.completedCases == CountStatus(ClientsAdded(clients, dateOf, month, year), Store.Completed)
    ensures r.deletedClientsAdded == CountWhere(deleted, DeletedIn(dateOf, month, year))
    ensures r.scheduledSessions == CountWhere(appointments, ScheduledIn(dateOf, month, year))
    ensures r.upcomingAppointments == CountWhere(MonthAppointments(appointments, dateOf, month, year), After(now))
    ensures r.followUpSessions == FollowUps(ClientsAdded(clients, dateOf, month, year))
  {
    var added := ClientsAdded(clients, dateOf, month, year);
    var deletedThisMonth := Filter(deleted, DeletedIn(dateOf, month, year));
    var monthAppointments := MonthAppointments(appointments, dateOf, month, year);
    var upcoming := Filter(monthAppointments, After(now));
    var active := Filter(added, HasStatus(Store.Active));
    var completed := Filter(added, HasStatus(Store.Completed));
    FilterCount(clients, AddedIn(dateOf, month, year));
    FilterCount(deleted, DeletedIn(dateOf, month, year));
    FilterCount(appointments, ScheduledIn(dateOf, month, year));
    FilterCount(monthAppointments, After(now));
    StatusCountIsFilter(added, Store.Active);
    StatusCountIsFilter(added, Store.Completed);
    StatusesPartition(added);
    MonthMetrics(|active|, |completed|, |added|, |deletedThisMonth|,
                 MonthTotal(earnings, month, year), |monthAppointments|, FollowUps(added),
                 |monthAppointments| + FollowUps(added), |upcoming|)
  }

  /** The insights page's state: the loaded lists and the selected month. */
  class InsightsPage {
    var clients: seq<Store.Client>
    var deletedClients: seq<Store.DeletedClient>
    var appointments: seq<Store.Appointment>
    var earnings: seq<Store.Earning>
    var selectedMonth: int
    var selectedYear: int
    const storage: Store.LocalStorage

    predicate Valid()
      reads this
    {
      0 <= selectedMonth < 12
    }

    /** Mounting loads the clients, the tombstones, the appointments and the earnings, in that
        order; each read clears its key when the text there is corrupt. */
    constructor (storage: Store.LocalStorage, month: int, year: int)
      requires 0 <= month < 12
      modifies storage
      ensures Valid() && this.storage == storage && selectedMonth == month && selectedYear == year
      ensures clients == Store.LoadClients(old(storage.items))
      ensures deletedClients == Store.LoadDeletedClients(old(storage.items))
      ensures appointments == Store.LoadAppointments(old(storage.items))
      ensures earnings == Store.LoadEarnings(old(storage.items))
      ensures storage.items == Store.AfterRead(Store.AfterRead(Store.AfterRead(Store.AfterRead(
                                 old(storage.items), Store.ClientsKey), Store.DeletedClientsKey),
                                 Store.AppointmentsKey), Store.EarningsKey)
    {
      this.storage := storage;
      selectedMonth := month;
      selectedYear := year;
      new;
      var items0 := storage.items;
      clients := storage.GetClients();
      var items1 := storage.items;
      Store.ReadElsewhere(items0, Store.ClientsKey, Store.DeletedClientsKey);
      deletedClients := storage.GetDeletedClients();
      var items2 := storage.items;
      Store.ReadElsewhere(items0, Store.ClientsKey, Store.AppointmentsKey);
      Store.ReadElsewhere(items1, Store.DeletedClientsKey, Store.AppointmentsKey);
      appointments := storage.GetAppointments();
      Store.ReadElsewhere(items0, Store.ClientsKey, Store.EarningsKey);
      Store.ReadElsewhere(items1, Store.DeletedClientsKey, Store.EarningsKey);
      Store.ReadElsewhere(items2, Store.AppointmentsKey, Store.EarningsKey);
      earnings := storage.GetEarnings();
    }

    /** Replaces the list and saves it, or does nothing. */
    method Apply(r: Option<seq<Store.Earning>>, written: bool)
      modifies this, storage
      ensures r.None? ==> earnings == old(earnings) && storage.items == old(storage.items)
      ensures r.Some? ==> earnings == r.value
                          && storage.items == if written then old(storage.items)[Store.EarningsKey := Store.Json(Store.EarningsDoc(r.value))]
                                              else old(storage.items)
      ensures selectedMonth == old(selectedMonth) && selectedYear == old(selectedYear)
    {
      if r.Some? {
        earnings := r.value;
        storage.SaveEarnings(r.value, written);
      }
    }

    method HandleAddEarning(earnDay: string, earnAmount: Option<int>, now: int, written: bool)
      requires Valid()
      modifies this, storage
      ensures Valid()
      ensures var r := AddEarning(old(earnings), earnDay, earnAmount, Calendar.DaysInMonth(selectedYear, selectedMonth),
                                  selectedMonth, selectedYear, now);
              earnings == (if r.Some? then r.value else old(earnings))
      ensures selectedMonth == old(selectedMonth) && selectedYear == old(selectedYear)
      ensures var r := AddEarning(old(earnings), earnDay, earnAmount, Calendar.DaysInMonth(selectedYear, selectedMonth),
                                  selectedMonth, selectedYear, now);
              storage.items == if r.Some? && written
                               then old(storage.items)[Store.EarningsKey := Store.Json(Store.EarningsDoc(r.value))]
                               else old(storage.items)
      ensures UniqueSlots(old(earnings)) ==> UniqueSlots(earnings)
    {
      var r := AddEarning(earnings, earnDay, earnAmount, Calendar.DaysInMonth(selectedYear, selectedMonth),
                          selectedMonth, selectedYear, now);
      if UniqueSlots(earnings) {
        AddEarningKeepsUnique(earnings, earnDay, earnAmount, Calendar.DaysInMonth(selectedYear, selectedMonth),
                              selectedMonth, selectedYear, now);
      }
      Apply(r, written);
    }

    method HandleSaveEdit(editingDay: Option<int>, editAmount: Option<int>, now: int, written: bool)
      requires Valid()
      modifies this, storage
      ensures Valid()
      ensures var r := SaveEdit(old(earnings), editingDay, editAmount, selectedMonth, selectedYear, now);
              earnings == (if r.Some? then r.value else old(earnings))
      ensures selectedMonth == old(selectedMonth) && selectedYear == old(selectedYear)
      ensures var r := SaveEdit(old(earnings), editingDay, editAmount, selectedMonth, selectedYear, now);
              storage.items == if r.Some? && written
                               then old(storage.items)[Store.EarningsKey := Store.Json(Store.EarningsDoc(r.value))]
                               else old(storage.items)
      ensures UniqueSlots(old(earnings)) ==> UniqueSlots(earnings)
    {
      var r := SaveEdit(earnings, editingDay, editAmount, selectedMonth, selectedYear, now);
      if r.Some? && UniqueSlots(earnings) {
        UpdateSlotKeepsUnique(earnings, editingDay.value, selectedMonth, selectedYear, SetAmount(editAmount.value), now);
      }
      Apply(r, written);
    }

    method HandleDeleteDay(day: int, written: bool)
      requires Valid()
      modifies this, storage
      ensures Valid()
      ensures earnings == DeleteDay(old(earnings), day, selectedMonth, selectedYear)
      ensures selectedMonth == old(selectedMonth) && selectedYear == old(selectedYear)
      ensures storage.items == if written
                               then old(storage.items)[Store.EarningsKey := Store.Json(Store.EarningsDoc(earnings))]
                               else old(storage.items)
      ensures UniqueSlots(old(earnings)) ==> UniqueSlots(earnings)
    {
      var updated := DeleteDay(earnings, day, selectedMonth, selectedYear);
      if UniqueSlots(earnings) {
        DeleteDayKeepsUnique(earnings, day, selectedMonth, selectedYear);
      }
      Apply(Some(updated), written);
    }

    method HandleSaveTotalEarnings(newTotal: Option<int>, now: int, written: bool)
      requires Valid()
      modifies this, storage
      ensures Valid()
      ensures var r := SaveTotal(old(earnings), newTotal, selectedMonth, selectedYear, now);
              earnings == (if r.Some? then r.value else old(earnings))
      ensures selectedMonth == old(selectedMonth) && selectedYear == old(selectedYear)
      ensures var r := SaveTotal(old(earnings), newTotal, selectedMonth, selectedYear, now);
              storage.items == if r.Some? && written
                               then old(storage.items)[Store.EarningsKey := Store.Json(Store.EarningsDoc(r.value))]
                               else old(storage.items)
      ensures UniqueSlots(old(earnings)) && newTotal.Some? && newTotal.value >= 0 ==>
                UniqueSlots(earnings) && MonthTotal(earnings, selectedMonth, selectedYear) == newTotal.value
    {
      var r := SaveTotal(earnings, newTotal, selectedMonth, selectedYear, now);
      if UniqueSlots(earnings) {
        SaveTotalSetsTotal(earnings, newTotal, selectedMonth, selectedYear, now, selectedMonth, selectedYear);
      }
      Apply(r, written);
    }
  }
}
