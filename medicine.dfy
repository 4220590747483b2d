/**
 * The medicine tracker page: a list of medications and a list of reminders,
 * each change a whole-list transform handed to a state setter, and the
 * minute tick that notifies the reminders due now.
 */
module Medicine {
  import opened Wrappers
  import Seqs

  datatype Medication = Medication(
    id: string, name: string, dosage: string, frequency: string, timeOfDay: string,
    remainingQuantity: int, refillThreshold: int, nextRefillDate: string)

  datatype Reminder = Reminder(id: string, medicationId: string, time: string, taken: bool)

  /**
   * The add form (a `Partial<Medication>`): "" for a text field left empty;
   * `None` for a number field left empty or holding no number.
   */
  datatype Draft = Draft(
    name: string, dosage: string, frequency: string, timeOfDay: string,
    remainingQuantity: Option<int>, refillThreshold: Option<int>)

  /** The page's two lists. */
  datatype Tracker = Tracker(medications: seq<Medication>, reminders: seq<Reminder>)

  /** `Number(x) || d`: a missing, non-numeric or zero number falls back to `d`. */
  function NumberOr(x: Option<int>, d: int): int {
    if x.Some? && x.value != 0 then x.value else d
  }

  /** `x || d` on a text field. */
  function TextOr(x: string, d: string): string {
    if x != "" then x else d
  }

  /** Some medication of the list has this id. */
  predicate HasMedication(meds: seq<Medication>, id: string) {
    exists j :: 0 <= j < |meds| && meds[j].id == id
  }

  /** Every reminder belongs to a medication of the list. */
  predicate Consistent(t: Tracker) {
    forall i :: 0 <= i < |t.reminders| ==> HasMedication(t.medications, t.reminders[i].medicationId)
  }

  /**
   * `addMedication`: refused (nothing changes) without a name or a dosage.
   * Otherwise one medication stamped `stamp` is appended, with "daily",
   * "09:00", 30 and 5 standing in for the fields left empty, and exactly one
   * reminder for it, at its time and not taken. `stamp` and `reminderStamp`
   * are the two readings of `Date.now().toString()`, the medication's id and
   * the reminder's own id; `refillDate` is the date thirty days on.
   */
  function AddMedication(t: Tracker, d: Draft, stamp: string, reminderStamp: string, refillDate: string): (r: Tracker)
    ensures d.name == "" || d.dosage == "" ==> r == t
    ensures d.name != "" && d.dosage != "" ==>
      |r.medications| == |t.medications| + 1 && r.medications[..|t.medications|] == t.medications &&
      r.reminders == t.reminders + [Reminder(reminderStamp, stamp, r.medications[|t.medications|].timeOfDay, false)]
    ensures d.name != "" && d.dosage != "" ==>
      var m := r.medications[|t.medications|];
      m.id == stamp && m.name == d.name && m.dosage == d.dosage && m.nextRefillDate == refillDate &&
      (d.frequency != "" ==> m.frequency == d.frequency) && (d.frequency == "" ==> m.frequency == "daily") &&
      (d.timeOfDay != "" ==> m.timeOfDay == d.timeOfDay) && (d.timeOfDay == "" ==> m.timeOfDay == "09:00") &&
      (d.remainingQuantity.Some? && d.remainingQuantity.value != 0 ==> m.remainingQuantity == d.remainingQuantity.value) &&
      (d.remainingQuantity.None? || d.remainingQuantity.value == 0 ==> m.remainingQuantity == 30) &&
      (d.refillThreshold.Some? && d.refillThreshold.value != 0 ==> m.refillThreshold == d.refillThreshold.value) &&
      (d.refillThreshold.None? || d.refillThreshold.value == 0 ==> m.refillThreshold == 5)
  {
    if d.name == "" || d.dosage == "" then t
    else
      var m := Medication(stamp, d.name, d.dosage, TextOr(d.frequency, "daily"), TextOr(d.timeOfDay, "09:00"),
                          NumberOr(d.remainingQuantity, 30), NumberOr(d.refillThreshold, 5), refillDate);
      assert (t.medications + [m])[..|t.medications|] == t.medications;
      Tracker(t.medications + [m], t.reminders + [Reminder(reminderStamp, stamp, m.timeOfDay, false)])
  }

  /** One dose of medication `id` taken: its quantity goes down by one, with no lower bound. */
  function Decrement(meds: seq<Medication>, id: string): (r: seq<Medication>)
    ensures |r| == |meds|
    ensures forall i :: 0 <= i < |meds| ==> r[i].id == meds[i].id && r[i].name == meds[i].name
    ensures forall i :: 0 <= i < |meds| && meds[i].id != id ==> r[i] == meds[i]
    ensures forall i :: 0 <= i < |meds| && meds[i].id == id ==>
      r[i] == meds[i].(remainingQuantity := meds[i].remainingQuantity - 1)
  {
    if meds == [] then []
    else
      var m := meds[0];
      [if m.id == id then m.(remainingQuantity := m.remainingQuantity - 1) else m] + Decrement(meds[1..], id)
  }

  /** Every reminder of medication `id` marked taken. */
  function MarkTaken(rems: seq<Reminder>, id: string): (r: seq<Reminder>)
    ensures |r| == |rems|
    ensures forall i :: 0 <= i < |rems| ==> r[i].medicationId == rems[i].medicationId && r[i].time == rems[i].time
    ensures forall i :: 0 <= i < |rems| && rems[i].medicationId != id ==> r[i] == rems[i]
    ensures forall i :: 0 <= i < |rems| && rems[i].medicationId == id ==> r[i] == rems[i].(taken := true)
  {
    if rems == [] then []
    else
      var x := rems[0];
      [if x.medicationId == id then x.(taken := true) else x] + MarkTaken(rems[1..], id)
  }

  /** `takeMedication`. */
  function TakeMedication(t: Tracker, id: string): (r: Tracker)
    ensures r.medications == Decrement(t.medications, id) && r.reminders == MarkTaken(t.reminders, id)
  {
    Tracker(Decrement(t.medications, id), MarkTaken(t.reminders, id))
  }

  /**
   * The refill warnings `takeMedication` raises: the medications of that id
   * whose quantity after the dose is at or below their threshold.
   */
  function RefillWarnings(meds: seq<Medication>, id: string): (w: seq<Medication>)
    ensures forall m :: m in w <==> m in Decrement(meds, id) && m.id == id && m.remainingQuantity <= m.refillThreshold
    ensures Seqs.Subsequence(w, Decrement(meds, id))
    ensures w == Seqs.Filter(Decrement(meds, id), (m: Medication) => m.id == id && m.remainingQuantity <= m.refillThreshold)
    ensures |w| <= |meds|
  {
    if meds == [] then []
    else
      var m := meds[0];
      var rest := RefillWarnings(meds[1..], id);
      var d := Decrement(meds, id);
      assert d == [if m.id == id then m.(remainingQuantity := m.remainingQuantity - 1) else m] + Decrement(meds[1..], id);
      assert d[1..] == Decrement(meds[1..], id);
      Seqs.SubsequenceCons(d, m.id == id && m.remainingQuantity - 1 <= m.refillThreshold, rest);
      if m.id == id && m.remainingQuantity - 1 <= m.refillThreshold then [m.(remainingQuantity := m.remainingQuantity - 1)] + rest
      else rest
  }

  /** The medications whose id is not `id`, in order. */
  function DropMedication(meds: seq<Medication>, id: string): (r: seq<Medication>)
    ensures |r| <= |meds|
    ensures forall m :: m in r <==> m in meds && m.id != id
    ensures Seqs.Subsequence(r, meds)
    ensures r == Seqs.Filter(meds, (m: Medication) => m.id != id)
  {
    if meds == [] then []
    else
      var rest := DropMedication(meds[1..], id);
      Seqs.SubsequenceCons(meds, meds[0].id != id, rest);
      (if meds[0].id != id then [meds[0]] else []) + rest
  }

  /** The reminders not of medication `id`, in order. */
  function DropReminders(rems: seq<Reminder>, id: string): (r: seq<Reminder>)
    ensures |r| <= |rems|
    ensures forall x :: x in r <==> x in rems && x.medicationId != id
    ensures Seqs.Subsequence(r, rems)
    ensures r == Seqs.Filter(rems, (x: Reminder) => x.medicationId != id)
  {
    if rems == [] then []
    else
      var rest := DropReminders(rems[1..], id);
      Seqs.SubsequenceCons(rems, rems[0].medicationId != id, rest);
      (if rems[0].medicationId != id then [rems[0]] else []) + rest
  }

  /** `deleteMedication`: the medication and all its reminders go; the rest keep their order. */
  function DeleteMedication(t: Tracker, id: string): (r: Tracker)
    ensures !HasMedication(r.medications, id)
    ensures forall m :: m in r.medications <==> m in t.medications && m.id != id
    ensures forall x :: x in r.reminders <==> x in t.reminders && x.medicationId != id
    ensures Seqs.Subsequence(r.medications, t.medications) && Seqs.Subsequence(r.reminders, t.reminders)
    ensures r.medications == Seqs.Filter(t.medications, (m: Medication) => m.id != id)
    ensures r.reminders == Seqs.Filter(t.reminders, (x: Reminder) => x.medicationId != id)
  {
    var r := Tracker(DropMedication(t.medications, id), DropReminders(t.reminders, id));
    assert !HasMedication(r.medications, id) by {
      forall j | 0 <= j < |r.medications| ensures r.medications[j].id != id {
        assert r.medications[j] in r.medications;
      }
    }
    r
  }

  /** Adding, taking and deleting all keep every reminder tied to an existing medication. */
  lemma AddKeepsConsistent(t: Tracker, d: Draft, stamp: string, reminderStamp: string, refillDate: string)
    requires Consistent(t)
    ensures Consistent(AddMedication(t, d, stamp, reminderStamp, refillDate))
  {
    var r := AddMedication(t, d, stamp, reminderStamp, refillDate);
    if d.name != "" && d.dosage != "" {
      forall i | 0 <= i < |r.reminders| ensures HasMedication(r.medications, r.reminders[i].medicationId) {
        if i < |t.reminders| {
          var j :| 0 <= j < |t.medications| && t.medications[j].id == t.reminders[i].medicationId;
          assert r.medications[j] == t.medications[j];
        } else {
          assert r.medications[|t.medications|].id == stamp;
        }
      }
    }
  }

  lemma TakeKeepsConsistent(t: Tracker, id: string)
    requires Consistent(t)
    ensures Consistent(TakeMedication(t, id))
  {
    var r := TakeMedication(t, id);
    forall i | 0 <= i < |r.reminders| ensures HasMedication(r.medications, r.reminders[i].medicationId) {
      var j :| 0 <= j < |t.medications| && t.medications[j].id == t.reminders[i].medicationId;
      assert r.medications[j].id == t.medications[j].id;
    }
  }

  lemma DeleteKeepsConsistent(t: Tracker, id: string)
    requires Consistent(t)
    ensures Consistent(DeleteMedication(t, id))
  {
    var r := DeleteMedication(t, id);
    forall i | 0 <= i < |r.reminders| ensures HasMedication(r.medications, r.reminders[i].medicationId) {
      var x := r.reminders[i];
      assert x in r.reminders;
      var k :| 0 <= k < |t.reminders| && t.reminders[k] == x;
      var j :| 0 <= j < |t.medications| && t.medications[j].id == x.medicationId;
      var m := t.medications[j];
      assert m in r.medications;
      var jr :| 0 <= jr < |r.medications| && r.medications[jr] == m;
    }
  }

  /** Deleting a medication after taking a dose leaves what deleting it alone leaves. */
  lemma {:induction false} DeleteAfterTake(t: Tracker, id: string)
    ensures DeleteMedication(TakeMedication(t, id), id) == DeleteMedication(t, id)
  {
    DropDecrement(t.medications, id);
    DropMarkTaken(t.reminders, id);
  }

  lemma {:induction false} DropDecrement(meds: seq<Medication>, id: string)
    ensures DropMedication(Decrement(meds, id), id) == DropMedication(meds, id)
  {
    if meds != [] {
      DropDecrement(meds[1..], id);
      var m := meds[0];
      var d := Decrement(meds, id);
      assert d == [if m.id == id then m.(remainingQuantity := m.remainingQuantity - 1) else m] + Decrement(meds[1..], id);
      assert d[1..] == Decrement(meds[1..], id);
    }
  }

  lemma {:induction false} DropMarkTaken(rems: seq<Reminder>, id: string)
    ensures DropReminders(MarkTaken(rems, id), id) == DropReminders(rems, id)
  {
    if rems != [] {
      DropMarkTaken(rems[1..], id);
      var x := rems[0];
      var d := MarkTaken(rems, id);
      assert d == [if x.medicationId == id then x.(taken := true) else x] + MarkTaken(rems[1..], id);
      assert d[1..] == MarkTaken(rems[1..], id);
    }
  }

  /** `medications.find(med => med.id === id)`: the first medication with that id. */
  function FindById(meds: seq<Medication>, id: string): (r: Option<Medication>)
    ensures r.Some? <==> HasMedication(meds, id)
    ensures r.Some? ==> exists j :: 0 <= j < |meds| && meds[j] == r.value && r.value.id == id &&
                                    forall k :: 0 <= k < j ==> meds[k].id != id
  {
    if meds == [] then None
    else if meds[0].id == id then Some(meds[0])
    else
      var r := FindById(meds[1..], id);
      assert HasMedication(meds, id) ==> HasMedication(meds[1..], id) by {
        if HasMedication(meds, id) {
          var j :| 0 <= j < |meds| && meds[j].id == id;
          assert meds[1..][j - 1].id == id;
        }
      }
      assert r.Some? ==> HasMedication(meds, id) by {
        if r.Some? {
          var j :| 0 <= j < |meds[1..]| && meds[1..][j] == r.value && r.value.id == id;
          assert meds[j + 1].id == id;
        }
      }
      if r.Some? then
        var j :| 0 <= j < |meds[1..]| && meds[1..][j] == r.value && r.value.id == id &&
                  forall k :: 0 <= k < j ==> meds[1..][k].id != id;
        assert meds[j + 1] == r.value;
        assert forall k :: 0 <= k < j + 1 ==> meds[k].id != id by {
          forall k | 0 <= k < j + 1 ensures meds[k].id != id {
            if k > 0 { assert meds[k] == meds[1..][k - 1]; }
          }
        }
        r
      else r
  }

  /** The name notified for one reminder at `time`, if it is due and its medication exists. */
  function NoticeOf(meds: seq<Medication>, x: Reminder, time: string): seq<string> {
    if x.time == time && !x.taken && FindById(meds, x.medicationId).Some? then [FindById(meds, x.medicationId).value.name]
    else []
  }

  /** The names `checkReminders` notifies at `time`, in reminder order. */
  function Notifications(meds: seq<Medication>, rems: seq<Reminder>, time: string): (n: seq<string>)
    ensures |n| <= |rems|
  {
    if rems == [] then [] else Notifications(meds, rems[..|rems| - 1], time) + NoticeOf(meds, rems[|rems| - 1], time)
  }

  /**
   * `checkReminders`, on the page's lists and the clock's "HH:MM": one
   * notification per due reminder, in reminder order.
   */
  method CheckReminders(t: Tracker, time: string) returns (notified: seq<string>)
    ensures notified == Notifications(t.medications, t.reminders, time)
  {
    notified := [];
    var i := 0;
    while i < |t.reminders|
      invariant i <= |t.reminders|
      invariant notified == Notifications(t.medications, t.reminders[..i], time)
    {
      var x := t.reminders[i];
      assert t.reminders[..i + 1][..i] == t.reminders[..i];
      if x.time == time && !x.taken {
        var m := FindById(t.medications, x.medicationId);
        if m.Some? {
          notified := notified + [m.value.name];
        }
      }
      i := i + 1;
    }
    assert t.reminders[..i] == t.reminders;
  }

  /** Some medication of the list has this name. */
  predicate NamedIn(name: string, meds: seq<Medication>) {
    exists j :: 0 <= j < |meds| && meds[j].name == name
  }

  /** Every notified name belongs to a medication of the list. */
  lemma {:induction false} NotifiedNamesExist(meds: seq<Medication>, rems: seq<Reminder>, time: string)
    ensures forall k :: 0 <= k < |Notifications(meds, rems, time)| ==> NamedIn(Notifications(meds, rems, time)[k], meds)
  {
    if rems != [] {
      var n := Notifications(meds, rems, time);
      var init := Notifications(meds, rems[..|rems| - 1], time);
      var last := NoticeOf(meds, rems[|rems| - 1], time);
      assert n == init + last;
      NotifiedNamesExist(meds, rems[..|rems| - 1], time);
      NoticeNamed(meds, rems[|rems| - 1], time);
      forall k | 0 <= k < |n| ensures NamedIn(n[k], meds) {
        if k < |init| {
          assert n[k] == init[k];
        } else {
          assert n[k] == last[k - |init|];
        }
      }
    }
  }

  lemma NoticeNamed(meds: seq<Medication>, x: Reminder, time: string)
    ensures forall k :: 0 <= k < |NoticeOf(meds, x, time)| ==> NamedIn(NoticeOf(meds, x, time)[k], meds)
  {
    var found := FindById(meds, x.medicationId);
    if x.time == time && !x.taken && found.Some? {
      var j :| 0 <= j < |meds| && meds[j] == found.value;
      assert meds[j].name == NoticeOf(meds, x, time)[0];
    }
  }

  /** The medication found for an id has the same name after a dose is taken. */
  lemma {:induction false} FindAfterDecrement(meds: seq<Medication>, id: string, x: string)
    ensures FindById(Decrement(meds, id), x).Some? == FindById(meds, x).Some?
    ensures FindById(meds, x).Some? ==> FindById(Decrement(meds, id), x).value.name == FindById(meds, x).value.name
  {
    if meds != [] {
      var d := Decrement(meds, id);
      assert d[1..] == Decrement(meds[1..], id);
      FindAfterDecrement(meds[1..], id, x);
    }
  }

  /**
   * Once a dose of `id` is taken, its reminders are never notified again
   * (`taken` is never reset); the other reminders are notified as before.
   */
  lemma {:induction false} TakenIsSilenced(meds: seq<Medication>, rems: seq<Reminder>, id: string, time: string)
    ensures Notifications(Decrement(meds, id), MarkTaken(rems, id), time) == Notifications(meds, DropReminders(rems, id), time)
  {
    if rems != [] {
      var init := rems[..|rems| - 1];
      var x := rems[|rems| - 1];
      assert rems == init + [x];
      var marked := MarkTaken(rems, id);
      MarkTakenSnoc(init, x, id);
      assert marked[..|marked| - 1] == MarkTaken(init, id);
      DropRemindersSnoc(init, x, id);
      TakenIsSilenced(meds, init, id, time);
      FindAfterDecrement(meds, id, x.medicationId);
      NotificationsAppend(meds, DropReminders(init, id), if x.medicationId != id then [x] else [], time);
    }
  }

  lemma {:induction false} MarkTakenSnoc(s: seq<Reminder>, x: Reminder, id: string)
    ensures MarkTaken(s + [x], id) == MarkTaken(s, id) + [if x.medicationId == id then x.(taken := true) else x]
  {
    if s != [] {
      assert (s + [x])[1..] == s[1..] + [x];
      MarkTakenSnoc(s[1..], x, id);
    }
  }

  lemma {:induction false} DropRemindersSnoc(s: seq<Reminder>, x: Reminder, id: string)
    ensures DropReminders(s + [x], id) == DropReminders(s, id) + if x.medicationId != id then [x] else []
  {
    var t := s + [x];
    if s != [] {
      assert t[0] == s[0] && t[1..] == s[1..] + [x];
      DropRemindersSnoc(s[1..], x, id);
    } else {
      assert t == [x] && t[1..] == [];
    }
  }

  lemma {:induction false} NotificationsAppend(meds: seq<Medication>, s: seq<Reminder>, tail: seq<Reminder>, time: string)
    requires |tail| <= 1
    ensures Notifications(meds, s + tail, time) ==
      Notifications(meds, s, time) + (if tail == [] then [] else NoticeOf(meds, tail[0], time))
  {
    if tail == [] {
      assert s + tail == s;
    } else {
      assert (s + tail)[..|s + tail| - 1] == s;
    }
  }
}
