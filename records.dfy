/**
 * The appointment record shared by both appointment services, and the
 * list-level meaning of their operations.  A service stores its
 * appointments as a Python list; here that list is a `seq<Appointment>`.
 */
module Records {
  import opened Lists

  /** Calendar date and time of day: only ever compared for equality. */
  type Date(==)
  type Time(==)

  /** An appointment: its id, the slot it occupies and who booked it. */
  datatype Appointment = Appointment(appointmentId: int, date: Date, time: Time, owner: string)

  /** The slot an appointment occupies. */
  function SlotOf(a: Appointment): (Date, Time)
  {
    (a.date, a.time)
  }

  /** Some stored appointment occupies `(date, time)`. */
  ghost predicate SlotTaken(s: seq<Appointment>, date: Date, time: Time)
  {
    exists i :: 0 <= i < |s| && s[i].date == date && s[i].time == time
  }

  /** The exclusivity invariant: no two stored appointments share a slot. */
  ghost predicate SlotsDistinct(s: seq<Appointment>)
  {
    DistinctBy(s, SlotOf)
  }

  /** Some stored appointment carries `id`. */
  ghost predicate HasId(s: seq<Appointment>, id: int)
  {
    exists i :: 0 <= i < |s| && s[i].appointmentId == id
  }

  /** Position of the first appointment carrying `id`, or `|s|` when none does. */
  function IndexOfId(s: seq<Appointment>, id: int): (k: nat)
    ensures k <= |s|
    ensures k < |s| <==> HasId(s, id)
    ensures k < |s| ==> s[k].appointmentId == id
    ensures forall j :: 0 <= j < k ==> s[j].appointmentId != id
  {
    FirstIndex(s, (a: Appointment) => a.appointmentId == id)
  }

  /**
   * The list after a successful create: one new appointment at the end,
   * numbered one past the current length.
   */
  function Append(s: seq<Appointment>, date: Date, time: Time, owner: string): (r: seq<Appointment>)
    ensures |r| == |s| + 1 && r[..|s|] == s
    ensures r[|s|] == Appointment(|s| + 1, date, time, owner)
  {
    s + [Appointment(|s| + 1, date, time, owner)]
  }

  /**
   * The list-level meaning of `cancel_appointment`, identical in both
   * services: the list afterwards and whether something was removed.
   */
  function Cancel(s: seq<Appointment>, id: int): (r: (seq<Appointment>, bool))
    ensures r.1 <==> HasId(s, id)
    ensures !r.1 ==> r.0 == s
    ensures r.1 ==> |r.0| == |s| - 1
    ensures r.1 ==> r.0 == RemoveAt(s, IndexOfId(s, id))
  {
    var k := IndexOfId(s, id);
    if k < |s| then (RemoveAt(s, k), true) else (s, false)
  }

  /** Booking a free slot keeps the exclusivity invariant. */
  lemma AppendFreeSlotKeepsSlotsDistinct(s: seq<Appointment>, date: Date, time: Time, owner: string)
    requires SlotsDistinct(s) && !SlotTaken(s, date, time)
    ensures SlotsDistinct(Append(s, date, time, owner))
  {
    var x := Appointment(|s| + 1, date, time, owner);
    assert forall i :: 0 <= i < |s| ==> SlotOf(s[i]) != SlotOf(x);
    AppendKeepsDistinct(s, x, SlotOf);
  }

  /** Cancelling only removes, so it keeps the exclusivity invariant. */
  lemma CancelKeepsSlotsDistinct(s: seq<Appointment>, id: int)
    requires SlotsDistinct(s)
    ensures SlotsDistinct(Cancel(s, id).0)
  {
    if HasId(s, id) {
      RemoveAtKeepsDistinct(s, IndexOfId(s, id), SlotOf);
    }
  }

  /**
   * Cancelling an id that occurs once succeeds, and cancelling it again
   * finds nothing and changes nothing.
   */
  lemma CancelTwice(s: seq<Appointment>, id: int, k: nat)
    requires k < |s| && s[k].appointmentId == id
    requires forall j :: 0 <= j < |s| && j != k ==> s[j].appointmentId != id
    ensures Cancel(s, id).1
    ensures !Cancel(Cancel(s, id).0, id).1
    ensures Cancel(Cancel(s, id).0, id).0 == Cancel(s, id).0
  {
    var r := Cancel(s, id).0;
    assert IndexOfId(s, id) == k;
    forall i | 0 <= i < |r|
      ensures r[i].appointmentId != id
    {
      assert r[i] == s[if i < k then i else i + 1];
    }
  }
}
