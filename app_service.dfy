/**
 * The appointment service of app.py: a list of appointments that its
 * methods change in place.  Before booking it checks that the slot is
 * free; ids are recomputed as "length + 1" at every booking.
 */
module App {
  import opened Options
  import opened Lists
  import opened Records

  /** Error text returned when the requested slot is already booked. */
  const SlotUnavailableMessage: string := "This time slot is no longer available"

  /** The list after `create_appointment`: unchanged when the slot is taken. */
  ghost function AfterCreate(s: seq<Appointment>, date: Date, time: Time, owner: string): seq<Appointment>
  {
    if SlotTaken(s, date, time) then s else Append(s, date, time, owner)
  }

  /** A call into the service that changes its list. */
  datatype Request =
    | CreateRequest(date: Date, time: Time, owner: string)
    | CancelRequest(appointmentId: int)

  /** The list after serving `requests` in order, starting from `s`. */
  ghost function Replay(s: seq<Appointment>, requests: seq<Request>): seq<Appointment>
    decreases |requests|
  {
    if requests == [] then s
    else
      var next := match requests[0]
        case CreateRequest(d, t, o) => AfterCreate(s, d, t, o)
        case CancelRequest(id) => Cancel(s, id).0;
      Replay(next, requests[1..])
  }

  /**
   * The exclusivity invariant holds after any sequence of creates and
   * cancels that starts from a list where it holds.
   */
  lemma {:induction false} ReplayKeepsSlotsDistinct(s: seq<Appointment>, requests: seq<Request>)
    requires SlotsDistinct(s)
    ensures SlotsDistinct(Replay(s, requests))
    decreases |requests|
  {
    if requests != [] {
      match requests[0]
      case CreateRequest(d, t, o) =>
        if !SlotTaken(s, d, t) {
          AppendFreeSlotKeepsSlotsDistinct(s, d, t, o);
        }
        ReplayKeepsSlotsDistinct(AfterCreate(s, d, t, o), requests[1..]);
      case CancelRequest(id) =>
        CancelKeepsSlotsDistinct(s, id);
        ReplayKeepsSlotsDistinct(Cancel(s, id).0, requests[1..]);
    }
  }

  class AppointmentService {
    var appointments: seq<Appointment>

    /** A new service holds no appointments. */
    constructor ()
      ensures appointments == []
      ensures SlotsDistinct(appointments)
    {
      appointments := [];
    }

    /** True exactly when no stored appointment has this date and time. */
    method TimeSlotAvailable(date: Date, time: Time) returns (available: bool)
      ensures available <==> !SlotTaken(appointments, date, time)
    {
      var i := 0;
      while i < |appointments|
        invariant 0 <= i <= |appointments|
        invariant forall j :: 0 <= j < i ==> !(appointments[j].date == date && appointments[j].time == time)
      {
        if appointments[i].date == date && appointments[i].time == time {
          return false;
        }
        i := i + 1;
      }
      return true;
    }

    /**
     * Refuses a taken slot with an error and no change; otherwise appends
     * an appointment numbered one past the old length and returns it.
     */
    method CreateAppointment(date: Date, time: Time, loggedInUser: string)
      returns (created: Option<Appointment>, error: Option<string>)
      modifies this
      ensures SlotTaken(old(appointments), date, time) ==>
        created == None && error == Some(SlotUnavailableMessage) && appointments == old(appointments)
      ensures !SlotTaken(old(appointments), date, time) ==>
        created == Some(Appointment(|old(appointments)| + 1, date, time, loggedInUser)) && error == None &&
        appointments == old(appointments) + [created.value]
      ensures appointments == AfterCreate(old(appointments), date, time, loggedInUser)
      ensures old(SlotsDistinct(appointments)) ==> SlotsDistinct(appointments)
    {
      var available := TimeSlotAvailable(date, time);
      if !available {
        return None, Some(SlotUnavailableMessage);
      }
      ghost var before := appointments;
      if SlotsDistinct(before) {
        AppendFreeSlotKeepsSlotsDistinct(before, date, time, loggedInUser);
      }
      var appointmentId := |appointments| + 1;
      var appointment := Appointment(appointmentId, date, time, loggedInUser);
      appointments := appointments + [appointment];
      assert appointments == Append(before, date, time, loggedInUser);
      return Some(appointment), None;
    }

    /** The stored list, unchanged. */
    method GetAppointments() returns (list: seq<Appointment>)
      ensures list == appointments
    {
      return appointments;
    }

    /**
     * Removes the first appointment carrying `appointmentId` and reports
     * whether one was found; the others keep their order.
     */
    method CancelAppointment(appointmentId: int) returns (cancelled: bool)
      modifies this
      ensures cancelled <==> HasId(old(appointments), appointmentId)
      ensures !cancelled ==> appointments == old(appointments)
      ensures cancelled ==> appointments == RemoveAt(old(appointments), IndexOfId(old(appointments), appointmentId))
      ensures (appointments, cancelled) == Cancel(old(appointments), appointmentId)
      ensures old(SlotsDistinct(appointments)) ==> SlotsDistinct(appointments)
    {
      if SlotsDistinct(appointments) {
        CancelKeepsSlotsDistinct(appointments, appointmentId);
      }
      var i := 0;
      while i < |appointments|
        invariant 0 <= i <= |appointments|
        invariant forall j :: 0 <= j < i ==> appointments[j].appointmentId != appointmentId
      {
        if appointments[i].appointmentId == appointmentId {
          assert i == IndexOfId(appointments, appointmentId);
          appointments := RemoveAt(appointments, i);
          return true;
        }
        i := i + 1;
      }
      return false;
    }
  }

  /**
   * Ids are not unique: book two slots, cancel id 1, book a third slot,
   * and both stored appointments carry id 2.
   */
  method IdReuseScenario(d1: Date, t1: Time, d2: Date, t2: Time, d3: Date, t3: Time, owner: string)
    returns (ids: seq<int>)
    requires (d1, t1) != (d2, t2) && (d3, t3) != (d2, t2)
    ensures ids == [2, 2]
  {
    var service := new AppointmentService();
    var a, e := service.CreateAppointment(d1, t1, owner);
    a, e := service.CreateAppointment(d2, t2, owner);
    var ok := service.CancelAppointment(1);
    a, e := service.CreateAppointment(d3, t3, owner);
    var list := service.GetAppointments();
    ids := [list[0].appointmentId, list[1].appointmentId];
  }
}
