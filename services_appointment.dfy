/**
 * The appointment service of services/appointment_service.py: the same
 * list-based create, view and cancel as app.py, but create books any slot
 * without checking that it is free.
 */
module Services {
  import opened Lists
  import opened Records

  class AppointmentService {
    var appointments: seq<Appointment>

    /** A new service holds no appointments. */
    constructor ()
      ensures appointments == []
    {
      appointments := [];
    }

    /**
     * Always succeeds: appends an appointment numbered one past the old
     * length and returns it.
     */
    method CreateAppointment(date: Date, time: Time, patientName: string) returns (appointment: Appointment)
      modifies this
      ensures appointment == Appointment(|old(appointments)| + 1, date, time, patientName)
      ensures appointments == old(appointments) + [appointment]
      ensures |appointments| == |old(appointments)| + 1
    {
      var appointmentId := |appointments| + 1;
      appointment := Appointment(appointmentId, date, time, patientName);
      appointments := appointments + [appointment];
    }

    /** The stored list, unchanged. */
    method ViewAppointments() returns (list: seq<Appointment>)
      ensures list == appointments
    {
      return appointments;
    }

    /**
     * Removes the first appointment carrying `appointmentId` and reports
     * whether one was found; the others keep their order.
     */
    method CancelAppointment(appointmentId: int) returns (cancelled: bool)
      modifies this
      ensures cancelled <==> HasId(old(appointments), appointmentId)
      ensures !cancelled ==> appointments == old(appointments)
      ensures cancelled ==> appointments == RemoveAt(old(appointments), IndexOfId(old(appointments), appointmentId))
      ensures cancelled ==> |appointments| == |old(appointments)| - 1
      ensures (appointments, cancelled) == Cancel(old(appointments), appointmentId)
    {
      var i := 0;
      while i < |appointments|
        invariant 0 <= i <= |appointments|
        invariant forall j :: 0 <= j < i ==> appointments[j].appointmentId != appointmentId
      {
        if appointments[i].appointmentId == appointmentId {
          assert i == IndexOfId(appointments, appointmentId);
          appointments := RemoveAt(appointments, i);
          return true;
        }
        i := i + 1;
      }
      return false;
    }
  }

  /**
   * Without an availability check two bookings of the same slot are both
   * stored, so the exclusivity invariant does not hold for this service.
   */
  method DoubleBookingScenario(date: Date, time: Time, first: string, second: string)
    returns (stored: seq<Appointment>)
    ensures |stored| == 2
    ensures SlotOf(stored[0]) == SlotOf(stored[1]) == (date, time)
    ensures !SlotsDistinct(stored)
  {
    var service := new AppointmentService();
    var a := service.CreateAppointment(date, time, first);
    var b := service.CreateAppointment(date, time, second);
    stored := service.ViewAppointments();
    assert SlotOf(stored[0]) == SlotOf(stored[1]);
  }
}
