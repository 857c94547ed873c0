/**
 * The email-only attendee: a second, smaller shape of the aggregate whose
 * factory takes just an email and emits an event that carries just that email.
 */
module EmailOnlyAttendee {

  datatype Attendee = Attendee(email: string) {
    function GetEmail(): (r: string) { email }
  }

  /** The getter returns the stored email unchanged. */
  lemma GetEmailReturnsStoredEmail(email: string)
    ensures Attendee(email).GetEmail() == email
  {
  }

  /** The event of this variant is built from the email alone. */
  datatype AttendeeRegisteredEvent = AttendeeRegisteredEvent(email: string)

  datatype AttendeeRegistrationResult = AttendeeRegistrationResult(
    attendee: Attendee, attendeeRegisteredEvent: AttendeeRegisteredEvent)

  /** The factory: any email is accepted; the event carries the attendee's email. */
  function RegisterAttendee(email: string): (r: AttendeeRegistrationResult)
    ensures r.attendee.GetEmail() == email
    ensures r.attendeeRegisteredEvent.email == r.attendee.GetEmail()
    ensures r == AttendeeRegistrationResult(Attendee(email), AttendeeRegisteredEvent(email))
  {
    var attendee := Attendee(email);
    AttendeeRegistrationResult(attendee, AttendeeRegisteredEvent(attendee.email))
  }
}
