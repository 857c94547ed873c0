/**
 * The attendee aggregate with email, first name, last name and address, its
 * registration factory, the event the factory emits and the pair it returns.
 * No field is validated: any text and any address are accepted.
 */
module AttendeeAggregate {
  import opened Wrappers
  import opened Addresses

  /** The input record handed to registration: four fields, no defaults. */
  datatype RegisterAttendeeCommand = RegisterAttendeeCommand(
    email: string, firstName: string, lastName: string, address: Address)

  /** The aggregate; its fields are set once, by the constructor, and never changed. */
  datatype Attendee = Attendee(email: string, firstName: string, lastName: string, address: Address) {

    function GetEmail(): (r: string) { email }

    function GetFirstName(): (r: string) { firstName }

    function GetLastName(): (r: string) { lastName }

    function GetAddress(): (r: Address) { address }

    /** The first name, one blank, then the last name. */
    function GetFullName(): (r: string)
      ensures |r| == |firstName| + 1 + |lastName|
      ensures r[..|firstName|] == firstName
      ensures r[|firstName|] == ' '
      ensures r[|firstName| + 1..] == lastName
    {
      firstName + " " + lastName
    }
  }

  /** The fact that an attendee registered: the email and the full name. */
  datatype AttendeeRegisteredEvent = AttendeeRegisteredEvent(email: string, fullName: string)

  /** The attendee the factory built, paired with the event it emitted. */
  datatype AttendeeRegistrationResult = AttendeeRegistrationResult(
    attendee: Attendee, attendeeRegisteredEvent: AttendeeRegisteredEvent)

  /**
   * The registration factory: builds the attendee from the inputs unchanged
   * and an event consistent with it. It is total: it has no failure path.
   */
  function RegisterAttendee(email: string, firstName: string, lastName: string, address: Address)
    : (r: AttendeeRegistrationResult)
    ensures r.attendee == Attendee(email, firstName, lastName, address)
    ensures r.attendee.GetEmail() == email && r.attendee.GetAddress() == address
    ensures r.attendeeRegisteredEvent.email == email
    ensures r.attendeeRegisteredEvent.email == r.attendee.GetEmail()
    ensures r.attendeeRegisteredEvent.fullName == r.attendee.GetFullName()
    ensures r.attendeeRegisteredEvent.fullName == firstName + " " + lastName
  {
    var attendee := Attendee(email, firstName, lastName, address);
    var event := AttendeeRegisteredEvent(email, attendee.GetFullName());
    AttendeeRegistrationResult(attendee, event)
  }

  /** The constructor stores its four arguments unchanged and each getter returns its field. */
  lemma GettersReturnConstructorArguments(email: string, firstName: string, lastName: string, address: Address)
    ensures var a := Attendee(email, firstName, lastName, address);
      a.GetEmail() == email && a.GetFirstName() == firstName
      && a.GetLastName() == lastName && a.GetAddress() == address
  {
  }

  /** The full name splits back into the names it was built from when the first name holds no blank. */
  lemma FullNameDeterminesNames(a: Attendee, b: Attendee)
    requires ' ' !in a.GetFirstName() && ' ' !in b.GetFirstName()
    requires a.GetFullName() == b.GetFullName()
    ensures a.GetFirstName() == b.GetFirstName() && a.GetLastName() == b.GetLastName()
  {
  }

  /** The aggregate's test: "John"/"Doe" registers as "John Doe" with the input email and address. */
  lemma RegisterJohnDoeExample()
    ensures var address := Address("123 Main St", Some("Apt 4B"), "New York", "NY", "10001", "USA");
      var r := RegisterAttendee("john.doe@example.com", "John", "Doe", address);
      && r.attendee.GetEmail() == "john.doe@example.com"
      && r.attendee.GetFullName() == "John Doe"
      && r.attendee.GetAddress() == address
      && r.attendeeRegisteredEvent == AttendeeRegisteredEvent("john.doe@example.com", "John Doe")
  {
  }

  /** The aggregate's test: "Jane"/"Doe", with no second street line, has the full name "Jane Doe". */
  lemma JaneDoeFullNameExample()
    ensures var address := Address("123 Main St", None, "New York", "NY", "10001", "USA");
      Attendee("jane.doe@example.com", "Jane", "Doe", address).GetFullName() == "Jane Doe"
  {
  }
}
