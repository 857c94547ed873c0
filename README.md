# Attendee registration: a Dafny model of the domain core

This project models the domain layer of a conference-attendee registration
example built in hexagonal (ports-and-adapters) style:

- the attendee aggregate (email, first name, last name, address), its
  registration factory, the full name it derives ("first last"), the
  `AttendeeRegisteredEvent` it emits and the result pair it returns
  (`attendee_aggregate.dfy`, module `AttendeeAggregate`);
- the second, email-only shape of the aggregate and its factory
  (`email_only_attendee.dfy`, module `EmailOnlyAttendee`);
- the T-shirt size enumeration `{XS, S, M, L, XL, XXL}` and its
  case-insensitive parser (`tshirt_size.dfy`, module `TShirtSizes`), built
  on ASCII upper- and lower-casing (`ascii_case.dfy`, module `AsciiCase`);
- the repository's translation of an aggregate into the stored entity
  records (`attendee_persistence.dfy`, module `AttendeePersistence`);
- the address value object (`address.dfy`) and `Option`/`Result`
  (`wrappers.dfy`) standing for Java's null references and thrown exceptions.

Everything in this core is pure: fields are assigned once at construction and
never changed, so every entity is a `datatype` and every operation a
`function`, with lemmas for the properties that relate several calls.

Modelling decisions:

- **One aggregate shape.** The source holds two `Attendee` classes and uses
  them inconsistently: the result record is declared over the email-only
  class, the four-field class builds it with itself, and the repository
  imports the email-only class yet calls `getAddress()`, which only the
  four-field class has. The model takes the four-field aggregate as canonical:
  its result pairs it with a two-field event `(email, fullName)`, and the
  repository translates it. The email-only variant is kept in its own module
  with its own one-field event, since its factory builds the event from the
  email alone.
- **No validation.** The constructor and the factory check nothing
  (`domain/aggregates/Attendee.java`, lines 17-30): any text and any address
  are accepted. The model has no error path: `RegisterAttendee` is total.
- **The command has four fields** (email, first and last name, address), as
  its record declares; meal preference and T-shirt size are not part of it.
- **Null.** The parser's input is an `Option<string>`: a null text fails with
  a null-pointer error (upper-casing null throws before the lookup), which is
  distinct from the invalid-argument error. The second street line is an
  `Option<string>` because the tests pass null for it; every other text field
  is taken to be non-null.
- **Determinism** of the factories needs no lemma: a Dafny function gives
  equal results for equal arguments.

## Model

| member | source | states |
|---|---|---|
| AsciiCase.ToUpperCase | src/main/java/dddhexagonalworkshop/conference/attendees/domain/valueobjects/TShirtSize.java:8 | upper-casing keeps the length and maps each character to its upper-case form, position by position |
| AsciiCase.UpperOfLower | src/main/java/dddhexagonalworkshop/conference/attendees/domain/valueobjects/TShirtSize.java:8 | lower-casing a text first does not change its upper-case form, so the parser sees "xl" and "XL" alike |
| TShirtSizes.Name | src/main/java/dddhexagonalworkshop/conference/attendees/domain/valueobjects/TShirtSize.java:4 | every member's name is one of the six names and is already upper case |
| TShirtSizes.ValueOf | src/main/java/dddhexagonalworkshop/conference/attendees/domain/valueobjects/TShirtSize.java:8 | the exact-name lookup succeeds if and only if the text is one of the six names, and then returns the member with that name |
| TShirtSizes.FromString | src/main/java/dddhexagonalworkshop/conference/attendees/domain/valueobjects/TShirtSize.java:6-12 | null fails with a null-pointer error; otherwise parsing succeeds if and only if the upper-cased text is a member name, returns the member so named, and on failure raises an invalid-argument error whose message is "Invalid T-Shirt size: " followed by the original text |
| TShirtSizes.NameInjective | src/main/java/dddhexagonalworkshop/conference/attendees/domain/valueobjects/TShirtSize.java:4 | distinct members have distinct names |
| TShirtSizes.NamesAreExactlyTheMembers | src/main/java/dddhexagonalworkshop/conference/attendees/domain/valueobjects/TShirtSize.java:4 | each of the six names belongs to exactly one member, so the accepted set is exactly XS, S, M, L, XL, XXL |
| TShirtSizes.FromStringName | src/main/java/dddhexagonalworkshop/conference/attendees/domain/valueobjects/TShirtSize.java:4-8 | round trip: parsing a member's name gives that member |
| TShirtSizes.FromStringLowerName | src/main/java/dddhexagonalworkshop/conference/attendees/domain/valueobjects/TShirtSize.java:4-8 | round trip: parsing a member's name in lower case gives that member |
| TShirtSizes.FromStringIgnoresCase | src/main/java/dddhexagonalworkshop/conference/attendees/domain/valueobjects/TShirtSize.java:8 | two texts with the same upper-case form both succeed or both fail, and succeed with the same member |
| TShirtSizes.FromStringIdempotent | src/main/java/dddhexagonalworkshop/conference/attendees/domain/valueobjects/TShirtSize.java:6-12 | re-parsing the name of a successful result gives the same result |
| TShirtSizes.FromStringLowerCaseExample | src/main/java/dddhexagonalworkshop/conference/attendees/domain/valueobjects/TShirtSize.java:8 | "xl" parses to XL |
| TShirtSizes.FromStringRejectsXXXL | src/main/java/dddhexagonalworkshop/conference/attendees/domain/valueobjects/TShirtSize.java:8-10 | "XXXL" fails with the message "Invalid T-Shirt size: XXXL" |
| TShirtSizes.FromStringRejectsLeadingBlank | src/main/java/dddhexagonalworkshop/conference/attendees/domain/valueobjects/TShirtSize.java:8-10 | nothing is trimmed: " xl" fails and the message quotes " xl" as given |
| TShirtSizes.FromStringRejectsSM | src/main/java/dddhexagonalworkshop/conference/attendees/domain/valueobjects/TShirtSize.java:8-10 | the mixed-case text of a non-member, "sM", fails |
| AttendeeAggregate.Attendee.GetFullName | src/main/java/dddhexagonalworkshop/conference/attendees/domain/aggregates/Attendee.java:36-38 | the full name is the first name, then one blank, then the last name, and nothing more |
| AttendeeAggregate.GettersReturnConstructorArguments | src/main/java/dddhexagonalworkshop/conference/attendees/domain/aggregates/Attendee.java:17-50 | the constructor stores email, first name, last name and address unchanged and each getter returns its stored value |
| AttendeeAggregate.FullNameDeterminesNames | src/main/java/dddhexagonalworkshop/conference/attendees/domain/aggregates/Attendee.java:36-38 | when first names hold no blank, equal full names mean equal first names and equal last names |
| AttendeeAggregate.RegisterAttendee | src/main/java/dddhexagonalworkshop/conference/attendees/domain/aggregates/Attendee.java:24-30 | total; the returned attendee is the one the constructor builds from the inputs (email and address unchanged); the event's email equals the input email and the attendee's email; the event's full name equals the attendee's full name, "first last" |
| AttendeeAggregate.RegisterJohnDoeExample | src/test/java/dddhexagonalworkshop/conference/attendees/domain/aggregates/AttendeeTest.java:28-40 | "John"/"Doe" registers with the input email and address, full name "John Doe", and the event ("john.doe@example.com", "John Doe") |
| AttendeeAggregate.JaneDoeFullNameExample | src/test/java/dddhexagonalworkshop/conference/attendees/domain/aggregates/AttendeeTest.java:47-61 | "Jane"/"Doe", with no second street line, has the full name "Jane Doe" |
| EmailOnlyAttendee.GetEmailReturnsStoredEmail | src/main/java/dddhexagonalworkshop/conference/attendees/domain/Attendee.java:18-20 | the email-only getter returns the stored email unchanged |
| EmailOnlyAttendee.RegisterAttendee | src/main/java/dddhexagonalworkshop/conference/attendees/domain/Attendee.java:10-16 | total; the attendee's email is the input email, the event carries the attendee's email, and the result pairs exactly this attendee with this event |
| AttendeePersistence.FromAggregate | src/main/java/dddhexagonalworkshop/conference/attendees/persistence/AttendeeRepository.java:15-26 | the entity's id is unset, its email is the aggregate's email, and each of the six address fields is copied to the same field of the address entity |
| AttendeePersistence.FromAggregateKeepsAddress | src/main/java/dddhexagonalworkshop/conference/attendees/persistence/AttendeeRepository.java:16-23 | the stored address entity holds the aggregate's address without loss |
| AttendeePersistence.FromAggregateCarriesExactlyEmailAndAddress | src/main/java/dddhexagonalworkshop/conference/attendees/persistence/AttendeeRepository.java:15-26 | two aggregates give the same entity if and only if their emails and addresses agree: first and last names are dropped |
| AttendeePersistence.FromAggregateKeepsAbsentStreet2Example | src/main/java/dddhexagonalworkshop/conference/attendees/persistence/AttendeeRepository.java:18 | an absent second street line is stored as absent, not rejected |

## Left out

- The HTTP endpoint (routing, JSON binding, logging, the created-resource URI): framework I/O.
- The event publisher: a one-line forward to a message-broker emitter.
- `AttendeeRepository.persist` and the ORM repository it extends: database storage; only the pure translation `fromAggregate` is modelled.
- The registration service: its source is not part of this model, so neither the persist-before-publish order nor its failure handling is modelled.
- The entity's generated id, JPA annotations and cascade behaviour: the model only records that the translation leaves the id unset.
- Meal preference: its type and parser are not part of this model.
- `AsciiCase.ToUpperCase` upper-cases ASCII letters only; Java's locale- and Unicode-aware `toUpperCase` also maps some other characters (for example a long s to "S"), which would let more texts parse.
- A null address: the address reference, like the names, is taken to be non-null. In Java the constructor and the factory accept a null address, and `fromAggregate` then throws a null-pointer exception at its first `getAddress()` call; `AttendeePersistence.FromAggregate` is total and does not model that exception.
- Java's string concatenation with a null name (which yields "null"): names are taken to be non-null text.
- Object identity: two registrations with equal inputs give equal values here, whereas Java gives two distinct objects with equal fields.
