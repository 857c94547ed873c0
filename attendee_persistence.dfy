/**
 * The storage side of the aggregate: the entity records the repository
 * persists, and the translation from the aggregate to them.
 */
module AttendeePersistence {
  import opened Wrappers
  import opened Addresses
  import opened AttendeeAggregate

  /** The stored form of an address: the same six fields. */
  datatype AddressEntity = AddressEntity(
    street: string,
    street2: Option<string>,
    city: string,
    stateOrProvince: string,
    postCode: string,
    country: string)

  /** The stored form of an attendee: an id the database generates, an address and an email. */
  datatype AttendeeEntity = AttendeeEntity(id: Option<int>, address: AddressEntity, email: string)

  /** The address an address entity stores. */
  function StoredAddress(e: AddressEntity): (a: Address) {
    Address(e.street, e.street2, e.city, e.stateOrProvince, e.postCode, e.country)
  }

  /**
   * `fromAggregate`: copies the email and the six address fields, leaves the
   * id unset and carries nothing else.
   */
  function FromAggregate(attendee: Attendee): (e: AttendeeEntity)
    ensures e.id == None
    ensures e.email == attendee.GetEmail()
    ensures e.address.street == attendee.GetAddress().street
    ensures e.address.street2 == attendee.GetAddress().street2
    ensures e.address.city == attendee.GetAddress().city
    ensures e.address.stateOrProvince == attendee.GetAddress().stateOrProvince
    ensures e.address.postCode == attendee.GetAddress().postCode
    ensures e.address.country == attendee.GetAddress().country
  {
    var a := attendee.GetAddress();
    var addressEntity := AddressEntity(a.street, a.street2, a.city, a.stateOrProvince, a.postCode, a.country);
    AttendeeEntity(None, addressEntity, attendee.GetEmail())
  }

  /** The translation loses no part of the address. */
  lemma FromAggregateKeepsAddress(attendee: Attendee)
    ensures StoredAddress(FromAggregate(attendee).address) == attendee.GetAddress()
  {
  }

  /** Two aggregates map to the same entity exactly when their emails and addresses agree: the names are dropped. */
  lemma FromAggregateCarriesExactlyEmailAndAddress(a: Attendee, b: Attendee)
    ensures FromAggregate(a) == FromAggregate(b)
      <==> a.GetEmail() == b.GetEmail() && a.GetAddress() == b.GetAddress()
  {
  }

  /** An absent second street line is stored as absent, not rejected. */
  lemma FromAggregateKeepsAbsentStreet2Example()
    ensures var address := Address("123 Main St", None, "New York", "NY", "10001", "USA");
      FromAggregate(Attendee("jane.doe@example.com", "Jane", "Doe", address))
        == AttendeeEntity(None, AddressEntity("123 Main St", None, "New York", "NY", "10001", "USA"),
                          "jane.doe@example.com")
  {
  }
}
