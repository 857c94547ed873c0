/** The postal address value object carried by an attendee. */
module Addresses {
  import opened Wrappers

  /**
   * Six text fields in constructor order. Only `street2` may be absent (the
   * aggregate's tests pass null for it); the other fields are plain text.
   */
  datatype Address = Address(
    street: string,
    street2: Option<string>,
    city: string,
    stateOrProvince: string,
    postCode: string,
    country: string)
}
