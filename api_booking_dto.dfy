/**
 * The immutable booking value handed out by the data-access layer
 * (package `api`, class `BookingDTO`). Every field is set once by the
 * private constructor; the static factories are the only way to build one.
 */
module Api {

  /** Instants are modelled as totally ordered integers. */
  type Timestamp = int

  /**
   * The record's fields, in the order the class declares them: the dryer
   * counter is declared before the washing-machine counter. The datatype
   * destructors are the class's getters (`getId`, `getStartTime`, ...).
   */
  datatype BookingDTO = BookingDTO(
    id: int,
    startTime: Timestamp,
    endTime: Timestamp,
    owner: string,
    apartment: string,
    realName: string,
    numberOfTumbleDryUses: int,
    numberOfWashingMachineUses: int)

  /**
   * The private constructor. Its parameters list the washing-machine counter
   * before the dryer counter, the reverse of the field order, and it assigns
   * each one to the field of the same name.
   */
  function Construct(id: int, startTime: Timestamp, endTime: Timestamp, owner: string,
                     apartment: string, realName: string,
                     numberOfWashingMachineUses: int, numberOfTumbleDryUses: int): BookingDTO
  {
    BookingDTO(id, startTime, endTime, owner, apartment, realName,
               numberOfTumbleDryUses, numberOfWashingMachineUses)
  }

  /** A booking not yet stored: id -1 and no joined name or apartment. */
  function CreateBookingWithoutId(startTime: Timestamp, endTime: Timestamp, owner: string,
                                  numberOfWashingMachineUses: int, numberOfTumbleDryUses: int): (b: BookingDTO)
    ensures b.id == -1 && b.apartment == "" && b.realName == ""
    ensures b.startTime == startTime && b.endTime == endTime && b.owner == owner
    ensures b.numberOfWashingMachineUses == numberOfWashingMachineUses
    ensures b.numberOfTumbleDryUses == numberOfTumbleDryUses
  {
    Construct(-1, startTime, endTime, owner, "", "", numberOfWashingMachineUses, numberOfTumbleDryUses)
  }

  /** A booking read back from the store: every getter returns its argument. */
  function CreateBookingWithId(id: int, startTime: Timestamp, endTime: Timestamp, owner: string,
                               apartment: string, realName: string,
                               numberOfWashingMachineUses: int, numberOfTumbleDryUses: int): (b: BookingDTO)
    ensures b.id == id && b.startTime == startTime && b.endTime == endTime && b.owner == owner
    ensures b.apartment == apartment && b.realName == realName
    ensures b.numberOfWashingMachineUses == numberOfWashingMachineUses
    ensures b.numberOfTumbleDryUses == numberOfTumbleDryUses
  {
    Construct(id, startTime, endTime, owner, apartment, realName,
              numberOfWashingMachineUses, numberOfTumbleDryUses)
  }

  /** Id, interval, owner, apartment and real name agree. */
  predicate SameListing(a: BookingDTO, b: BookingDTO)
  {
    a.id == b.id && a.startTime == b.startTime && a.endTime == b.endTime &&
    a.owner == b.owner && a.apartment == b.apartment && a.realName == b.realName
  }

  /** Both usage counters are zero. */
  predicate NoUsage(b: BookingDTO)
  {
    b.numberOfWashingMachineUses == 0 && b.numberOfTumbleDryUses == 0
  }

  /**
   * The redacted copy shown to other residents: everything but the usage
   * counters is kept, and both counters are zero. Being a new value, it
   * leaves its argument as it was.
   */
  function CreateAnonymizedBooking(b: BookingDTO): (r: BookingDTO)
    ensures SameListing(r, b) && NoUsage(r)
    ensures r == b <==> NoUsage(b)
  {
    Construct(b.id, b.startTime, b.endTime, b.owner, b.apartment, b.realName, 0, 0)
  }

  /** Anonymising twice is anonymising once. */
  lemma AnonymizedIdempotent(b: BookingDTO)
    ensures CreateAnonymizedBooking(CreateAnonymizedBooking(b)) == CreateAnonymizedBooking(b)
  {
  }

  /** Two bookings have the same anonymised form exactly when they agree on everything but usage. */
  lemma AnonymizedForgetsOnlyUsage(a: BookingDTO, b: BookingDTO)
    ensures CreateAnonymizedBooking(a) == CreateAnonymizedBooking(b) <==> SameListing(a, b)
  {
    if CreateAnonymizedBooking(a) == CreateAnonymizedBooking(b) {
      assert SameListing(CreateAnonymizedBooking(a), a);
      assert SameListing(CreateAnonymizedBooking(b), b);
    }
  }
}
