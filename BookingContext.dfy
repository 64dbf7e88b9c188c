/**
  The session's booking store (src/context/BookingContext.tsx): the provider
  holds one `bookingData` slot, seeded from `initialData`, that
  `setBookingData` overwrites; `useBooking` hands out the provider's value or
  throws when no provider encloses the caller.
*/
module BookingContext {
  import opened Wrappers
  import opened BookingSchema

  /** The state of one `BookingProvider`: a single overwriteable slot. */
  class BookingStore {
    var bookingData: Option<BookingData>

    /** `<BookingProvider initialData={initialData}>`. */
    constructor (initialData: Option<BookingData>)
      ensures bookingData == initialData
    {
      bookingData := initialData;
    }

    /** `<BookingProvider>` without `initialData`, which then defaults to null. */
    constructor Empty()
      ensures bookingData == None
    {
      bookingData := None;
    }

    /** `setBookingData(data)`: the slot now holds `data` and nothing of what it held before. */
    method SetBookingData(data: BookingData)
      modifies this
      ensures bookingData == Some(data)
    {
      bookingData := Some(data);
    }
  }

  const OutsideProviderMessage: string := "useBooking must be used within a BookingProvider"

  /**
    `useBooking()`, given the context value React finds (`None` when no
    provider encloses the caller): the provider's store, or the error it throws.
  */
  function UseBooking(context: Option<BookingStore>): (r: Result<BookingStore, string>)
    ensures r.Ok? <==> context.Some?
    ensures r.Ok? ==> r.value == context.value
    ensures r.Err? ==> r.error == OutsideProviderMessage
  {
    match context
    case None => Err(OutsideProviderMessage)
    case Some(store) => Ok(store)
  }
}
