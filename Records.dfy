/** The Firestore documents the components read. A field the document may lack is an `Option`;
    timestamps are whole milliseconds since the epoch. */
module Records {
  import opened Wrappers

  /** A document of the "car" collection. */
  datatype Car = Car(
    id: string,
    brand: string,
    model: string,
    year: int,
    pricePerHour: int,
    capacity: int,
    location: Option<string>,
    availableFrom: Option<int>,
    availableTill: Option<int>)

  /** A document of the "reviews" collection. */
  datatype Review = Review(id: string, carId: string, userId: string, username: string, rating: int, comment: string)

  /** A document of the "users" collection; `createdSeconds` is `createdDate.seconds`. */
  datatype UserDoc = UserDoc(
    id: string,
    email: string,
    role: Option<string>,
    displayName: Option<string>,
    username: Option<string>,
    createdSeconds: Option<int>)
}
