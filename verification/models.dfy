/** The persisted entities; timestamps are Go `time.Time` values taken as integers. */
module Models {

  /** One SMS record, as stored and as returned by the message endpoints. */
  datatype Message = Message(
    id: string,
    userId: string,
    phoneNumber: string,
    text: string,
    status: string,
    createdAt: int)

  /** A user profile; the phone number is its primary key. */
  datatype Profile = Profile(
    phoneNumber: string,
    name: string,
    avatar: string,
    createdAt: int,
    updatedAt: int)
}
