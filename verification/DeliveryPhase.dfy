/** The phase of a delivery job, as stored in the journal. */
module DeliveryPhases {

  // `Blank` is the empty string a job carries before its first submit, and `Unknown` is any
  // other string a damaged journal may hold.
  datatype Phase =
    | Blank
    | WaitingCollect
    | Pulling
    | Uploading
    | Completing
    | Retrying
    | Done
    | Failed
    | Unknown(text: string)
  {
    predicate Terminal() {
      Done? || Failed?
    }
  }
}
