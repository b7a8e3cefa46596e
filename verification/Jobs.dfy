/** The states of a job (jobsmith/engine/models.py), and the sets of them the engine asks for
    (jobsmith/engine/manager.py). */
module Jobs {
  datatype Status = Queued | Running | Done | Failed | Cancelled | NeedsInput

  /** The endings: a job in one of them is delivered to its return address. */
  predicate Settled(status: Status) {
    status == Done || status == Failed || status == Cancelled
  }

  predicate Resumable(status: Status) {
    status == Cancelled || status == Failed
  }

  predicate InFlight(status: Status) {
    status == Queued || status == Running
  }
}
