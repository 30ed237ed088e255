/** The booking status picker: which new statuses it offers for a booking. */
module BookingStatusSelector {
  import opened Wrappers
  import opened Seqs
  import opened Types

  /**
   * The `transitions` table. Every status can be sent back to pending
   * except pending itself, nothing leads to no-show, and no status
   * offers itself.
   */
  function Transitions(s: BookingStatus): (r: seq<BookingStatus>)
    ensures s !in r
    ensures NoShow !in r
    ensures BookingPending in r <==> s != BookingPending
    ensures NoDuplicates(r)
    ensures 1 <= |r| <= 3
  {
    match s
    case BookingPending => [Confirmed, Cancelled]
    case Confirmed => [Completed, BookingPending, Cancelled]
    case Completed => [BookingPending]
    case Cancelled => [BookingPending]
    case NoShow => [BookingPending, Completed]
  }

  /** The table row by row: this is the only edge set for booking status. */
  lemma TransitionTable()
    ensures Transitions(BookingPending) == [Confirmed, Cancelled]
    ensures Transitions(Confirmed) == [Completed, BookingPending, Cancelled]
    ensures Transitions(Completed) == [BookingPending] && Transitions(Cancelled) == [BookingPending]
    ensures Transitions(NoShow) == [BookingPending, Completed]
  {
  }

  /**
   * `transitions[status] || []` on the status text a booking carries: a
   * text that names no status offers nothing. `None` is a null booking,
   * for which nothing is rendered.
   */
  function AvailableStatuses(currentStatus: Option<string>): (r: Option<seq<BookingStatus>>)
    ensures r.None? <==> currentStatus.None?
    ensures currentStatus.Some? && ParseBookingStatus(currentStatus.value).None? ==> r == Some([])
    ensures forall s :: currentStatus == Some(BookingStatusName(s)) ==> r == Some(Transitions(s))
  {
    match currentStatus
    case None => None
    case Some(text) =>
      match ParseBookingStatus(text)
      case None => Some([])
      case Some(s) => Some(Transitions(s))
  }
}
