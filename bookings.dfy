/**
 * The consultation list page: bookings loaded newest first, cancelled by id,
 * and the two actions offered on a booking still scheduled. Creation times
 * are millisecond timestamps.
 */
module Bookings {
  import Seqs

  datatype Status = Scheduled | Completed | Cancelled

  datatype Booking = Booking(
    id: string, doctorId: string, doctorName: string, specialization: string,
    date: string, time: string, status: Status, createdAt: int)

  function CreatedAt(b: Booking): int {
    b.createdAt
  }

  /**
   * The load-time sort, newest first (`b.createdAt - a.createdAt`): the same
   * bookings, in non-increasing creation time, with bookings created at the
   * same time in their stored order.
   */
  function Load(saved: seq<Booking>): (r: seq<Booking>)
    ensures multiset(r) == multiset(saved)
    ensures Seqs.SortedDesc(r, CreatedAt)
    ensures forall t :: Seqs.WithKey(r, CreatedAt, t) == Seqs.WithKey(saved, CreatedAt, t)
  {
    Seqs.SortDescSorted(saved, CreatedAt);
    forall t ensures Seqs.WithKey(Seqs.SortDesc(saved, CreatedAt), CreatedAt, t) == Seqs.WithKey(saved, CreatedAt, t) {
      Seqs.SortDescStable(saved, CreatedAt, t);
    }
    Seqs.SortDesc(saved, CreatedAt)
  }

  /** `handleCancelBooking`: the bookings with that id become cancelled; nothing else changes. */
  function Cancel(bookings: seq<Booking>, id: string): (r: seq<Booking>)
    ensures |r| == |bookings|
    ensures forall i :: 0 <= i < |bookings| && bookings[i].id == id ==> r[i] == bookings[i].(status := Cancelled)
    ensures forall i :: 0 <= i < |bookings| && bookings[i].id != id ==> r[i] == bookings[i]
  {
    if bookings == [] then []
    else
      var b := bookings[0];
      [if b.id == id then b.(status := Cancelled) else b] + Cancel(bookings[1..], id)
  }

  /** Cancelling what is already cancelled changes nothing. */
  lemma CancelCancelled(bookings: seq<Booking>, id: string)
    requires forall i :: 0 <= i < |bookings| && bookings[i].id == id ==> bookings[i].status == Cancelled
    ensures Cancel(bookings, id) == bookings
  {
    var r := Cancel(bookings, id);
    assert forall i :: 0 <= i < |bookings| ==> r[i] == bookings[i];
  }

  /** Cancelling twice is cancelling once. */
  lemma CancelIdempotent(bookings: seq<Booking>, id: string)
    ensures Cancel(Cancel(bookings, id), id) == Cancel(bookings, id)
  {
    CancelCancelled(Cancel(bookings, id), id);
  }

  /** Cancelling keeps the list in its newest-first order. */
  lemma CancelKeepsOrder(bookings: seq<Booking>, id: string)
    requires Seqs.SortedDesc(bookings, CreatedAt)
    ensures Seqs.SortedDesc(Cancel(bookings, id), CreatedAt)
  {
    var r := Cancel(bookings, id);
    assert forall i :: 0 <= i < |r| ==> CreatedAt(r[i]) == CreatedAt(bookings[i]);
  }

  datatype Action = JoinCall | CancelBooking

  /** The buttons under a booking: join and cancel, only while it is scheduled. */
  function Actions(b: Booking): (r: seq<Action>)
    ensures r != [] <==> b.status == Scheduled
    ensures b.status == Scheduled ==> r == [JoinCall, CancelBooking]
  {
    if b.status == Scheduled then [JoinCall, CancelBooking] else []
  }

  /** Once cancelled, a booking offers no action, so it cannot be cancelled or joined again from the page. */
  lemma CancelledOffersNothing(bookings: seq<Booking>, id: string, i: int)
    requires 0 <= i < |bookings| && bookings[i].id == id
    ensures Actions(Cancel(bookings, id)[i]) == []
  {
  }
}
