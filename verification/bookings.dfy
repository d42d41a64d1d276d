/** The booking record the dashboard reads from storage and receives on the event channel. */
module Bookings {

  /** One ticket purchase: who booked, which seats, and when (epoch milliseconds). */
  datatype Booking = Booking(userId: string, seats: seq<int>, timestamp: int)

  /** The key under which bookings without a user id are counted. */
  const UnknownUser: string := "unknown"

  /** The number of tickets a booking stands for: the length of its seat list. */
  function SeatCount(b: Booking): nat {
    |b.seats|
  }

  /** The user a booking is counted for: its id, or "unknown" when the id is empty (falsy). */
  function EffectiveUser(b: Booking): string {
    if b.userId == "" then UnknownUser else b.userId
  }

  /** The total number of seats over a list of bookings, summed from the front like `reduce`. */
  function TotalSeats(bs: seq<Booking>): nat {
    if bs == [] then 0 else TotalSeats(bs[..|bs| - 1]) + SeatCount(bs[|bs| - 1])
  }

  /** The total of a concatenation is the sum of the totals: it does not depend on how the history is split. */
  lemma {:induction false} TotalSeatsAppend(xs: seq<Booking>, ys: seq<Booking>)
    ensures TotalSeats(xs + ys) == TotalSeats(xs) + TotalSeats(ys)
  {
    if ys != [] {
      var init := ys[..|ys| - 1];
      TotalSeatsAppend(xs, init);
      assert (xs + ys)[..|xs + ys| - 1] == xs + init;
    } else {
      assert xs + ys == xs;
    }
  }

  /** A booking is counted under "unknown" exactly when its id is empty or is literally "unknown". */
  lemma UnknownMerges(b: Booking)
    ensures EffectiveUser(b) == UnknownUser <==> b.userId == "" || b.userId == UnknownUser
    ensures b.userId != "" ==> EffectiveUser(b) == b.userId
  {
  }
}
