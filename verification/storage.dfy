/**
 The booking store adapter and the live-update step.

 Local storage is modelled by its decoded contents: a map from storage keys
 to booking lists. The dashboard reads and writes only the key "bookings";
 an absent key reads as the empty list.
 */
module Storage {
  import opened Bookings
  import opened Clock
  import opened Tally
  import opened Aggregator

  /** The single storage key holding the booking history. */
  const BookingsKey: string := "bookings"

  /** Decoded contents of the host's persistent local storage. */
  type LocalStore = map<string, seq<Booking>>

  /** The stored booking history, or the empty list when nothing is stored yet. */
  function LoadBookings(store: LocalStore): seq<Booking> {
    if BookingsKey in store then store[BookingsKey] else []
  }

  /** What handling one "ticketBooked" event leaves behind: the written store and the recomputed statistics. */
  datatype Delivery = Delivery(store: LocalStore, stats: Stats)

  /**
   The event handler: load the stored history, append the payload, write the
   list back under "bookings" and recompute the statistics from it.
   */
  function OnTicketBooked(store: LocalStore, payload: Booking, hourOf: int -> Hour): (d: Delivery)
    ensures BookingsKey in d.store
    ensures forall k :: k != BookingsKey ==> (k in d.store <==> k in store)
    ensures forall k :: k != BookingsKey && k in store ==> d.store[k] == store[k]
    ensures d.stats == CalculateStats(LoadBookings(d.store), hourOf)
  {
    var updated := LoadBookings(store) + [payload];
    Delivery(store[BookingsKey := updated], CalculateStats(updated, hourOf))
  }

  /**
   The stored history grows by exactly one record: the earlier records stay
   in place and in order, and the payload is the new last record.
   */
  lemma AppendKeepsHistory(store: LocalStore, payload: Booking, hourOf: int -> Hour)
    ensures var before, after := LoadBookings(store), LoadBookings(OnTicketBooked(store, payload, hourOf).store);
            && |after| == |before| + 1
            && after[..|before|] == before
            && after[|before|] == payload
  {
  }

  /**
   Recomputing from the new history agrees with updating the previous
   statistics by the payload alone: the total grows by its seat count, its
   user's and its hour's entries are bumped by that count, and every other
   entry keeps its count and place.
   */
  lemma IncrementalStats(store: LocalStore, payload: Booking, hourOf: int -> Hour)
    ensures var before, after := CalculateStats(LoadBookings(store), hourOf), OnTicketBooked(store, payload, hourOf).stats;
            && after.total == before.total + SeatCount(payload)
            && after.perUser == Bump(before.perUser, EffectiveUser(payload), SeatCount(payload))
            && after.perHour == Bump(before.perHour, HourLabel(hourOf, payload.timestamp), SeatCount(payload))
            && Lookup(after.perUser, EffectiveUser(payload)) == Lookup(before.perUser, EffectiveUser(payload)) + SeatCount(payload)
            && (forall u :: u != EffectiveUser(payload) ==> Lookup(after.perUser, u) == Lookup(before.perUser, u))
  {
    var bs := LoadBookings(store);
    GroupSnoc(bs, payload, EffectiveUser);
    GroupSnoc(bs, payload, ByHour(hourOf));
  }

  /**
   On a store with no history, a "user3" booking of seats [4, 5] is stored
   as the only record and yields the single entry user3: 2; on any store it
   adds 2 to user3's entry.
   */
  lemma LiveUpdateSample(store: LocalStore, hourOf: int -> Hour, t: int)
    ensures var d := OnTicketBooked(store, Booking("user3", [4, 5], t), hourOf);
            && Lookup(d.stats.perUser, "user3") == Lookup(CalculateStats(LoadBookings(store), hourOf).perUser, "user3") + 2
            && (BookingsKey !in store ==>
                  && LoadBookings(d.store) == [Booking("user3", [4, 5], t)]
                  && d.stats.total == 2
                  && d.stats.perUser == [Entry("user3", 2)])
  {
    IncrementalStats(store, Booking("user3", [4, 5], t), hourOf);
  }
}
