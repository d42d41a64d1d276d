/**
 The aggregation the dashboard recomputes from the whole booking list:
 the total number of seats, the seats per user and the seats per hour.
 Each grouping is one left-to-right pass that bumps a counter per booking.
 */
module Aggregator {
  import opened Bookings
  import opened Clock
  import opened Tally
  import Counting

  /** The three derived views: total tickets, per-user counts, per-hour counts. */
  datatype Stats = Stats(total: nat, perUser: seq<Entry>, perHour: seq<Entry>)

  /** The per-hour grouping key of a booking, given the host's local-hour decomposition. */
  function ByHour(hourOf: int -> Hour): Booking -> string {
    (b: Booking) => HourLabel(hourOf, b.timestamp)
  }

  /** The grouping key of every booking, in input order. */
  function KeySeq(bs: seq<Booking>, keyOf: Booking -> string): (ks: seq<string>)
    ensures |ks| == |bs|
    ensures forall i :: 0 <= i < |bs| ==> ks[i] == keyOf(bs[i])
  {
    if bs == [] then [] else KeySeq(bs[..|bs| - 1], keyOf) + [keyOf(bs[|bs| - 1])]
  }

  /** Reference count: the seats of exactly those bookings whose key is `k`. */
  function SeatsUnder(bs: seq<Booking>, keyOf: Booking -> string, k: string): nat {
    if bs == [] then 0
    else
      var last := bs[|bs| - 1];
      SeatsUnder(bs[..|bs| - 1], keyOf, k) + (if keyOf(last) == k then SeatCount(last) else 0)
  }

  /**
   One grouping pass: for each booking in order, add its seat count to the
   entry of its key. The result has one entry per key and conserves the seats.
   */
  function Group(bs: seq<Booking>, keyOf: Booking -> string): (r: seq<Entry>)
    ensures DistinctKeys(r)
    ensures Sum(r) == TotalSeats(bs)
    ensures |r| <= |bs|
    ensures r == [] <==> bs == []
  {
    if bs == [] then []
    else
      var prev := Group(bs[..|bs| - 1], keyOf);
      var last := bs[|bs| - 1];
      BumpDistinct(prev, keyOf(last), SeatCount(last));
      assert |Keys(Bump(prev, keyOf(last), SeatCount(last)))| >= 1;
      Bump(prev, keyOf(last), SeatCount(last))
  }

  /** The statistics the dashboard displays for a list of bookings. */
  function CalculateStats(bs: seq<Booking>, hourOf: int -> Hour): (s: Stats)
    ensures s.total == Sum(s.perUser) && s.total == Sum(s.perHour)
    ensures DistinctKeys(s.perUser) && DistinctKeys(s.perHour)
    ensures s.perHour == [] <==> bs == []
  {
    Stats(TotalSeats(bs), Group(bs, EffectiveUser), Group(bs, ByHour(hourOf)))
  }

  /** Grouping one more booking is bumping that booking's key in the earlier grouping. */
  lemma GroupSnoc(bs: seq<Booking>, b: Booking, keyOf: Booking -> string)
    ensures Group(bs + [b], keyOf) == Bump(Group(bs, keyOf), keyOf(b), SeatCount(b))
    ensures TotalSeats(bs + [b]) == TotalSeats(bs) + SeatCount(b)
    ensures KeySeq(bs + [b], keyOf) == KeySeq(bs, keyOf) + [keyOf(b)]
    ensures forall k :: SeatsUnder(bs + [b], keyOf, k)
                        == SeatsUnder(bs, keyOf, k) + (if keyOf(b) == k then SeatCount(b) else 0)
  {
    assert (bs + [b])[..|bs|] == bs;
  }

  /** Each key's count is the seat total of exactly the bookings with that key. */
  lemma {:induction false} GroupCounts(bs: seq<Booking>, keyOf: Booking -> string, k: string)
    ensures Lookup(Group(bs, keyOf), k) == SeatsUnder(bs, keyOf, k)
  {
    if bs != [] {
      GroupCounts(bs[..|bs| - 1], keyOf, k);
    }
  }

  /** A key has an entry exactly when some booking carries it. */
  lemma {:induction false} GroupKeys(bs: seq<Booking>, keyOf: Booking -> string)
    ensures forall k :: k in Keys(Group(bs, keyOf)) <==> k in KeySeq(bs, keyOf)
  {
    if bs != [] {
      var prefix := bs[..|bs| - 1];
      GroupKeys(prefix, keyOf);
      assert bs == prefix + [bs[|bs| - 1]];
      GroupSnoc(prefix, bs[|bs| - 1], keyOf);
    }
  }

  /** Every entry's count is the seat total of the bookings with its key. */
  lemma GroupEntryCounts(bs: seq<Booking>, keyOf: Booking -> string)
    ensures forall i :: 0 <= i < |Group(bs, keyOf)| ==>
              Group(bs, keyOf)[i].count == SeatsUnder(bs, keyOf, Group(bs, keyOf)[i].key)
  {
    var g := Group(bs, keyOf);
    forall i | 0 <= i < |g|
      ensures g[i].count == SeatsUnder(bs, keyOf, g[i].key)
    {
      LookupDistinct(g, i);
      GroupCounts(bs, keyOf, g[i].key);
    }
  }

  /**
   Entries appear in the order in which their keys first appear in the
   input: an earlier entry's key occurs first strictly before a later one's.
   */
  lemma {:induction false} GroupFirstAppearance(bs: seq<Booking>, keyOf: Booking -> string)
    ensures FirstAppearanceOrder(Keys(Group(bs, keyOf)), KeySeq(bs, keyOf))
  {
    if bs != [] {
      var prefix, b := bs[..|bs| - 1], bs[|bs| - 1];
      assert bs == prefix + [b];
      GroupFirstAppearance(prefix, keyOf);
      GroupKeys(prefix, keyOf);
      GroupSnoc(prefix, b, keyOf);
      FirstAppearanceOrderSnoc(Keys(Group(prefix, keyOf)), KeySeq(prefix, keyOf), keyOf(b));
    }
  }

  /** Reference count for the "unknown" entry: seats of bookings whose id is empty or "unknown". */
  function UnknownSeats(bs: seq<Booking>): nat {
    if bs == [] then 0
    else
      var last := bs[|bs| - 1];
      UnknownSeats(bs[..|bs| - 1])
      + (if last.userId == "" || last.userId == UnknownUser then SeatCount(last) else 0)
  }

  /**
   The per-user view has one entry per effective user of the input (its id,
   or "unknown" for an empty id), in order of first appearance, and each
   entry counts the seats of exactly that user's bookings.
   */
  lemma PerUserView(bs: seq<Booking>, hourOf: int -> Hour)
    ensures var u := CalculateStats(bs, hourOf).perUser;
            && (forall i :: 0 <= i < |u| ==> u[i].count == SeatsUnder(bs, EffectiveUser, u[i].key))
            && (forall k :: k in Keys(u) <==> exists j :: 0 <= j < |bs| && EffectiveUser(bs[j]) == k)
            && FirstAppearanceOrder(Keys(u), KeySeq(bs, EffectiveUser))
  {
    GroupEntryCounts(bs, EffectiveUser);
    GroupKeys(bs, EffectiveUser);
    GroupFirstAppearance(bs, EffectiveUser);
    var ks := KeySeq(bs, EffectiveUser);
    assert forall k :: k in ks <==> exists j :: 0 <= j < |bs| && EffectiveUser(bs[j]) == k by {
      forall k | k in ks ensures exists j :: 0 <= j < |bs| && EffectiveUser(bs[j]) == k {
        var j :| 0 <= j < |ks| && ks[j] == k;
      }
    }
  }

  /** The seats of bookings without an id are merged with those of bookings whose id is "unknown". */
  lemma {:induction false} UnknownBucket(bs: seq<Booking>, hourOf: int -> Hour)
    ensures Lookup(CalculateStats(bs, hourOf).perUser, UnknownUser) == UnknownSeats(bs)
  {
    GroupCounts(bs, EffectiveUser, UnknownUser);
    UnknownSeatsUnder(bs);
  }

  lemma {:induction false} UnknownSeatsUnder(bs: seq<Booking>)
    ensures SeatsUnder(bs, EffectiveUser, UnknownUser) == UnknownSeats(bs)
  {
    if bs != [] {
      UnknownSeatsUnder(bs[..|bs| - 1]);
      UnknownMerges(bs[|bs| - 1]);
    }
  }

  /**
   The per-hour view has one entry per hour label of the input, in order of
   first appearance, and each entry counts the seats booked under that label.
   */
  lemma PerHourView(bs: seq<Booking>, hourOf: int -> Hour)
    ensures var h := CalculateStats(bs, hourOf).perHour;
            && (forall i :: 0 <= i < |h| ==> h[i].count == SeatsUnder(bs, ByHour(hourOf), h[i].key))
            && (forall k :: k in Keys(h) <==> k in KeySeq(bs, ByHour(hourOf)))
            && FirstAppearanceOrder(Keys(h), KeySeq(bs, ByHour(hourOf)))
  {
    GroupEntryCounts(bs, ByHour(hourOf));
    GroupKeys(bs, ByHour(hourOf));
    GroupFirstAppearance(bs, ByHour(hourOf));
  }

  /** Every booking's timestamp makes a valid date. */
  predicate AllValidTimes(bs: seq<Booking>) {
    forall j :: 0 <= j < |bs| ==> ValidTime(bs[j].timestamp)
  }

  /**
   Every per-hour label is "H:00" for an hour H in 0..23, or "NaN:00" for
   a booking whose timestamp makes an invalid date, which never happens
   when every timestamp is valid.
   */
  lemma PerHourLabels(bs: seq<Booking>, hourOf: int -> Hour)
    ensures var h := CalculateStats(bs, hourOf).perHour;
            && (forall i :: 0 <= i < |h| ==> WellFormedLabel(h[i].key))
            && (AllValidTimes(bs) ==> forall i :: 0 <= i < |h| ==> ParseHourLabel(h[i].key).Some?)
  {
    var h := Group(bs, ByHour(hourOf));
    var ks := KeySeq(bs, ByHour(hourOf));
    GroupKeys(bs, ByHour(hourOf));
    forall i | 0 <= i < |h|
      ensures WellFormedLabel(h[i].key)
      ensures AllValidTimes(bs) ==> ParseHourLabel(h[i].key).Some?
    {
      assert Keys(h)[i] == h[i].key;
      assert h[i].key in ks;
      var j :| 0 <= j < |ks| && ks[j] == h[i].key;
      ByHourShape(hourOf, bs[j]);
    }
  }

  lemma ByHourShape(hourOf: int -> Hour, b: Booking)
    ensures WellFormedLabel(ByHour(hourOf)(b))
    ensures ValidTime(b.timestamp) ==> ParseHourLabel(ByHour(hourOf)(b)).Some?
  {
    HourLabelShape(hourOf, b.timestamp);
  }

  /** There are at most 25 hour entries (24 hours and "NaN:00"), and at most 24 when every timestamp is valid. */
  lemma PerHourBound(bs: seq<Booking>, hourOf: int -> Hour)
    ensures |CalculateStats(bs, hourOf).perHour| <= 25
    ensures AllValidTimes(bs) ==> |CalculateStats(bs, hourOf).perHour| <= 24
  {
    var h := CalculateStats(bs, hourOf).perHour;
    PerHourLabels(bs, hourOf);
    forall i | 0 <= i < |h|
      ensures LabelCode(h[i].key) < 25
      ensures AllValidTimes(bs) ==> LabelCode(h[i].key) < 24
    {
      LabelCodeBound(h[i].key);
    }
    LabelledTallyBound(h, 25);
    if AllValidTimes(bs) {
      LabelledTallyBound(h, 24);
    }
  }

  /** A tally whose distinct keys are well-formed labels with codes below `n` has at most `n` entries. */
  lemma LabelledTallyBound(t: seq<Entry>, n: nat)
    requires DistinctKeys(t)
    requires forall i :: 0 <= i < |t| ==> WellFormedLabel(t[i].key) && LabelCode(t[i].key) < n
    ensures |t| <= n
  {
    var codes := seq(|t|, i requires 0 <= i < |t| => LabelCode(t[i].key));
    forall i, j | 0 <= i < j < |codes|
      ensures codes[i] != codes[j]
    {
      if codes[i] == codes[j] {
        LabelCodeInjective(t[i].key, t[j].key);
      }
    }
    Counting.DistinctBelow(codes, n);
  }

  /**
   Two bookings by "user1" (two seats) and "user2" (one seat) give three
   tickets in total, listed as user1: 2 and user2: 1; made in the same
   hour, they form a single per-hour bar of three seats.
   */
  lemma SampleReport(hourOf: int -> Hour, t1: int, t2: int)
    ensures var s := CalculateStats([Booking("user1", [1, 2], t1), Booking("user2", [3], t2)], hourOf);
            && s.total == 3
            && s.perUser == [Entry("user1", 2), Entry("user2", 1)]
            && (HourLabel(hourOf, t1) == HourLabel(hourOf, t2) ==> s.perHour == [Entry(HourLabel(hourOf, t1), 3)])
  {
    var b1, b2 := Booking("user1", [1, 2], t1), Booking("user2", [3], t2);
    GroupSnoc([b1], b2, EffectiveUser);
    GroupSnoc([b1], b2, ByHour(hourOf));
    assert [b1] + [b2] == [b1, b2];
  }
}
