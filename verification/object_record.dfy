/**
 The per-user grouping as the source writes it, on a plain object literal.

 The accumulator `{}` inherits from `Object.prototype`, and
 `record[k] = (record[k] || 0) + n` then differs from a dictionary bump on
 three kinds of key:
 - "__proto__": reading it yields `Object.prototype`, so the sum is the string
   "[object Object]n"; the `__proto__` setter ignores a value that is not an
   object, so nothing is stored and the seats are missing from the list.
 - the names of the methods on `Object.prototype` ("constructor",
   "toString", …): reading one yields a function, so the sum is a string
   (for "constructor" and one seat, "function Object() { [native code] }1"),
   which becomes an own property in place of a count.
 - array-index-like keys ("0", "7", "42", …): they are stored normally, but
   `Object.keys` lists them first, in ascending numeric order, ahead of
   every other key.
 The rest of the model uses the intended dictionary (`Aggregator.Group`),
 which agrees with the code on every other key (`AsWrittenAgreesOnOrdinaryKeys`).
 */
module ObjectRecord {
  import opened Bookings
  import opened Clock
  import opened Tally
  import opened Aggregator

  /** A property value of the accumulator: a seat count, or a string that `+` made from a non-number (its text is not modelled). */
  datatype Value = Count(n: nat) | Text

  /** An own property of the accumulator object. */
  datatype Prop = Prop(key: string, value: Value)

  /** The key whose accessor on `Object.prototype` stores nothing but objects. */
  const ProtoKeyName: string := "__proto__"

  /** Names of the methods a plain object inherits from `Object.prototype`. */
  const InheritedMethods: set<string> := {
    "constructor", "toString", "toLocaleString", "valueOf", "hasOwnProperty",
    "isPrototypeOf", "propertyIsEnumerable", "__defineGetter__",
    "__defineSetter__", "__lookupGetter__", "__lookupSetter__"
  }

  /** Largest array index plus one: a canonical decimal below it is an array index. */
  const ArrayIndexLimit: int := 4_294_967_295

  /** Value of a string of decimal digits. */
  function DecimalValue(s: string): nat
    requires forall i :: 0 <= i < |s| ==> IsDigit(s[i])
  {
    if s == [] then 0 else DecimalValue(s[..|s| - 1]) * 10 + DigitValue(s[|s| - 1])
  }

  /** True for the canonical decimal text of an integer in [0, 2^32 - 2]: the keys a JS object orders as array indices. */
  predicate IsArrayIndex(k: string) {
    && k != []
    && (forall i :: 0 <= i < |k| ==> IsDigit(k[i]))
    && (k[0] != '0' || k == "0")
    && DecimalValue(k) < ArrayIndexLimit
  }

  /** A key a plain object treats like a dictionary key: stored as given, read back as given, listed in creation order. */
  predicate OrdinaryKey(k: string) {
    k != ProtoKeyName && k !in InheritedMethods && !IsArrayIndex(k)
  }

  /** What reading `record[k]` yields. */
  datatype Read = Absent | Own(value: Value) | InheritedMethod | Prototype

  function ReadProp(rec: seq<Prop>, k: string): Read {
    if rec == [] then
      if k == ProtoKeyName then Prototype
      else if k in InheritedMethods then InheritedMethod
      else Absent
    else if rec[0].key == k then Own(rec[0].value)
    else ReadProp(rec[1..], k)
  }

  /** `(read || 0) + n`: a number plus n, or a string once a string, function or object is involved. */
  function Accumulate(r: Read, n: nat): Value {
    match r
    case Absent => Count(n)
    case Own(Count(c)) => Count(c + n)
    case Own(Text) => Text
    case InheritedMethod => Text
    case Prototype => Text
  }

  /** `record[k] = v` for a non-object `v`: ignored for "__proto__", otherwise the own property is set in place or appended. */
  function Assign(rec: seq<Prop>, k: string, v: Value): seq<Prop> {
    if k == ProtoKeyName then rec
    else if rec == [] then [Prop(k, v)]
    else if rec[0].key == k then [Prop(k, v)] + rec[1..]
    else [rec[0]] + Assign(rec[1..], k, v)
  }

  /** `record[k] = (record[k] || 0) + n` on a plain object. */
  function BumpObjectRecord(rec: seq<Prop>, k: string, n: nat): seq<Prop> {
    Assign(rec, k, Accumulate(ReadProp(rec, k), n))
  }

  /** The grouping pass over a plain object literal, as written. */
  function GroupAsWritten(bs: seq<Booking>, keyOf: Booking -> string): seq<Prop> {
    if bs == [] then []
    else
      var last := bs[|bs| - 1];
      BumpObjectRecord(GroupAsWritten(bs[..|bs| - 1], keyOf), keyOf(last), SeatCount(last))
  }

  /** The numeric value of a key, used to order array-index keys. */
  function KeyRank(k: string): nat {
    if forall i :: 0 <= i < |k| ==> IsDigit(k[i]) then DecimalValue(k) else 0
  }

  function IndexProps(rec: seq<Prop>): seq<Prop> {
    if rec == [] then []
    else (if IsArrayIndex(rec[0].key) then [rec[0]] else []) + IndexProps(rec[1..])
  }

  function NamedProps(rec: seq<Prop>): seq<Prop> {
    if rec == [] then []
    else (if IsArrayIndex(rec[0].key) then [] else [rec[0]]) + NamedProps(rec[1..])
  }

  predicate RankSorted(ps: seq<Prop>) {
    forall i, j :: 0 <= i < j < |ps| ==> KeyRank(ps[i].key) <= KeyRank(ps[j].key)
  }

  /** Inserts `p` into a list sorted by rank, keeping it sorted. */
  function InsertByRank(p: Prop, ps: seq<Prop>): (r: seq<Prop>)
    requires RankSorted(ps)
    ensures |r| == |ps| + 1
    ensures RankSorted(r)
    ensures forall i :: 0 <= i < |r| ==> r[i] == p || r[i] in ps
  {
    if ps == [] then [p]
    else if KeyRank(p.key) <= KeyRank(ps[0].key) then [p] + ps
    else
      var rest := InsertByRank(p, ps[1..]);
      assert forall i :: 0 <= i < |rest| ==> KeyRank(ps[0].key) <= KeyRank(rest[i].key);
      [ps[0]] + rest
  }

  /** The properties in ascending rank order, each taken from the input. */
  function SortByRank(ps: seq<Prop>): (r: seq<Prop>)
    ensures |r| == |ps|
    ensures RankSorted(r)
    ensures forall i :: 0 <= i < |r| ==> r[i] in ps
  {
    if ps == [] then []
    else InsertByRank(ps[0], SortByRank(ps[1..]))
  }

  /** Insertion adds exactly one occurrence of `p`. */
  lemma {:induction false} InsertByRankPermutes(p: Prop, ps: seq<Prop>)
    requires RankSorted(ps)
    ensures multiset(InsertByRank(p, ps)) == multiset(ps) + multiset{p}
  {
    if ps != [] && KeyRank(p.key) > KeyRank(ps[0].key) {
      InsertByRankPermutes(p, ps[1..]);
      assert ps == [ps[0]] + ps[1..];
    }
  }

  /** Sorting is a permutation: every property is kept, as often as it occurs. */
  lemma {:induction false} SortByRankPermutes(ps: seq<Prop>)
    ensures multiset(SortByRank(ps)) == multiset(ps)
  {
    if ps != [] {
      SortByRankPermutes(ps[1..]);
      InsertByRankPermutes(ps[0], SortByRank(ps[1..]));
      assert ps == [ps[0]] + ps[1..];
    }
  }

  /** `Object.keys(record).map(k => record[k])`: array-index keys in ascending numeric order, then the others in creation order. */
  function ObjectEntries(rec: seq<Prop>): seq<Prop> {
    SortByRank(IndexProps(rec)) + NamedProps(rec)
  }

  /** Index and other properties together are exactly the record's properties. */
  lemma {:induction false} SplitByIndexPermutes(rec: seq<Prop>)
    ensures multiset(IndexProps(rec)) + multiset(NamedProps(rec)) == multiset(rec)
  {
    if rec != [] {
      SplitByIndexPermutes(rec[1..]);
      assert rec == [rec[0]] + rec[1..];
    }
  }

  /**
   `Object.keys` lists every own property exactly once: the listing is a
   permutation of the record, whose array-index properties come first in
   ascending numeric order.
   */
  lemma ObjectEntriesPermutes(rec: seq<Prop>)
    ensures multiset(ObjectEntries(rec)) == multiset(rec)
    ensures RankSorted(ObjectEntries(rec)[..|IndexProps(rec)|])
    ensures forall i :: 0 <= i < |IndexProps(rec)| ==> IsArrayIndex(ObjectEntries(rec)[i].key)
  {
    SplitByIndexPermutes(rec);
    var idx := IndexProps(rec);
    SortByRankPermutes(idx);
    IndexPropsAreIndices(rec);
    var sorted := SortByRank(idx);
    assert ObjectEntries(rec)[..|idx|] == sorted;
    forall i | 0 <= i < |idx|
      ensures IsArrayIndex(ObjectEntries(rec)[i].key)
    {
      assert sorted[i] in idx;
    }
  }

  lemma {:induction false} IndexPropsAreIndices(rec: seq<Prop>)
    ensures forall p | p in IndexProps(rec) :: IsArrayIndex(p.key)
  {
    if rec != [] {
      IndexPropsAreIndices(rec[1..]);
    }
  }

  /** The per-user list as the code builds it. */
  function PerUserAsWritten(bs: seq<Booking>): seq<Prop> {
    ObjectEntries(GroupAsWritten(bs, EffectiveUser))
  }

  /** A dictionary tally viewed as object properties holding counts. */
  function AsProps(t: seq<Entry>): (r: seq<Prop>)
    ensures |r| == |t|
    ensures forall i :: 0 <= i < |t| ==> r[i] == Prop(t[i].key, Count(t[i].count))
  {
    if t == [] then [] else [Prop(t[0].key, Count(t[0].count))] + AsProps(t[1..])
  }

  /** A single one-seat booking by user "__proto__": the total is 1, the per-user list as written is empty, the intended grouping keeps the seat. */
  lemma ProtoUserLost(t: int)
    ensures var bs := [Booking(ProtoKeyName, [1], t)];
            && TotalSeats(bs) == 1
            && PerUserAsWritten(bs) == []
            && Group(bs, EffectiveUser) == [Entry(ProtoKeyName, 1)]
  {
    var bs := [Booking(ProtoKeyName, [1], t)];
    assert bs[..0] == [];
    assert GroupAsWritten(bs, EffectiveUser) == [];
  }

  /** A single one-seat booking by user "constructor": the code as written lists that user with a string instead of the count 1. */
  lemma InheritedNameGarbled(t: int)
    ensures var bs := [Booking("constructor", [1], t)];
            && PerUserAsWritten(bs) == [Prop("constructor", Text)]
            && Group(bs, EffectiveUser) == [Entry("constructor", 1)]
  {
    var bs := [Booking("constructor", [1], t)];
    assert bs[..0] == [];
    assert ReadProp([], "constructor") == InheritedMethod;
    assert BumpObjectRecord([], "constructor", 1) == [Prop("constructor", Text)];
    assert EffectiveUser(bs[0]) == "constructor" && SeatCount(bs[0]) == 1;
    assert GroupAsWritten(bs[..0], EffectiveUser) == [];
    var rec := GroupAsWritten(bs, EffectiveUser);
    assert rec == BumpObjectRecord([], "constructor", 1);
    assert !IsArrayIndex("constructor") by { assert !IsDigit("constructor"[0]); }
    assert IndexProps(rec) == [] && NamedProps(rec) == rec;
  }

  /** Bookings by "42" and then "7": the code lists "7" first, although "42" appeared first. */
  lemma IndexKeysReordered(t1: int, t2: int)
    ensures var bs := [Booking("42", [1], t1), Booking("7", [1], t2)];
            && PerUserAsWritten(bs) == [Prop("7", Count(1)), Prop("42", Count(1))]
            && Keys(Group(bs, EffectiveUser)) == ["42", "7"]
  {
    var bs := [Booking("42", [1], t1), Booking("7", [1], t2)];
    IndexBookingsStored(bs);
    IndexRecordListed();
    assert bs[..1] == [bs[0]];
    assert [bs[0]][..0] == [];
    assert Group([bs[0]], EffectiveUser) == [Entry("42", 1)];
  }

  /** The record the two bookings leave: "42" then "7", one seat each, in creation order. */
  lemma IndexBookingsStored(bs: seq<Booking>)
    requires |bs| == 2 && bs[0].userId == "42" && bs[1].userId == "7"
    requires |bs[0].seats| == 1 && |bs[1].seats| == 1
    ensures GroupAsWritten(bs, EffectiveUser) == [Prop("42", Count(1)), Prop("7", Count(1))]
  {
    assert bs[..1] == [bs[0]];
    assert [bs[0]][..0] == [];
    assert EffectiveUser(bs[0]) == "42" && SeatCount(bs[0]) == 1;
    assert EffectiveUser(bs[1]) == "7" && SeatCount(bs[1]) == 1;
    assert GroupAsWritten([bs[0]][..0], EffectiveUser) == [];
    var first := GroupAsWritten([bs[0]], EffectiveUser);
    assert ReadProp([], "42") == Absent;
    assert first == BumpObjectRecord([], "42", 1);
    assert first == [Prop("42", Count(1))];
    assert ReadProp(first, "7") == ReadProp([], "7") == Absent;
    assert Assign(first, "7", Count(1)) == [first[0]] + Assign([], "7", Count(1));
  }

  /** `Object.keys` on that record lists "7" before "42". */
  lemma IndexRecordListed()
    ensures ObjectEntries([Prop("42", Count(1)), Prop("7", Count(1))]) == [Prop("7", Count(1)), Prop("42", Count(1))]
  {
    var rec := [Prop("42", Count(1)), Prop("7", Count(1))];
    assert DecimalValue("4") == 4 by { assert "4"[..0] == []; }
    assert DecimalValue("42") == 42 by { assert "42"[..1] == "4"; }
    assert DecimalValue("7") == 7 by { assert "7"[..0] == []; }
    assert IsArrayIndex("42") && IsArrayIndex("7");
    assert rec[1..] == [Prop("7", Count(1))];
    assert IndexProps(rec[1..]) == rec[1..] && NamedProps(rec[1..]) == [];
    assert IndexProps(rec) == rec && NamedProps(rec) == [];
    assert KeyRank("42") == 42 && KeyRank("7") == 7;
    assert SortByRank(rec[1..]) == rec[1..];
  }

  /** On a key that is neither "__proto__" nor an inherited method name, the object update is the dictionary bump. */
  lemma {:induction false} BumpAgrees(t: seq<Entry>, k: string, n: nat)
    requires k != ProtoKeyName && k !in InheritedMethods
    ensures BumpObjectRecord(AsProps(t), k, n) == AsProps(Bump(t, k, n))
  {
    if t != [] && t[0].key != k {
      BumpAgrees(t[1..], k, n);
      assert AsProps(t) == [Prop(t[0].key, Count(t[0].count))] + AsProps(t[1..]);
      assert Bump(t, k, n) == [t[0]] + Bump(t[1..], k, n);
    }
  }

  /** Grouping as written, on keys that are neither "__proto__" nor inherited method names, stores exactly the intended counts. */
  lemma {:induction false} RecordAgrees(bs: seq<Booking>, keyOf: Booking -> string)
    requires forall j :: 0 <= j < |bs| ==> keyOf(bs[j]) != ProtoKeyName && keyOf(bs[j]) !in InheritedMethods
    ensures GroupAsWritten(bs, keyOf) == AsProps(Group(bs, keyOf))
  {
    if bs != [] {
      var init := bs[..|bs| - 1];
      var last := bs[|bs| - 1];
      RecordAgrees(init, keyOf);
      BumpAgrees(Group(init, keyOf), keyOf(last), SeatCount(last));
    }
  }

  lemma {:induction false} NoIndexProps(rec: seq<Prop>)
    requires forall i :: 0 <= i < |rec| ==> !IsArrayIndex(rec[i].key)
    ensures IndexProps(rec) == []
    ensures NamedProps(rec) == rec
  {
    if rec != [] {
      NoIndexProps(rec[1..]);
      assert rec == [rec[0]] + rec[1..];
    }
  }

  /** A record without array-index keys is listed in creation order. */
  lemma NoIndexKeysListedInOrder(rec: seq<Prop>)
    requires forall i :: 0 <= i < |rec| ==> !IsArrayIndex(rec[i].key)
    ensures ObjectEntries(rec) == rec
  {
    NoIndexProps(rec);
  }

  /**
   When every key is ordinary, the list the code builds is the intended
   grouping: same keys in the same order, each with its seat count.
   */
  lemma AsWrittenAgreesOnOrdinaryKeys(bs: seq<Booking>, keyOf: Booking -> string)
    requires forall j :: 0 <= j < |bs| ==> OrdinaryKey(keyOf(bs[j]))
    ensures ObjectEntries(GroupAsWritten(bs, keyOf)) == AsProps(Group(bs, keyOf))
  {
    RecordAgrees(bs, keyOf);
    var t := Group(bs, keyOf);
    forall i | 0 <= i < |t|
      ensures !IsArrayIndex(AsProps(t)[i].key)
    {
      var j := GroupKeyOccurs(bs, keyOf, i);
    }
    NoIndexKeysListedInOrder(AsProps(t));
  }

  /** Every key of a grouping is the key of some booking; returns the index of one. */
  lemma GroupKeyOccurs(bs: seq<Booking>, keyOf: Booking -> string, i: int) returns (j: int)
    requires 0 <= i < |Group(bs, keyOf)|
    ensures 0 <= j < |bs| && keyOf(bs[j]) == Group(bs, keyOf)[i].key
  {
    var t := Group(bs, keyOf);
    GroupKeys(bs, keyOf);
    assert t[i].key in Keys(t);
    var ks := KeySeq(bs, keyOf);
    assert t[i].key in ks;
    j :| 0 <= j < |ks| && ks[j] == t[i].key;
  }

  /** Hour labels end with ":00", so the per-hour list as written is always the intended one. */
  lemma PerHourUnaffected(bs: seq<Booking>, hourOf: int -> Hour)
    ensures ObjectEntries(GroupAsWritten(bs, ByHour(hourOf))) == AsProps(CalculateStats(bs, hourOf).perHour)
  {
    forall j | 0 <= j < |bs|
      ensures OrdinaryKey(ByHour(hourOf)(bs[j]))
    {
      HourLabelOrdinary(hourOf, bs[j].timestamp);
    }
    AsWrittenAgreesOnOrdinaryKeys(bs, ByHour(hourOf));
  }

  /** No hour label is "__proto__", an inherited method name or an array index. */
  lemma HourLabelOrdinary(hourOf: int -> Hour, ts: int)
    ensures OrdinaryKey(HourLabel(hourOf, ts))
  {
    var s := HourLabel(hourOf, ts);
    assert s[|s| - 3] == ':';
    assert !IsDigit(s[|s| - 3]);
    assert ProtoKeyName[|ProtoKeyName| - 1] == '_';
    assert forall m | m in InheritedMethods :: m[|m| - 1] != '0';
  }
}
