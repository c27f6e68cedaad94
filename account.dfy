/** Accounts: the per-account ledger. Merging deduplicates against what is
    already stored; the daily balance series is reconstructed backwards from a
    reference balance known to hold on a reference day; virtual accounts
    mirror the matching transactions of real accounts with the sign flipped. */
module Accounts {
  import opened Transactions

  /** The net change of one booking day; the date is None only for the single
      bucket produced from an empty transaction list. */
  datatype DayChange = DayChange(date: Option<Day>, change: int)

  datatype BalanceEntry = BalanceEntry(amount: int, date: Day)

  /** Stepping the date back from the smallest representable day. */
  datatype Error = DateUnderflow

  datatype Result<T> = Ok(value: T) | Err(error: Error)

  // ---------------------------------------------------------------------
  // Merge with deduplication

  /** The transactions of batch, in batch order, that are equal to no stored
      transaction. Only the stored list is consulted, so a transaction that
      occurs twice in the batch is kept twice. */
  function Unseen(stored: seq<Transaction>, batch: seq<Transaction>): seq<Transaction>
  {
    if batch == [] then []
    else Unseen(stored, batch[..|batch| - 1]) + (if batch[|batch| - 1] in stored then [] else [batch[|batch| - 1]])
  }

  lemma {:induction false} UnseenCount(stored: seq<Transaction>, batch: seq<Transaction>, t: Transaction)
    ensures multiset(Unseen(stored, batch))[t] == if t in stored then 0 else multiset(batch)[t]
  {
    if batch != [] {
      var n := |batch| - 1;
      var last := batch[n];
      UnseenCount(stored, batch[..n], t);
      assert batch == batch[..n] + [last];
      assert multiset(batch) == multiset(batch[..n]) + multiset{last};
      var u := Unseen(stored, batch[..n]);
      if last in stored {
        assert Unseen(stored, batch) == u;
      } else {
        assert Unseen(stored, batch) == u + [last];
        assert multiset(Unseen(stored, batch)) == multiset(u) + multiset{last};
      }
    }
  }

  lemma {:induction false} UnseenMembers(stored: seq<Transaction>, batch: seq<Transaction>)
    ensures forall t :: t in Unseen(stored, batch) <==> t in batch && t !in stored
  {
    forall t ensures t in Unseen(stored, batch) <==> t in batch && t !in stored {
      UnseenCount(stored, batch, t);
    }
  }

  /** Every transaction of a batch already stored: nothing is new. */
  lemma {:induction false} UnseenOfStored(stored: seq<Transaction>, batch: seq<Transaction>)
    requires forall t :: t in batch ==> t in stored
    ensures Unseen(stored, batch) == []
  {
    if batch != [] {
      var n := |batch| - 1;
      assert batch[n] in batch;
      UnseenOfStored(stored, batch[..n]);
    }
  }

  /** Nothing stored yet: the whole batch is taken, duplicates included. */
  lemma {:induction false} UnseenOfEmpty(batch: seq<Transaction>)
    ensures Unseen([], batch) == batch
  {
    if batch != [] {
      UnseenOfEmpty(batch[..|batch| - 1]);
    }
  }

  /** Merging the same batch a second time adds nothing. */
  lemma {:induction false} MergeIdempotent(stored: seq<Transaction>, batch: seq<Transaction>)
    ensures Unseen(stored + Unseen(stored, batch), batch) == []
  {
    UnseenMembers(stored, batch);
    UnseenOfStored(stored + Unseen(stored, batch), batch);
  }

  /** The filtering comprehension of the merge. */
  method FilterUnseen(stored: seq<Transaction>, batch: seq<Transaction>) returns (added: seq<Transaction>)
    ensures added == Unseen(stored, batch)
  {
    added := [];
    for i := 0 to |batch|
      invariant added == Unseen(stored, batch[..i])
    {
      assert batch[..i + 1][..i] == batch[..i];
      if batch[i] !in stored {
        added := added + [batch[i]];
      }
    }
    assert batch[..|batch|] == batch;
  }

  // ---------------------------------------------------------------------
  // Sorting by booking date, most recent first (a stable sort)

  ghost predicate DescendingByDate(s: seq<Transaction>)
  {
    forall i, j :: 0 <= i < j < |s| ==> s[i].bookingDate >= s[j].bookingDate
  }

  /** Inserts t in front of the first element booked no later than t. */
  function InsertByDate(t: Transaction, sorted: seq<Transaction>): (r: seq<Transaction>)
    ensures multiset(r) == multiset(sorted) + multiset{t}
  {
    if sorted == [] || sorted[0].bookingDate <= t.bookingDate then [t] + sorted
    else
      assert sorted == [sorted[0]] + sorted[1..];
      [sorted[0]] + InsertByDate(t, sorted[1..])
  }

  lemma {:induction false} InsertByDateDescending(t: Transaction, sorted: seq<Transaction>)
    requires DescendingByDate(sorted)
    ensures DescendingByDate(InsertByDate(t, sorted))
  {
    if !(sorted == [] || sorted[0].bookingDate <= t.bookingDate) {
      var tail := sorted[1..];
      DescendingTail(sorted);
      InsertByDateDescending(t, tail);
      var rest := InsertByDate(t, tail);
      InsertByDateMembers(t, tail);
      forall u | u in rest ensures u.bookingDate <= sorted[0].bookingDate {
        if u != t {
          var j :| 0 <= j < |tail| && tail[j] == u;
          assert sorted[j + 1] == u;
        }
      }
      ConsDescending(sorted[0], rest);
    }
  }

  lemma {:induction false} DescendingTail(s: seq<Transaction>)
    requires DescendingByDate(s) && s != []
    ensures DescendingByDate(s[1..])
  {
    var tail := s[1..];
    forall i, j | 0 <= i < j < |tail| ensures tail[i].bookingDate >= tail[j].bookingDate {
      assert tail[i] == s[i + 1] && tail[j] == s[j + 1];
    }
  }

  lemma {:induction false} InsertByDateMembers(t: Transaction, sorted: seq<Transaction>)
    ensures forall u :: u in InsertByDate(t, sorted) <==> u == t || u in sorted
  {
    var r := InsertByDate(t, sorted);
    forall u ensures u in r <==> u == t || u in sorted {
      assert u in r <==> u in multiset(r);
      assert u in sorted <==> u in multiset(sorted);
    }
  }

  /** A transaction booked no earlier than everything in a descending list
      can go in front of it. */
  lemma {:induction false} ConsDescending(u: Transaction, s: seq<Transaction>)
    requires DescendingByDate(s)
    requires forall v :: v in s ==> v.bookingDate <= u.bookingDate
    ensures DescendingByDate([u] + s)
  {
    var r := [u] + s;
    forall i, j | 0 <= i < j < |r| ensures r[i].bookingDate >= r[j].bookingDate {
      assert r[j] == s[j - 1];
      if i > 0 {
        assert r[i] == s[i - 1];
      } else {
        assert s[j - 1] in s;
      }
    }
  }

  function SortByDateDesc(s: seq<Transaction>): (r: seq<Transaction>)
    ensures multiset(r) == multiset(s)
    ensures DescendingByDate(r)
  {
    if s == [] then []
    else
      assert s == [s[0]] + s[1..];
      var rest := SortByDateDesc(s[1..]);
      InsertByDateDescending(s[0], rest);
      InsertByDate(s[0], rest)
  }

  /** The sorted list has the same members, and its first and last elements
      are the latest and the oldest booking. */
  lemma {:induction false} SortBounds(s: seq<Transaction>)
    ensures var r := SortByDateDesc(s);
            r != [] ==> forall t :: t in s ==> r[|r| - 1].bookingDate <= t.bookingDate <= r[0].bookingDate
  {
    var r := SortByDateDesc(s);
    SortMembers(s);
    if r != [] {
      assert DescendingByDate(r);
      forall t | t in s ensures r[|r| - 1].bookingDate <= t.bookingDate <= r[0].bookingDate {
        assert t in r;
        var j :| 0 <= j < |r| && r[j] == t;
        DescendingEnds(r, j);
      }
    }
  }

  /** In a list ordered newest first, every entry lies between the last and
      the first. */
  lemma {:induction false} DescendingEnds(r: seq<Transaction>, j: int)
    requires DescendingByDate(r) && 0 <= j < |r|
    ensures r[|r| - 1].bookingDate <= r[j].bookingDate <= r[0].bookingDate
  {
    if 0 < j {
      assert r[0].bookingDate >= r[j].bookingDate;
    }
    if j < |r| - 1 {
      assert r[j].bookingDate >= r[|r| - 1].bookingDate;
    }
  }

  lemma {:induction false} SortMembers(s: seq<Transaction>)
    ensures |SortByDateDesc(s)| == |s|
    ensures forall t :: t in SortByDateDesc(s) <==> t in s
  {
    var r := SortByDateDesc(s);
    assert |r| == |multiset(r)| == |multiset(s)| == |s|;
    forall t ensures t in r <==> t in s {
      assert t in r <==> t in multiset(r);
      assert t in s <==> t in multiset(s);
    }
  }

  /** The transactions booked on day d, in list order. */
  function BookedOn(s: seq<Transaction>, d: int): seq<Transaction>
  {
    if s == [] then [] else (if s[0].bookingDate == d then [s[0]] else []) + BookedOn(s[1..], d)
  }

  lemma {:induction false} InsertByDateStable(t: Transaction, sorted: seq<Transaction>, d: int)
    ensures BookedOn(InsertByDate(t, sorted), d) == (if t.bookingDate == d then [t] else []) + BookedOn(sorted, d)
  {
    if sorted == [] || sorted[0].bookingDate <= t.bookingDate {
      assert ([t] + sorted)[1..] == sorted;
    } else {
      var rest := InsertByDate(t, sorted[1..]);
      InsertByDateStable(t, sorted[1..], d);
      assert ([sorted[0]] + rest)[1..] == rest;
      if sorted[0].bookingDate == d {
        assert t.bookingDate != d;
      }
    }
  }

  lemma {:induction false} InsertKeepsSums(t: Transaction, sorted: seq<Transaction>, d: int)
    ensures SumOnOrAfter(InsertByDate(t, sorted), d) == (if t.bookingDate >= d then t.value else 0) + SumOnOrAfter(sorted, d)
  {
    if sorted == [] || sorted[0].bookingDate <= t.bookingDate {
      assert ([t] + sorted)[1..] == sorted;
    } else {
      var rest := InsertByDate(t, sorted[1..]);
      InsertKeepsSums(t, sorted[1..], d);
      assert ([sorted[0]] + rest)[1..] == rest;
    }
  }

  /** The sort is stable: the transactions of each day keep their order. */
  lemma {:induction false} SortStable(s: seq<Transaction>, d: int)
    ensures BookedOn(SortByDateDesc(s), d) == BookedOn(s, d)
  {
    if s != [] {
      SortStable(s[1..], d);
      InsertByDateStable(s[0], SortByDateDesc(s[1..]), d);
    }
  }

  /** Sorting does not change what is booked from a day on. */
  lemma {:induction false} SortKeepsSums(s: seq<Transaction>, d: int)
    ensures SumOnOrAfter(SortByDateDesc(s), d) == SumOnOrAfter(s, d)
  {
    if s != [] {
      SortKeepsSums(s[1..], d);
      InsertKeepsSums(s[0], SortByDateDesc(s[1..]), d);
    }
  }

  // ---------------------------------------------------------------------
  // Day buckets

  ghost predicate StrictlyDescendingDays(changes: seq<DayChange>)
  {
    (forall i :: 0 <= i < |changes| ==> changes[i].date.Some?) &&
    (forall i, j :: 0 <= i < j < |changes| ==> changes[i].date.value > changes[j].date.value)
  }

  ghost function ChangeDates(changes: seq<DayChange>): set<int>
  {
    set i | 0 <= i < |changes| && changes[i].date.Some? :: changes[i].date.value
  }

  ghost function BookingDates(txs: seq<Transaction>): set<int>
  {
    set t | t in txs :: t.bookingDate as int
  }

  /** One bucket per distinct booking day, most recent first, each holding the
      net change booked that day. */
  ghost predicate IsDayBuckets(txs: seq<Transaction>, changes: seq<DayChange>)
  {
    |changes| >= 1 && StrictlyDescendingDays(changes) &&
    ChangeDates(changes) == BookingDates(txs) &&
    (forall i :: 0 <= i < |changes| && changes[i].date.Some? ==> changes[i].change == SumOn(txs, changes[i].date.value))
  }

  /** Net change of the buckets dated d or later. */
  function SumChangesFrom(changes: seq<DayChange>, d: int): int
  {
    if changes == [] then 0
    else (if changes[0].date.Some? && changes[0].date.value >= d then changes[0].change else 0) + SumChangesFrom(changes[1..], d)
  }

  function TotalChange(changes: seq<DayChange>): int
  {
    if changes == [] then 0 else changes[0].change + TotalChange(changes[1..])
  }

  lemma {:induction false} ChangesAppend(changes: seq<DayChange>, c: DayChange, d: int)
    ensures SumChangesFrom(changes + [c], d) == SumChangesFrom(changes, d) + (if c.date.Some? && c.date.value >= d then c.change else 0)
    ensures TotalChange(changes + [c]) == TotalChange(changes) + c.change
  {
    if changes != [] {
      assert (changes + [c])[1..] == changes[1..] + [c];
      ChangesAppend(changes[1..], c, d);
    }
  }

  /** On strictly descending buckets, the buckets dated d or later are exactly
      the first idx ones when d lies between bucket idx and bucket idx-1. */
  lemma {:induction false} SumChangesFromPrefix(changes: seq<DayChange>, idx: nat, d: int)
    requires StrictlyDescendingDays(changes) && idx <= |changes|
    requires idx < |changes| ==> changes[idx].date.value < d
    requires 0 < idx ==> d <= changes[idx - 1].date.value
    ensures SumChangesFrom(changes, d) == TotalChange(changes[..idx])
  {
    if changes != [] {
      assert StrictlyDescendingDays(changes[1..]) by {
        forall i | 0 <= i < |changes[1..]| ensures changes[1..][i] == changes[i + 1] { }
      }
      if idx == 0 {
        SumChangesFromPrefix(changes[1..], 0, d);
        assert changes[..0] == changes[1..][..0];
      } else {
        SumChangesFromPrefix(changes[1..], idx - 1, d);
        assert changes[..idx] == [changes[0]] + changes[1..][..idx - 1];
        assert changes[..idx][1..] == changes[1..][..idx - 1];
        assert changes[0].date.value >= changes[idx - 1].date.value;
      }
    }
  }

  lemma {:induction false} ChangeDatesAppend(changes: seq<DayChange>, c: DayChange)
    requires c.date.Some?
    ensures ChangeDates(changes + [c]) == ChangeDates(changes) + {c.date.value as int}
  {
    var s := changes + [c];
    forall x ensures x in ChangeDates(s) <==> x in ChangeDates(changes) + {c.date.value as int} {
      if x in ChangeDates(s) {
        var i :| 0 <= i < |s| && s[i].date.Some? && s[i].date.value == x;
        if i < |changes| { assert changes[i] == s[i]; }
      }
      if x in ChangeDates(changes) {
        var i :| 0 <= i < |changes| && changes[i].date.Some? && changes[i].date.value == x;
        assert s[i] == changes[i];
      }
      if x == c.date.value {
        assert s[|changes|] == c;
      }
    }
  }

  lemma {:induction false} BookingDatesAppend(txs: seq<Transaction>, t: Transaction)
    ensures BookingDates(txs + [t]) == BookingDates(txs) + {t.bookingDate as int}
  {
    assert forall u :: u in txs + [t] <==> u in txs || u == t;
  }

  /** acc holds the buckets of the transactions of prefix: strictly
      descending, one per booking day, with that day's net change. */
  ghost predicate BucketsOf(prefix: seq<Transaction>, acc: seq<DayChange>)
  {
    StrictlyDescendingDays(acc) &&
    ChangeDates(acc) == BookingDates(prefix) &&
    (forall i :: 0 <= i < |acc| ==> acc[i].change == SumOn(prefix, acc[i].date.value)) &&
    (forall d :: SumChangesFrom(acc, d) == SumOnOrAfter(prefix, d))
  }

  /** A transaction booked before every bucket opens a new bucket. */
  lemma {:induction false} NewBucketStep(prefix: seq<Transaction>, t: Transaction, acc: seq<DayChange>)
    requires BucketsOf(prefix, acc)
    requires forall i :: 0 <= i < |acc| ==> acc[i].date.value > t.bookingDate
    ensures BucketsOf(prefix + [t], acc + [DayChange(Some(t.bookingDate), t.value)])
  {
    var c := DayChange(Some(t.bookingDate), t.value);
    var acc' := acc + [c];
    ChangeDatesAppend(acc, c);
    BookingDatesAppend(prefix, t);
    forall d ensures SumChangesFrom(acc', d) == SumOnOrAfter(prefix + [t], d) {
      SumsAppend(prefix, t, d);
      ChangesAppend(acc, c, d);
    }
    forall i | 0 <= i < |acc'| ensures acc'[i].change == SumOn(prefix + [t], acc'[i].date.value) {
      SumsAppend(prefix, t, acc'[i].date.value);
      if i == |acc| {
        assert t.bookingDate as int !in ChangeDates(acc);
        forall u | u in prefix ensures u.bookingDate != t.bookingDate {
          assert u.bookingDate as int in BookingDates(prefix);
        }
        SumOnNone(prefix, t.bookingDate);
      } else {
        assert acc'[i] == acc[i];
      }
    }
  }

  /** A transaction booked on the day of the last bucket adds to it. */
  lemma {:induction false} SameBucketStep(prefix: seq<Transaction>, t: Transaction, closed: seq<DayChange>, change: int)
    requires BucketsOf(prefix, closed + [DayChange(Some(t.bookingDate), change)])
    ensures BucketsOf(prefix + [t], closed + [DayChange(Some(t.bookingDate), change + t.value)])
  {
    var c := DayChange(Some(t.bookingDate), change);
    var c' := DayChange(Some(t.bookingDate), change + t.value);
    var acc, acc' := closed + [c], closed + [c'];
    ChangeDatesAppend(closed, c);
    ChangeDatesAppend(closed, c');
    BookingDatesAppend(prefix, t);
    assert t.bookingDate as int in BookingDates(prefix) by {
      assert acc[|closed|] == c;
    }
    forall d ensures SumChangesFrom(acc', d) == SumOnOrAfter(prefix + [t], d) {
      SumsAppend(prefix, t, d);
      ChangesAppend(closed, c, d);
      ChangesAppend(closed, c', d);
    }
    assert forall i :: 0 <= i < |acc'| ==> acc'[i].date == acc[i].date;
    assert StrictlyDescendingDays(acc');
    forall i | 0 <= i < |acc'| ensures acc'[i].change == SumOn(prefix + [t], acc'[i].date.value) {
      SumsAppend(prefix, t, acc'[i].date.value);
      if i < |closed| {
        assert acc'[i] == acc[i] && acc[i].date.value > acc[|closed|].date.value;
      } else {
        assert acc[i] == c;
      }
    }
  }

  /** The state of the bucketing loop after the transactions of prefix: the
      closed buckets, then the open bucket of the current day. */
  ghost predicate OpenBucket(prefix: seq<Transaction>, changes: seq<DayChange>, current: Option<Day>, currentChange: int)
  {
    (prefix == [] ==> changes == [] && current == None && currentChange == 0) &&
    (prefix != [] ==>
       current == Some(prefix[|prefix| - 1].bookingDate) &&
       (changes + [DayChange(current, currentChange)])[0].date == Some(prefix[0].bookingDate) &&
       BucketsOf(prefix, changes + [DayChange(current, currentChange)]))
  }

  /** The bucketing loop of the balance computation, run on the list sorted
      most recent first. */
  method BucketByDay(txs: seq<Transaction>) returns (changes: seq<DayChange>)
    requires DescendingByDate(txs)
    ensures txs == [] ==> changes == [DayChange(None, 0)]
    ensures txs != [] ==> IsDayBuckets(txs, changes)
    ensures txs != [] ==> changes[0].date == Some(txs[0].bookingDate)
    ensures txs != [] ==> changes[|changes| - 1].date == Some(txs[|txs| - 1].bookingDate)
    ensures forall d :: SumChangesFrom(changes, d) == SumOnOrAfter(txs, d)
  {
    changes := [];
    var current: Option<Day> := None;
    var currentChange := 0;
    for k := 0 to |txs|
      invariant OpenBucket(txs[..k], changes, current, currentChange)
    {
      assert txs[..k + 1] == txs[..k] + [txs[k]];
      if k > 0 {
        assert txs[..k][k - 1] == txs[k - 1];
      }
      changes, current, currentChange := AddToBucket(txs[..k], txs[k], changes, current, currentChange);
    }
    assert txs[..|txs|] == txs;
    changes := changes + [DayChange(current, currentChange)];
    if txs != [] {
      BucketsAreDayBuckets(txs, changes);
    }
  }

  /** One step of the bucketing loop: a transaction of a new day closes the
      open bucket (when there is one) and opens a new one; a transaction of the
      current day adds to the open bucket. */
  method AddToBucket(prefix: seq<Transaction>, t: Transaction, changes: seq<DayChange>, current: Option<Day>, currentChange: int)
    returns (changes': seq<DayChange>, current': Option<Day>, currentChange': int)
    requires OpenBucket(prefix, changes, current, currentChange)
    requires prefix != [] ==> prefix[|prefix| - 1].bookingDate >= t.bookingDate
    ensures OpenBucket(prefix + [t], changes', current', currentChange')
  {
    changes', current', currentChange' := changes, current, currentChange;
    if current' != Some(t.bookingDate) {
      if current'.Some? {
        changes' := changes' + [DayChange(current', currentChange')];
        AllAfter(changes', t.bookingDate);
      }
      NewBucketStep(prefix, t, changes');
      current' := Some(t.bookingDate);
      currentChange' := 0;
    } else {
      SameBucketStep(prefix, t, changes', currentChange');
    }
    currentChange' := currentChange' + t.value;
    if prefix != [] {
      assert (changes' + [DayChange(current', currentChange')])[0].date == (changes + [DayChange(current, currentChange)])[0].date;
    }
  }

  /** Strictly descending buckets whose last one is dated after d are all
      dated after d. */
  lemma {:induction false} AllAfter(acc: seq<DayChange>, d: int)
    requires StrictlyDescendingDays(acc) && acc != [] && acc[|acc| - 1].date.value > d
    ensures forall i :: 0 <= i < |acc| ==> acc[i].date.value > d
  {
    forall i | 0 <= i < |acc| ensures acc[i].date.value > d {
      if i < |acc| - 1 {
        assert acc[i].date.value > acc[|acc| - 1].date.value;
      }
    }
  }

  lemma {:induction false} BucketsAreDayBuckets(txs: seq<Transaction>, acc: seq<DayChange>)
    requires BucketsOf(txs, acc) && acc != []
    ensures IsDayBuckets(txs, acc)
  {
  }

  // ---------------------------------------------------------------------
  // Backward walk

  /** The shape BucketByDay produces: the single undated bucket of an empty
      list, or dated buckets strictly descending. */
  ghost predicate BucketShape(changes: seq<DayChange>)
  {
    |changes| >= 1 && ((|changes| == 1 && changes[0].date.None?) || StrictlyDescendingDays(changes))
  }

  /** The walk from the reference day back to the oldest bucket: each day gets
      the balance that held before the changes of that day and of every later
      day up to the reference day were applied. If the first bucket is never
      reached (it is undated, or dated after the reference day), the date is
      stepped past the smallest representable day and the walk fails. */
  method WalkBack(initBalance: int, initDate: Day, changes: seq<DayChange>) returns (r: Result<seq<BalanceEntry>>)
    requires BucketShape(changes)
    ensures r.Ok? <==> changes[0].date.Some? && changes[0].date.value <= initDate
    ensures r.Ok? ==> |r.value| >= 1 && |r.value| == initDate - changes[|changes| - 1].date.value + 1
    ensures r.Ok? ==> forall i :: 0 <= i < |r.value| ==>
              r.value[i].date == initDate - i && r.value[i].amount == initBalance - SumChangesFrom(changes, initDate - i)
  {
    ghost var good := changes[0].date.Some? && changes[0].date.value <= initDate;
    var balance := initBalance;
    var date: Day := initDate;
    var series: seq<BalanceEntry> := [];
    for idx := 0 to |changes|
      invariant date <= initDate && date == initDate - |series|
      invariant idx == 0 ==> series == [] && date == initDate && balance == initBalance
      invariant 0 < idx ==> good && StrictlyDescendingDays(changes) && changes[idx - 1].date == Some(date)
      invariant balance == initBalance - TotalChange(changes[..idx])
      invariant good ==> forall i :: 0 <= i < |series| ==>
                  series[i].date == initDate - i && series[i].amount == initBalance - SumChangesFrom(changes, initDate - i)
    {
      var target := changes[idx].date;
      while target != Some(date)
        invariant date <= initDate && date == initDate - |series|
        invariant idx == 0 ==> balance == initBalance
        invariant 0 < idx ==> good && StrictlyDescendingDays(changes) && date <= changes[idx - 1].date.value
        invariant good ==> target.Some? && target.value <= date
        invariant good ==> forall i :: 0 <= i < |series| ==>
                    series[i].date == initDate - i && series[i].amount == initBalance - SumChangesFrom(changes, initDate - i)
        decreases date
      {
        if good {
          SumChangesFromPrefix(changes, idx, date);
        }
        series := series + [BalanceEntry(balance, date)];
        if date == MinDay {
          return Err(DateUnderflow);
        }
        date := date - 1;
      }
      assert changes[..idx + 1] == changes[..idx] + [changes[idx]];
      ChangesAppend(changes[..idx], changes[idx], date);
      balance := balance - changes[idx].change;
    }
    assert changes[..|changes|] == changes;
    SumChangesFromPrefix(changes, |changes|, date);
    series := series + [BalanceEntry(balance, date)];
    r := Ok(series);
  }

  // ---------------------------------------------------------------------
  // The balance series as a property of the transactions

  ghost predicate OldestBooking(txs: seq<Transaction>, d: int)
  {
    (exists t :: t in txs && t.bookingDate == d) && forall t :: t in txs ==> t.bookingDate >= d
  }

  /** One entry per day from the reference day down to the oldest booking day,
      each holding the reference balance minus everything booked on or after
      that day. */
  ghost predicate IsBalanceSeries(initBalance: int, initDate: int, txs: seq<Transaction>, series: seq<BalanceEntry>)
  {
    |series| >= 1 &&
    (forall i :: 0 <= i < |series| ==>
       series[i].date == initDate - i && series[i].amount == initBalance - SumOnOrAfter(txs, series[i].date)) &&
    OldestBooking(txs, initDate - |series| + 1)
  }

  /** Consecutive entries differ by exactly the net change of the older day;
      a day without bookings keeps the balance of the day after it. */
  lemma {:induction false} SeriesStep(initBalance: int, initDate: int, txs: seq<Transaction>, series: seq<BalanceEntry>, i: nat)
    requires IsBalanceSeries(initBalance, initDate, txs, series) && i + 1 < |series|
    ensures series[i + 1].amount == series[i].amount - SumOn(txs, series[i + 1].date)
    ensures (forall t :: t in txs ==> t.bookingDate != series[i + 1].date) ==> series[i + 1].amount == series[i].amount
  {
    SumOnOrAfterSplit(txs, series[i + 1].date);
    if forall t :: t in txs ==> t.bookingDate != series[i + 1].date {
      SumOnNone(txs, series[i + 1].date);
    }
  }

  /** The first entry is the reference balance less the reference day's own
      change, so with bookings on the reference day the reference balance
      itself is not what is emitted; the oldest entry has every change undone. */
  lemma {:induction false} SeriesEnds(initBalance: int, initDate: int, txs: seq<Transaction>, series: seq<BalanceEntry>)
    requires IsBalanceSeries(initBalance, initDate, txs, series)
    requires forall t :: t in txs ==> t.bookingDate <= initDate
    ensures series[0].amount == initBalance - SumOn(txs, initDate)
    ensures series[|series| - 1].amount == initBalance - SumOnOrAfter(txs, MinDay)
  {
    SumOnOrAfterSplit(txs, initDate);
    SumOnOrAfterBeyond(txs, initDate + 1);
    var last := series[|series| - 1].date;
    forall d | MinDay <= d <= last ensures SumOnOrAfter(txs, d) == SumOnOrAfter(txs, last) {
      SumOnOrAfterBelow(txs, d, last);
    }
  }

  lemma {:induction false} SumOnOrAfterBelow(txs: seq<Transaction>, d: int, oldest: int)
    requires d <= oldest && forall t :: t in txs ==> t.bookingDate >= oldest
    ensures SumOnOrAfter(txs, d) == SumOnOrAfter(txs, oldest)
  {
    if txs != [] {
      assert txs[0] in txs;
      SumOnOrAfterBelow(txs[1..], d, oldest);
    }
  }

  /** The series is determined by the reference balance, the reference day and
      the transactions. */
  lemma {:induction false} SeriesUnique(initBalance: int, initDate: int, txs: seq<Transaction>, s1: seq<BalanceEntry>, s2: seq<BalanceEntry>)
    requires IsBalanceSeries(initBalance, initDate, txs, s1)
    requires IsBalanceSeries(initBalance, initDate, txs, s2)
    ensures s1 == s2
  {
    var d1, d2 := initDate - |s1| + 1, initDate - |s2| + 1;
    var t1 :| t1 in txs && t1.bookingDate == d1;
    var t2 :| t2 in txs && t2.bookingDate == d2;
    assert d1 == d2;
    assert forall i :: 0 <= i < |s1| ==> s1[i] == s2[i];
  }

  /** Reference balance 100 on day 10 and one booking of -20 on day 8 give the
      entries (day 10, 100), (day 9, 100), (day 8, 120). */
  lemma {:induction false} WorkedExample(t: Transaction, series: seq<BalanceEntry>)
    requires t.bookingDate == 8 && t.value == -20
    requires IsBalanceSeries(100, 10, [t], series)
    ensures series == [BalanceEntry(100, 10), BalanceEntry(100, 9), BalanceEntry(120, 8)]
  {
    var u :| u in [t] && u.bookingDate == 10 - |series| + 1;
    assert |series| == 3;
    assert [t][1..] == [] && SumOnOrAfter([], 9) == 0 && SumOnOrAfter([], 8) == 0;
    assert SumOnOrAfter([t], 10) == 0;
    assert SumOnOrAfter([t], 9) == 0;
    assert SumOnOrAfter([t], 8) == -20;
  }

  /** What the walk produces from the buckets of the sorted list is the
      balance series of the unsorted transactions. */
  lemma {:induction false} WalkIsSeries(initBalance: int, initDate: Day, was: seq<Transaction>, sorted: seq<Transaction>,
                     changes: seq<DayChange>, series: seq<BalanceEntry>)
    requires sorted == SortByDateDesc(was) && sorted != [] && changes != []
    requires changes[|changes| - 1].date == Some(sorted[|sorted| - 1].bookingDate)
    requires forall d :: SumChangesFrom(changes, d) == SumOnOrAfter(sorted, d)
    requires |series| >= 1 && |series| == initDate - changes[|changes| - 1].date.value + 1
    requires forall i :: 0 <= i < |series| ==>
               series[i].date == initDate - i && series[i].amount == initBalance - SumChangesFrom(changes, initDate - i)
    ensures IsBalanceSeries(initBalance, initDate, was, series)
  {
    OldestOfSorted(was);
    SortKeepsAllSums(was);
    SortedAmounts(initBalance, initDate, was, sorted, changes, series);
  }

  /** The last element of the sorted list is an oldest booking. */
  lemma {:induction false} OldestOfSorted(was: seq<Transaction>)
    requires was != []
    ensures |SortByDateDesc(was)| > 0
    ensures OldestBooking(was, SortByDateDesc(was)[|SortByDateDesc(was)| - 1].bookingDate)
  {
    SortMembers(was);
    SortBounds(was);
    var sorted := SortByDateDesc(was);
    assert sorted[|sorted| - 1] in sorted;
  }

  /** The amounts computed from the buckets of the sorted list are those of
      the unsorted list. */
  lemma {:induction false} SortedAmounts(initBalance: int, initDate: int, was: seq<Transaction>, sorted: seq<Transaction>,
                                         changes: seq<DayChange>, series: seq<BalanceEntry>)
    requires forall d :: SumOnOrAfter(sorted, d) == SumOnOrAfter(was, d)
    requires forall d :: SumChangesFrom(changes, d) == SumOnOrAfter(sorted, d)
    requires forall i :: 0 <= i < |series| ==>
               series[i].date == initDate - i && series[i].amount == initBalance - SumChangesFrom(changes, initDate - i)
    ensures forall i :: 0 <= i < |series| ==> series[i].amount == initBalance - SumOnOrAfter(was, series[i].date)
  {
  }

  lemma {:induction false} SortKeepsAllSums(s: seq<Transaction>)
    ensures forall d :: SumOnOrAfter(SortByDateDesc(s), d) == SumOnOrAfter(s, d)
  {
    forall d ensures SumOnOrAfter(SortByDateDesc(s), d) == SumOnOrAfter(s, d) {
      SortKeepsSums(s, d);
    }
  }

  /** The walk succeeds exactly when there are transactions and none is
      booked after the reference day. */
  lemma {:induction false} WalkCondition(was: seq<Transaction>, sorted: seq<Transaction>, changes: seq<DayChange>, initDate: int)
    requires sorted == SortByDateDesc(was) && changes != []
    requires sorted == [] ==> changes == [DayChange(None, 0)]
    requires sorted != [] ==> changes[0].date == Some(sorted[0].bookingDate)
    ensures (changes[0].date.Some? && changes[0].date.value <= initDate) <==>
            |sorted| > 0 && forall t :: t in sorted ==> t.bookingDate <= initDate
  {
    SortMembers(was);
    SortBounds(was);
    if sorted != [] {
      assert sorted[0] in sorted;
    }
  }

  /** The balance computation succeeds on these transactions: there is at
      least one, and none is booked after the reference day. */
  ghost predicate CanBalance(txs: seq<Transaction>, referenceDay: int)
  {
    |txs| > 0 && forall t :: t in txs ==> t.bookingDate <= referenceDay
  }

  /** The three steps of the balance computation: sort, bucket, walk back. */
  method ReconstructBalances(initBalance: int, initDate: Day, txs: seq<Transaction>)
    returns (sorted: seq<Transaction>, changes: seq<DayChange>, r: Result<seq<BalanceEntry>>)
    ensures sorted == SortByDateDesc(txs) && |sorted| == |txs|
    ensures txs == [] ==> changes == [DayChange(None, 0)]
    ensures txs != [] ==> IsDayBuckets(sorted, changes)
    ensures r.Ok? <==> CanBalance(txs, initDate)
    ensures r.Ok? ==> IsBalanceSeries(initBalance, initDate, txs, r.value)
  {
    SortMembers(txs);
    SortBounds(txs);
    sorted := SortByDateDesc(txs);
    changes := BucketByDay(sorted);
    assert BucketShape(changes) by {
      if sorted != [] { assert IsDayBuckets(sorted, changes); }
    }
    r := WalkBack(initBalance, initDate, changes);
    WalkCondition(txs, sorted, changes, initDate);
    if r.Ok? {
      WalkIsSeries(initBalance, initDate, txs, sorted, changes, r.value);
    }
  }

  // ---------------------------------------------------------------------
  // Mirroring into virtual accounts

  /** A filter that is set matches when it occurs, ignoring case, in the text. */
  ghost predicate FilterMatches(filter: Option<string>, text: string)
  {
    filter.Some? && exists k :: OccursAt(Lower(filter.value), Lower(text), k)
  }

  /** Whether a virtual account with these filters takes the transaction: the
      counterparty filter is tried against the counterparty, the message
      filter against the message. */
  function Includes(counterpartyFilter: Option<string>, messageFilter: Option<string>, t: Transaction): (r: bool)
    ensures r <==> FilterMatches(counterpartyFilter, t.counterparty) || FilterMatches(messageFilter, t.message)
    ensures counterpartyFilter == Some("") || messageFilter == Some("") ==> r
  {
    if counterpartyFilter.Some? && ContainsIgnoringCase(t.counterparty, counterpartyFilter.value) then
      true
    else if messageFilter.Some? && ContainsIgnoringCase(t.message, messageFilter.value) then
      true
    else
      assert !FilterMatches(counterpartyFilter, t.counterparty);
      assert !FilterMatches(messageFilter, t.message);
      assert counterpartyFilter == Some("") ==> OccursAt(Lower(""), Lower(t.counterparty), 0);
      assert messageFilter == Some("") ==> OccursAt(Lower(""), Lower(t.message), 0);
      false
  }

  /** One offered transaction: its opposite is appended when the filters take
      it and no equal transaction is stored yet. */
  function MirrorOne(stored: seq<Transaction>, counterpartyFilter: Option<string>, messageFilter: Option<string>,
                     t: Transaction): seq<Transaction>
  {
    if Includes(counterpartyFilter, messageFilter, t) && Opposite(t) !in stored then stored + [Opposite(t)] else stored
  }

  /** A batch offered transaction by transaction. */
  function MirrorAll(stored: seq<Transaction>, counterpartyFilter: Option<string>, messageFilter: Option<string>,
                     batch: seq<Transaction>): seq<Transaction>
  {
    if batch == [] then stored
    else MirrorOne(MirrorAll(stored, counterpartyFilter, messageFilter, batch[..|batch| - 1]),
                   counterpartyFilter, messageFilter, batch[|batch| - 1])
  }

  /** Mirroring only appends: the stored list is a prefix of the result. */
  lemma {:induction false} MirrorExtends(stored: seq<Transaction>, cf: Option<string>, mf: Option<string>, batch: seq<Transaction>)
    ensures var r := MirrorAll(stored, cf, mf, batch);
            |stored| <= |r| && r[..|stored|] == stored
  {
    if batch != [] {
      var n := |batch| - 1;
      MirrorExtends(stored, cf, mf, batch[..n]);
      var prev := MirrorAll(stored, cf, mf, batch[..n]);
      var r := MirrorAll(stored, cf, mf, batch);
      assert r == MirrorOne(prev, cf, mf, batch[n]);
      assert |stored| <= |prev| <= |r| && prev[..|stored|] == stored;
      assert r[..|stored|] == prev[..|stored|];
    }
  }

  /** Mirroring only appends: the stored list is a prefix of the result, and
      every appended transaction is the opposite of an offered transaction
      that the filters take. */
  lemma {:induction false} MirrorSound(stored: seq<Transaction>, cf: Option<string>, mf: Option<string>, batch: seq<Transaction>)
    ensures var r := MirrorAll(stored, cf, mf, batch);
            |stored| <= |r| && r[..|stored|] == stored &&
            forall j :: |stored| <= j < |r| ==> exists t :: t in batch && Includes(cf, mf, t) && r[j] == Opposite(t)
  {
    MirrorExtends(stored, cf, mf, batch);
    if batch != [] {
      var n := |batch| - 1;
      MirrorSound(stored, cf, mf, batch[..n]);
      var prev := MirrorAll(stored, cf, mf, batch[..n]);
      var r := MirrorAll(stored, cf, mf, batch);
      assert r == MirrorOne(prev, cf, mf, batch[n]);
      assert batch[n] in batch;
      forall j | |stored| <= j < |r| ensures exists t :: t in batch && Includes(cf, mf, t) && r[j] == Opposite(t) {
        if j < |prev| {
          assert r[j] == prev[j];
          var t :| t in batch[..n] && Includes(cf, mf, t) && prev[j] == Opposite(t);
          assert t in batch;
        } else {
          assert r[j] == Opposite(batch[n]);
        }
      }
    }
  }

  /** Every offered transaction the filters take has its opposite in the result. */
  lemma {:induction false} MirrorComplete(stored: seq<Transaction>, cf: Option<string>, mf: Option<string>, batch: seq<Transaction>)
    ensures forall t :: t in batch && Includes(cf, mf, t) ==> Opposite(t) in MirrorAll(stored, cf, mf, batch)
    ensures forall u :: u in stored ==> u in MirrorAll(stored, cf, mf, batch)
  {
    if batch != [] {
      var n := |batch| - 1;
      MirrorComplete(stored, cf, mf, batch[..n]);
      assert batch == batch[..n] + [batch[n]];
    }
  }

  /** Offering to an account that already holds the opposite of every taken
      transaction of the batch changes nothing. */
  lemma {:induction false} MirrorNoop(stored: seq<Transaction>, cf: Option<string>, mf: Option<string>, batch: seq<Transaction>)
    requires forall t :: t in batch && Includes(cf, mf, t) ==> Opposite(t) in stored
    ensures MirrorAll(stored, cf, mf, batch) == stored
  {
    if batch != [] {
      var n := |batch| - 1;
      assert batch[n] in batch;
      MirrorNoop(stored, cf, mf, batch[..n]);
    }
  }

  /** Offering the same batch twice mirrors it once. */
  lemma {:induction false} MirrorIdempotent(stored: seq<Transaction>, cf: Option<string>, mf: Option<string>, batch: seq<Transaction>)
    ensures MirrorAll(MirrorAll(stored, cf, mf, batch), cf, mf, batch) == MirrorAll(stored, cf, mf, batch)
  {
    MirrorComplete(stored, cf, mf, batch);
    MirrorNoop(MirrorAll(stored, cf, mf, batch), cf, mf, batch);
  }

  // ---------------------------------------------------------------------
  // The account object

  class Account {
    const accountNumber: string
    const name: string
    var transactions: seq<Transaction>
    var initBalance: int
    var initBalanceDate: Day
    /** The filters of a virtual account; None on real accounts. */
    var counterpartyIncludes: Option<string>
    var messageIncludes: Option<string>
    /** Set by CalculateBalances. */
    var dayChanges: seq<DayChange>
    var balances: seq<BalanceEntry>

    /** The reference day is a parameter: the source's default for it is the
        wall-clock date at start-up. */
    constructor (accountNumber: string, name: string, transactions: seq<Transaction>, balance: int, balanceDate: Day)
      ensures this.accountNumber == accountNumber && this.name == name
      ensures this.transactions == transactions
      ensures initBalance == balance && initBalanceDate == balanceDate
      ensures counterpartyIncludes == None && messageIncludes == None
      ensures dayChanges == [] && balances == []
    {
      this.accountNumber := accountNumber;
      this.name := name;
      this.transactions := [];
      initBalance := balance;
      initBalanceDate := balanceDate;
      counterpartyIncludes := None;
      messageIncludes := None;
      dayChanges := [];
      balances := [];
      new;
      AddTransactions(transactions);
      UnseenOfEmpty(transactions);
    }

    /** Appends the transactions of the batch that equal no stored one. */
    method AddTransactions(batch: seq<Transaction>)
      modifies this`transactions
      ensures transactions == old(transactions) + Unseen(old(transactions), batch)
    {
      var added := FilterUnseen(transactions, batch);
      transactions := transactions + added;
    }

    /** Sorts the transactions, most recent first, buckets them by day and
        walks back from the reference balance. Fails, leaving no balances, when
        there are no transactions or one is booked after the reference day. */
    method CalculateBalances() returns (ok: bool)
      modifies this`transactions, this`dayChanges, this`balances
      ensures transactions == SortByDateDesc(old(transactions))
      ensures ok <==> CanBalance(old(transactions), initBalanceDate)
      ensures |transactions| > 0 ==> IsDayBuckets(transactions, dayChanges)
      ensures transactions == [] ==> dayChanges == [DayChange(None, 0)]
      ensures ok ==> IsBalanceSeries(initBalance, initBalanceDate, old(transactions), balances)
      ensures !ok ==> balances == []
    {
      var sorted, changes, r := ReconstructBalances(initBalance, initBalanceDate, transactions);
      transactions := sorted;
      dayChanges := changes;
      if r.Ok? {
        ok := true;
        balances := r.value;
      } else {
        ok := false;
        balances := [];
      }
    }

    function IncludesTransaction(t: Transaction): (r: bool)
      reads this
      ensures r <==> FilterMatches(counterpartyIncludes, t.counterparty) || FilterMatches(messageIncludes, t.message)
    {
      Includes(counterpartyIncludes, messageIncludes, t)
    }

    method AddTransactionIfIncluded(t: Transaction)
      modifies this`transactions
      ensures transactions == MirrorOne(old(transactions), counterpartyIncludes, messageIncludes, t)
      ensures IncludesTransaction(t) && Opposite(t) !in old(transactions) ==> transactions == old(transactions) + [Opposite(t)]
      ensures !IncludesTransaction(t) || Opposite(t) in old(transactions) ==> transactions == old(transactions)
    {
      if IncludesTransaction(t) {
        var opposite := Opposite(t);
        if opposite !in transactions {
          transactions := transactions + [opposite];
        }
      }
    }
  }
}
