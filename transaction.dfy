/** Transactions: one parsed line of a bank statement export, as a value.
    Dates are day numbers in the proleptic Gregorian ordinal numbering (day 1
    is 0001-01-01, the smallest date the calendar library accepts); amounts are
    integers in cents. */
module Transactions {

  datatype Option<T> = None | Some(value: T)

  /** The smallest representable calendar day; stepping back from it fails. */
  const MinDay: int := 1

  type Day = d: int | MinDay <= d witness MinDay

  /** The number of fields of a statement row; shorter rows are padded. */
  const RowWidth: nat := 13

  /** A transaction record. Every field, the raw row included, takes part in
      equality, exactly as the field-by-field comparison of the source does. */
  datatype Transaction = Transaction(
    account: string,              // the owning account number
    row: seq<string>,            // the padded raw fields the record was built from
    bookingDate: Day,
    valueDate: Option<Day>,
    paymentDate: Option<Day>,
    value: int,
    counterparty: string,
    counterpartyAccount: string,
    bic: string,
    kind: string,
    reference: string,
    payerReference: string,
    message: string,
    cardNumber: string,
    receipt: string)

  /** The row extended with empty fields up to RowWidth; longer rows are kept. */
  function Padded(row: seq<string>): (r: seq<string>)
    ensures |r| == if |row| < RowWidth then RowWidth else |row|
    ensures r[..|row|] == row
    ensures forall i :: |row| <= i < |r| ==> r[i] == ""
  {
    if |row| < RowWidth then row + seq(RowWidth - |row|, _ => "") else row
  }

  /** The padding loop of the transaction constructor. */
  method PadRow(row: seq<string>) returns (padded: seq<string>)
    ensures padded == Padded(row)
  {
    padded := row;
    while |padded| <= RowWidth - 1
      invariant |row| <= |padded|
      invariant |padded| <= if |row| < RowWidth then RowWidth else |row|
      invariant padded[..|row|] == row
      invariant forall i :: |row| <= i < |padded| ==> padded[i] == ""
      decreases RowWidth - |padded|
    {
      padded := padded + [""];
    }
    assert |padded| == |Padded(row)|;
    assert forall i :: 0 <= i < |padded| ==> padded[i] == Padded(row)[i] by {
      forall i | 0 <= i < |padded| ensures padded[i] == Padded(row)[i] {
        if i < |row| {
          assert padded[i] == padded[..|row|][i] && Padded(row)[i] == Padded(row)[..|row|][i];
        }
      }
    }
  }

  lemma {:induction false} PaddedIdempotent(row: seq<string>)
    ensures Padded(Padded(row)) == Padded(row)
  {
    var p := Padded(row);
    assert |p| >= RowWidth;
  }

  /** The constructor: the dates and the amount come already parsed (date and
      number parsing are library calls outside this model); all text fields are
      taken from their column of the padded row. */
  function FromRow(account: string, row: seq<string>, bookingDate: Day,
                   valueDate: Option<Day>, paymentDate: Option<Day>, value: int): (t: Transaction)
    ensures t.account == account && t.bookingDate == bookingDate && t.value == value
    ensures |t.row| == (if |row| < RowWidth then RowWidth else |row|) && t.row[..|row|] == row
    ensures forall i :: |row| <= i < |t.row| ==> t.row[i] == ""
    ensures t.counterparty == (if |row| > 4 then row[4] else "")
    ensures t.message == (if |row| > 10 then row[10] else "")
  {
    var r := Padded(row);
    Transaction(account, r, bookingDate, valueDate, paymentDate, value,
                r[4], r[5], r[6], r[7], r[8], r[9], r[10], r[11], r[12])
  }

  /** The mirrored copy: every field kept, the amount negated. */
  function Opposite(t: Transaction): (o: Transaction)
    ensures o.value == -t.value
    ensures o.(value := t.value) == t
    ensures o == t <==> t.value == 0
  {
    t.(value := -t.value)
  }

  /** The source builds the opposite by running the constructor again on the
      stored row and then negating the amount; that gives the same record as
      Opposite, because padding an already padded row changes nothing. */
  lemma {:induction false} OppositeIsReconstruction(account: string, row: seq<string>, bookingDate: Day,
                                                    valueDate: Option<Day>, paymentDate: Option<Day>, value: int)
    ensures var t := FromRow(account, row, bookingDate, valueDate, paymentDate, value);
            FromRow(t.account, t.row, bookingDate, valueDate, paymentDate, value).(value := -t.value) == Opposite(t)
  {
    PaddedIdempotent(row);
  }

  lemma {:induction false} OppositeInvolutive(t: Transaction)
    ensures Opposite(Opposite(t)) == t
  {
  }

  // ---------------------------------------------------------------------
  // Text matching

  function LowerChar(c: char): char
  {
    if 'A' <= c <= 'Z' then (c as int - 'A' as int + 'a' as int) as char else c
  }

  /** ASCII lower-casing. */
  function Lower(s: string): (r: string)
    ensures |r| == |s|
    ensures forall i :: 0 <= i < |s| ==> r[i] == LowerChar(s[i])
  {
    if s == [] then [] else [LowerChar(s[0])] + Lower(s[1..])
  }

  ghost predicate OccursAt(needle: string, hay: string, k: int)
  {
    0 <= k && k + |needle| <= |hay| && hay[k..k + |needle|] == needle
  }

  /** Substring containment: the needle occurs somewhere in the text. */
  function Contains(hay: string, needle: string): (r: bool)
    ensures r <==> exists k :: OccursAt(needle, hay, k)
    decreases |hay|
  {
    if |needle| > |hay| then false
    else if hay[..|needle|] == needle then
      assert OccursAt(needle, hay, 0);
      true
    else if hay == [] then false
    else
      var rest := Contains(hay[1..], needle);
      forall k | OccursAt(needle, hay[1..], k) ensures OccursAt(needle, hay, k + 1) {
        OccursShift(needle, hay, k);
      }
      forall k | OccursAt(needle, hay, k) ensures OccursAt(needle, hay[1..], k - 1) {
        assert hay[0..|needle|] == hay[..|needle|];
        OccursShift(needle, hay, k - 1);
      }
      rest
  }

  /** An occurrence one position further in the text is an occurrence in its
      tail. */
  lemma {:induction false} OccursShift(needle: string, hay: string, k: int)
    requires hay != [] && 0 <= k
    ensures OccursAt(needle, hay, k + 1) <==> OccursAt(needle, hay[1..], k)
  {
    if k + 1 + |needle| <= |hay| {
      assert hay[k + 1..k + 1 + |needle|] == hay[1..][k..k + |needle|];
    }
  }

  /** Containment with both texts lower-cased first. */
  function ContainsIgnoringCase(hay: string, needle: string): bool
  {
    Contains(Lower(hay), Lower(needle))
  }

  // ---------------------------------------------------------------------
  // Sums of amounts over a list of transactions

  /** Net change booked on day d. */
  function SumOn(txs: seq<Transaction>, d: int): int
  {
    if txs == [] then 0 else (if txs[0].bookingDate == d then txs[0].value else 0) + SumOn(txs[1..], d)
  }

  /** Net change booked on day d or later. */
  function SumOnOrAfter(txs: seq<Transaction>, d: int): int
  {
    if txs == [] then 0 else (if txs[0].bookingDate >= d then txs[0].value else 0) + SumOnOrAfter(txs[1..], d)
  }

  lemma {:induction false} SumOnOrAfterSplit(txs: seq<Transaction>, d: int)
    ensures SumOnOrAfter(txs, d) == SumOn(txs, d) + SumOnOrAfter(txs, d + 1)
  {
    if txs != [] {
      SumOnOrAfterSplit(txs[1..], d);
    }
  }

  lemma {:induction false} SumsAppend(txs: seq<Transaction>, t: Transaction, d: int)
    ensures SumOn(txs + [t], d) == SumOn(txs, d) + (if t.bookingDate == d then t.value else 0)
    ensures SumOnOrAfter(txs + [t], d) == SumOnOrAfter(txs, d) + (if t.bookingDate >= d then t.value else 0)
  {
    if txs != [] {
      assert (txs + [t])[1..] == txs[1..] + [t];
      SumsAppend(txs[1..], t, d);
    }
  }

  /** No transaction booked after d: everything on or after a later day is zero. */
  lemma {:induction false} SumOnOrAfterBeyond(txs: seq<Transaction>, d: int)
    requires forall t :: t in txs ==> t.bookingDate < d
    ensures SumOnOrAfter(txs, d) == 0
  {
    if txs != [] {
      assert txs[0] in txs;
      SumOnOrAfterBeyond(txs[1..], d);
    }
  }

  /** Nothing booked on d: the day contributes nothing. */
  lemma {:induction false} SumOnNone(txs: seq<Transaction>, d: int)
    requires forall t :: t in txs ==> t.bookingDate != d
    ensures SumOn(txs, d) == 0
  {
    if txs != [] {
      assert txs[0] in txs;
      SumOnNone(txs[1..], d);
    }
  }
}
