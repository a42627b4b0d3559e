/** The `ledger` report of billing.reports.ts: collect the events, sort them, run the balance. */
module BillingReports {
  import opened Outcomes
  import opened Sums
  import opened BillingBooks
  import opened BillingStatement

  function Rank(s: Source): (int, int) {
    match s
    case OfInvoice(k) => (0, k)
    case OfLateFee(k) => (1, k)
    case OfPayment(k) => (2, k)
    case OfAdjustment(k) => (3, k)
  }

  /** Entries are ordered by date, then by recording time, then by id. */
  predicate NotAfter(x: Entry, y: Entry) {
    x.date < y.date
    || (x.date == y.date && (x.recordedAt < y.recordedAt
    || (x.recordedAt == y.recordedAt && (Rank(x.source).0 < Rank(y.source).0
    || (Rank(x.source).0 == Rank(y.source).0 && Rank(x.source).1 <= Rank(y.source).1)))))
  }

  ghost predicate Sorted(s: seq<Entry>) {
    forall i, j :: 0 <= i < j < |s| ==> NotAfter(s[i], s[j])
  }

  function Insert(s: seq<Entry>, e: Entry): seq<Entry> {
    if s == [] || NotAfter(s[|s| - 1], e) then s + [e]
    else Insert(s[..|s| - 1], e) + [s[|s| - 1]]
  }

  function Sort(s: seq<Entry>): seq<Entry> {
    if s == [] then [] else Insert(Sort(s[..|s| - 1]), s[|s| - 1])
  }

  lemma NotAfterTransitive(x: Entry, y: Entry, z: Entry)
    requires NotAfter(x, y) && NotAfter(y, z)
    ensures NotAfter(x, z)
  {
  }

  lemma {:induction false} InsertSorts(s: seq<Entry>, e: Entry)
    requires Sorted(s)
    ensures Sorted(Insert(s, e))
    ensures multiset(Insert(s, e)) == multiset(s) + multiset{e}
  {
    if s == [] {
    } else if NotAfter(s[|s| - 1], e) {
      forall i | 0 <= i < |s|
        ensures NotAfter(s[i], e)
      {
        if i < |s| - 1 {
          NotAfterTransitive(s[i], s[|s| - 1], e);
        }
      }
    } else {
      var front, last := s[..|s| - 1], s[|s| - 1];
      assert s == front + [last];
      InsertSorts(front, e);
      var r := Insert(front, e);
      forall i | 0 <= i < |r|
        ensures NotAfter(r[i], last)
      {
        assert r[i] in multiset(front) + multiset{e};
      }
    }
  }

  lemma {:induction false} SortSorts(s: seq<Entry>)
    ensures Sorted(Sort(s)) && InTime(Sort(s)) && multiset(Sort(s)) == multiset(s)
  {
    if s != [] {
      assert s == s[..|s| - 1] + [s[|s| - 1]];
      SortSorts(s[..|s| - 1]);
      InsertSorts(Sort(s[..|s| - 1]), s[|s| - 1]);
    }
  }

  lemma {:induction false} InsertTotal(s: seq<Entry>, e: Entry, f: Entry -> int)
    ensures Sum(Insert(s, e), f) == Sum(s, f) + f(e)
  {
    if s == [] || NotAfter(s[|s| - 1], e) {
      SumAppend(s, e, f);
    } else {
      InsertTotal(s[..|s| - 1], e, f);
      SumAppend(Insert(s[..|s| - 1], e), s[|s| - 1], f);
    }
  }

  /** Sorting the statement changes no total. */
  lemma {:induction false} SortTotal(s: seq<Entry>, f: Entry -> int)
    ensures Sum(Sort(s), f) == Sum(s, f)
  {
    if s != [] {
      SortTotal(s[..|s| - 1], f);
      InsertTotal(Sort(s[..|s| - 1]), s[|s| - 1], f);
    }
  }

  predicate NotLater(e: Entry, to: Option<int>) { to.Some? ==> e.date <= to.value }

  predicate Earlier(e: Entry, from: Option<int>) { from.Some? && e.date < from.value }

  /** The customer's balance from the events dated no later than `to`, counting only those before `from` if told to. */
  ghost function Through(to: Option<int>): Entry -> int {
    (e: Entry) => if to.None? || e.date <= to.value then e.amount else 0
  }

  ghost function Before(from: Option<int>, to: Option<int>): Entry -> int {
    (e: Entry) => if (to.None? || e.date <= to.value) && from.Some? && e.date < from.value then e.amount else 0
  }

  /** Dated inside the window, which may be open on either side. */
  ghost predicate Inside(e: Entry, from: Option<int>, to: Option<int>) {
    (from.Some? ==> from.value <= e.date) && (to.Some? ==> e.date <= to.value)
  }

  /** The entries inside the window, in order. */
  function Window(s: seq<Entry>, from: Option<int>, to: Option<int>): seq<Entry> {
    if s == [] then [] else
      var e := s[|s| - 1];
      Window(s[..|s| - 1], from, to) + (if NotLater(e, to) && !Earlier(e, from) then [e] else [])
  }

  lemma {:induction false} WindowMembers(s: seq<Entry>, from: Option<int>, to: Option<int>)
    ensures forall e :: e in Window(s, from, to) <==> e in s && Inside(e, from, to)
  {
    if s != [] {
      WindowMembers(s[..|s| - 1], from, to);
      assert s == s[..|s| - 1] + [s[|s| - 1]];
    }
  }

  function EntriesIn(rows: seq<Row>): seq<Entry> {
    seq(|rows|, k requires 0 <= k < |rows| => rows[k].entry)
  }

  /** Each row's balance is the opening balance plus the rows so far. */
  ghost predicate Running(opening: int, rows: seq<Row>) {
    forall k :: 0 <= k < |rows| ==> rows[k].balance == opening + Sum(EntriesIn(rows)[..k + 1], ENTRY_AMOUNT)
  }

  lemma RunningAppend(opening: int, rows: seq<Row>, e: Entry)
    requires Running(opening, rows)
    ensures var next := rows + [Row(e, opening + Sum(EntriesIn(rows), ENTRY_AMOUNT) + e.amount)];
            Running(opening, next) && EntriesIn(next) == EntriesIn(rows) + [e]
  {
    var next := rows + [Row(e, opening + Sum(EntriesIn(rows), ENTRY_AMOUNT) + e.amount)];
    assert EntriesIn(next) == EntriesIn(rows) + [e];
    forall k | 0 <= k < |next|
      ensures next[k].balance == opening + Sum(EntriesIn(next)[..k + 1], ENTRY_AMOUNT)
    {
      if k < |rows| {
        assert EntriesIn(next)[..k + 1] == EntriesIn(rows)[..k + 1];
      } else {
        assert EntriesIn(next)[..k + 1] == EntriesIn(rows) + [e];
        SumAppend(EntriesIn(rows), e, ENTRY_AMOUNT);
      }
    }
  }

  lemma NoRows(opening: int, rows: seq<Row>)
    requires rows == [] || EntriesIn(rows) == []
    ensures rows == [] && Running(opening, rows)
  {
    assert |EntriesIn(rows)| == |rows|;
  }

  /** The rows in the window, each with the balance through it. */
  ghost function RowsOf(s: seq<Entry>, from: Option<int>, to: Option<int>): seq<Row> {
    if s == [] then [] else
      var e := s[|s| - 1];
      RowsOf(s[..|s| - 1], from, to)
      + (if NotLater(e, to) && !Earlier(e, from) then [Row(e, Sum(s, Through(to)))] else [])
  }

  /** In date order the window is empty as long as the entries come from before it. */
  lemma {:induction false} NothingBefore(s: seq<Entry>, day: int, from: Option<int>, to: Option<int>)
    requires from.Some? && day < from.value && forall i :: 0 <= i < |s| ==> s[i].date <= day
    ensures Window(s, from, to) == []
  {
    if s != [] {
      NothingBefore(s[..|s| - 1], day, from, to);
    }
  }

  lemma {:induction false} RowsEntries(s: seq<Entry>, from: Option<int>, to: Option<int>)
    ensures EntriesIn(RowsOf(s, from, to)) == Window(s, from, to)
  {
    if s != [] {
      RowsEntries(s[..|s| - 1], from, to);
    }
  }

  lemma {:induction false} WindowTotal(s: seq<Entry>, from: Option<int>, to: Option<int>)
    ensures Sum(s, Through(to)) == Sum(s, Before(from, to)) + Sum(Window(s, from, to), ENTRY_AMOUNT)
  {
    if s != [] {
      var front, e := s[..|s| - 1], s[|s| - 1];
      WindowTotal(front, from, to);
      if NotLater(e, to) && !Earlier(e, from) {
        SumAppend(Window(front, from, to), e, ENTRY_AMOUNT);
      } else {
        assert Window(s, from, to) == Window(front, from, to);
      }
    }
  }

  ghost predicate Chronological(s: seq<Entry>) {
    forall i, j :: 0 <= i < j < |s| ==> s[i].date <= s[j].date
  }

  /** By day, and within a day by the moment of recording. */
  ghost predicate InTime(s: seq<Entry>) {
    && Chronological(s)
    && forall i, j :: 0 <= i < j < |s| && s[i].date == s[j].date ==> s[i].recordedAt <= s[j].recordedAt
  }

  lemma {:induction false} WindowInTime(s: seq<Entry>, from: Option<int>, to: Option<int>)
    requires InTime(s)
    ensures InTime(Window(s, from, to))
  {
    if s != [] {
      var front, e := s[..|s| - 1], s[|s| - 1];
      WindowInTime(front, from, to);
      WindowMembers(front, from, to);
      var w := Window(front, from, to);
      forall i | 0 <= i < |w|
        ensures w[i].date <= e.date && (w[i].date == e.date ==> w[i].recordedAt <= e.recordedAt)
      {
        assert w[i] in front;
        var j :| 0 <= j < |front| && front[j] == w[i];
        assert s[j] == front[j];
      }
    }
  }

  lemma {:induction false} RowsRun(s: seq<Entry>, from: Option<int>, to: Option<int>)
    requires Chronological(s)
    ensures Running(Sum(s, Before(from, to)), RowsOf(s, from, to))
  {
    hide Running, Window, EntriesIn;
    if s == [] {
      NoRows(0, []);
    } else {
      var front, e := s[..|s| - 1], s[|s| - 1];
      RowsRun(front, from, to);
      var opening, rows := Sum(front, Before(from, to)), RowsOf(front, from, to);
      RowsEntries(front, from, to);
      if !NotLater(e, to) {
        assert RowsOf(s, from, to) == rows && Sum(s, Before(from, to)) == opening;
      } else if Earlier(e, from) {
        NothingBefore(front, e.date, from, to);
        NoRows(Sum(s, Before(from, to)), rows);
        assert RowsOf(s, from, to) == rows;
      } else {
        WindowTotal(front, from, to);
        RunningAppend(opening, rows, e);
        assert Sum(s, Through(to)) == opening + Sum(EntriesIn(rows), ENTRY_AMOUNT) + e.amount;
        assert Sum(s, Before(from, to)) == opening;
      }
    }
  }

  lemma SameMembers(s: seq<Entry>, t: seq<Entry>)
    requires multiset(s) == multiset(t)
    ensures forall e :: e in s <==> e in t
  {
    assert forall e :: e in s <==> e in multiset(s);
    assert forall e :: e in t <==> e in multiset(t);
  }

  method CollectEntries(b: Books, c: nat) returns (entries: seq<Entry>)
    ensures entries == EntriesOf(b, c)
  {
    entries := [];
    for i := 0 to |b.invoices|
      invariant entries == EntriesOfInvoices(b.invoices, c, i)
    {
      if b.invoices[i].customer == c {
        var v := b.invoices[i];
        var before := entries;
        entries := entries + [Entry(OfInvoice(i), v.invoiceDate, v.total, v.createdAt)];
        if v.lateFeeAt.Some? {
          entries := entries + [Entry(OfLateFee(i), DayOf(v.lateFeeAt.value), v.lateFee, v.lateFeeAt.value)];
        }
        assert entries == before + InvoiceEntries(v, i);
      }
    }
    var first := entries;
    assert first == first + EntriesOfPayments(b.payments, c, 0);
    for p := 0 to |b.payments|
      invariant entries == first + EntriesOfPayments(b.payments, c, p)
    {
      var v := b.payments[p];
      if v.customer == c {
        entries := entries + [Entry(OfPayment(p), v.paymentDate, -v.amount, v.createdAt)];
      }
    }
    var second := entries;
    assert second == second + EntriesOfAdjustments(b.adjustments, c, 0);
    for k := 0 to |b.adjustments|
      invariant entries == second + EntriesOfAdjustments(b.adjustments, c, k)
    {
      var r := b.adjustments[k];
      if r.customer == c && r.decision.Approved? {
        entries := entries + [Entry(OfAdjustment(k), DayOf(r.decision.at), SignedAmount(r), r.decision.at)];
      }
    }
  }

  method OutstandingOf(b: Books, c: nat) returns (due: int)
    ensures due == Sigma(|b.invoices|, DueOf(b, c))
  {
    due := 0;
    for i := 0 to |b.invoices|
      invariant due == Sigma(i, DueOf(b, c))
    {
      due := due + (if b.invoices[i].customer == c then Outstanding(b.invoices[i]) else 0);
    }
  }

  method AdvanceHeld(b: Books, c: nat) returns (advance: int)
    ensures advance == Sigma(|b.payments|, AdvanceOf(b, c))
  {
    advance := 0;
    for p := 0 to |b.payments|
      invariant advance == Sigma(p, AdvanceOf(b, c))
    {
      advance := advance + (if b.payments[p].customer == c then b.payments[p].remaining else 0);
    }
  }

  /** The statement of customer c, optionally cut to a window of dates. */
  method Ledger(b: Books, c: nat, from: Option<int>, to: Option<int>) returns (s: Statement)
    ensures EntriesIn(s.rows) == Window(Sort(EntriesOf(b, c)), from, to) && InTime(EntriesIn(s.rows))
    ensures forall e :: e in EntriesIn(s.rows) <==> e in EntriesOf(b, c) && Inside(e, from, to)
    ensures Running(s.opening, s.rows)
    ensures s.opening == Sum(EntriesOf(b, c), Before(from, to))
    ensures s.closing == Sum(EntriesOf(b, c), Through(to)) == s.opening + Sum(EntriesIn(s.rows), ENTRY_AMOUNT)
    ensures s.outstanding == Sigma(|b.invoices|, DueOf(b, c))
    ensures s.advance == Sigma(|b.payments|, AdvanceOf(b, c))
    ensures Consistent(b) && to.None? ==> s.closing == s.outstanding - s.advance
  {
    hide Running, Window, EntriesIn, EntriesOf, Consistent, Sort;
    var unsorted := CollectEntries(b, c);
    var entries := Sort(unsorted);
    var balance, opening, rows := 0, 0, [];
    for n := 0 to |entries|
      invariant balance == Sum(entries[..n], Through(to))
      invariant opening == Sum(entries[..n], Before(from, to))
      invariant rows == RowsOf(entries[..n], from, to)
    {
      var e := entries[n];
      assert entries[..n + 1][..n] == entries[..n] && entries[..n + 1][n] == e;
      if NotLater(e, to) {
        balance := balance + e.amount;
        if Earlier(e, from) {
          opening := opening + e.amount;
        } else {
          rows := rows + [Row(e, balance)];
        }
      }
    }
    assert entries[..|entries|] == entries;
    SortSorts(unsorted);
    assert InTime(entries);
    WindowInTime(entries, from, to);
    WindowMembers(entries, from, to);
    SameMembers(unsorted, entries);
    RowsEntries(entries, from, to);
    WindowTotal(entries, from, to);
    RowsRun(entries, from, to);
    SortTotal(unsorted, Through(to));
    SortTotal(unsorted, Before(from, to));
    if Consistent(b) && to.None? {
      SumCong(unsorted, Through(to), ENTRY_AMOUNT);
      ClosingAgrees(b, c);
    }
    var outstanding := OutstandingOf(b, c);
    var advance := AdvanceHeld(b, c);
    s := Statement(opening, balance, rows, outstanding, advance);
  }

  /** Statements tile: what one closes with is what the one starting the day after opens with. */
  lemma WindowsTile(entries: seq<Entry>, day: int, to: Option<int>)
    requires to.Some? ==> day < to.value
    ensures Sum(entries, Through(Some(day))) == Sum(entries, Before(Some(day + 1), to))
  {
    SumCong(entries, Through(Some(day)), Before(Some(day + 1), to));
  }
}
