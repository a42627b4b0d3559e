/** What the greedy advance allocation of billing.service.ts computes, in closed form.
    Lay the unapplied payments end to end on a line, and the unpaid invoices end to end on the
    same line. What payment k gives invoice j is the length on which their two intervals overlap. */
module AdvanceAllocation {
  import opened Rounding
  import opened Sums

  datatype Move = Move(payment: nat, invoice: nat, amount: nat)

  /** credit[k] meets due[j]. */
  function Overlap(credit: seq<nat>, due: seq<nat>, k: nat, j: nat): nat
    requires k < |credit| && j < |due|
  {
    Max(0, Min(Prefix(credit, k + 1), Prefix(due, j + 1)) - Max(Prefix(credit, k), Prefix(due, j)))
  }

  /** What is left of payment k once the invoices before j have been offered to it. */
  function CreditLeft(credit: seq<nat>, due: seq<nat>, k: nat, j: nat): nat
    requires k < |credit| && j <= |due|
  {
    Max(0, Prefix(credit, k + 1) - Max(Prefix(credit, k), Prefix(due, j)))
  }

  /** What is still due on invoice j once the payments before k have been spent on it. */
  function DueLeft(credit: seq<nat>, due: seq<nat>, k: nat, j: nat): nat
    requires k <= |credit| && j < |due|
  {
    Max(0, Prefix(due, j + 1) - Max(Prefix(due, j), Prefix(credit, k)))
  }

  /** What each payment still holds at that moment. */
  function Left(credit: seq<nat>, due: seq<nat>, k: nat, j: nat): seq<nat>
    requires k < |credit| && j <= |due|
  {
    seq(|credit|, t requires 0 <= t < |credit| =>
      if t < k then CreditLeft(credit, due, t, |due|) else if t == k then CreditLeft(credit, due, k, j) else credit[t])
  }

  /** What each invoice still asks at that moment. */
  function Owed(credit: seq<nat>, due: seq<nat>, k: nat, j: nat): seq<nat>
    requires k < |credit| && j <= |due|
  {
    seq(|due|, t requires 0 <= t < |due| =>
      if t < j then DueLeft(credit, due, k + 1, t) else DueLeft(credit, due, k, t))
  }

  /** The allocations made, in order, once payments before k are through and payment k has been
      offered to the invoices before j. */
  function Moves(credit: seq<nat>, due: seq<nat>, k: nat, j: nat): seq<Move>
    requires k < |credit| && j <= |due|
    decreases k, j
  {
    if j > 0 then
      var before := Moves(credit, due, k, j - 1);
      var x := Overlap(credit, due, k, j - 1);
      if x > 0 then before + [Move(k, j - 1, x)] else before
    else if k > 0 then Moves(credit, due, k - 1, |due|)
    else []
  }

  /** Everything moved by then, read off the two lines. */
  function Moved(credit: seq<nat>, due: seq<nat>, k: nat, j: nat): int
    requires k < |credit| && j <= |due|
  {
    Min(Prefix(credit, k), Prefix(due, |due|)) + Max(0, Min(Prefix(credit, k + 1), Prefix(due, j)) - Prefix(credit, k))
  }

  /** One turn of the inner loop takes the smaller of what is left on either side, and that is the overlap. */
  lemma Turn(credit: seq<nat>, due: seq<nat>, k: nat, j: nat)
    requires k < |credit| && j < |due|
    ensures Overlap(credit, due, k, j) == Min(CreditLeft(credit, due, k, j), DueLeft(credit, due, k, j))
    ensures CreditLeft(credit, due, k, j + 1) == CreditLeft(credit, due, k, j) - Overlap(credit, due, k, j)
    ensures DueLeft(credit, due, k + 1, j) == DueLeft(credit, due, k, j) - Overlap(credit, due, k, j)
    ensures Moved(credit, due, k, j + 1) == Moved(credit, due, k, j) + Overlap(credit, due, k, j)
  {
    PrefixOrder(due, j + 1, |due|);
  }

  lemma NextPayment(credit: seq<nat>, due: seq<nat>, k: nat)
    requires k + 1 < |credit|
    ensures Moved(credit, due, k + 1, 0) == Moved(credit, due, k, |due|)
    ensures CreditLeft(credit, due, k + 1, 0) == credit[k + 1]
  {
    PrefixOrder(credit, 0, k + 1);
    PrefixOrder(due, 0, |due|);
  }

  lemma TurnLists(credit: seq<nat>, due: seq<nat>, k: nat, j: nat)
    requires k < |credit| && j < |due|
    ensures var x := Overlap(credit, due, k, j);
            var left, owed := Left(credit, due, k, j), Owed(credit, due, k, j);
            && x == Min(left[k], owed[j])
            && Left(credit, due, k, j + 1) == left[k := left[k] - x]
            && Owed(credit, due, k, j + 1) == owed[j := owed[j] - x]
  {
    Turn(credit, due, k, j);
  }

  lemma FirstLists(credit: seq<nat>, due: seq<nat>)
    requires credit != []
    ensures Left(credit, due, 0, 0) == credit && Owed(credit, due, 0, 0) == due
  {
    forall t | 0 <= t < |due|
      ensures Prefix(due, t) >= 0
    {
      PrefixOrder(due, 0, t);
    }
    assert forall t :: 0 <= t < |due| ==> Owed(credit, due, 0, 0)[t] == DueLeft(credit, due, 0, t) == due[t];
    assert CreditLeft(credit, due, 0, 0) == credit[0];
  }

  lemma NextLists(credit: seq<nat>, due: seq<nat>, k: nat)
    requires k + 1 < |credit|
    ensures Left(credit, due, k + 1, 0) == Left(credit, due, k, |due|)
    ensures Owed(credit, due, k + 1, 0) == Owed(credit, due, k, |due|)
  {
    NextPayment(credit, due, k);
  }

  /** Credit and dues never both remain. */
  lemma NeverBoth(credit: seq<nat>, due: seq<nat>, k: nat, j: nat)
    requires k < |credit| && j < |due|
    ensures CreditLeft(credit, due, k, |due|) == 0 || DueLeft(credit, due, |credit|, j) == 0
  {
    PrefixOrder(credit, k + 1, |credit|);
    PrefixOrder(due, j + 1, |due|);
  }

  /** Oldest first: an invoice receives money only once every invoice before it is settled, and a
      payment is drawn on only once every payment before it is used up. */
  lemma OldestFirst(credit: seq<nat>, due: seq<nat>, k: nat, j: nat)
    requires k < |credit| && j < |due|
    ensures DueLeft(credit, due, |credit|, j) < due[j] ==>
              forall i :: 0 <= i < j ==> DueLeft(credit, due, |credit|, i) == 0
    ensures CreditLeft(credit, due, k, |due|) < credit[k] ==>
              forall i :: 0 <= i < k ==> CreditLeft(credit, due, i, |due|) == 0
  {
    forall i | 0 <= i < j
      ensures DueLeft(credit, due, |credit|, j) < due[j] ==> DueLeft(credit, due, |credit|, i) == 0
    {
      PrefixOrder(due, i + 1, j);
    }
    forall i | 0 <= i < k
      ensures CreditLeft(credit, due, k, |due|) < credit[k] ==> CreditLeft(credit, due, i, |due|) == 0
    {
      PrefixOrder(credit, i + 1, k);
    }
  }

  ghost const MOVED: Move -> int := (m: Move) => m.amount

  /** The allocations made add up to what the lines say: in the end, the smaller of the two totals. */
  lemma {:induction false} MovesTotal(credit: seq<nat>, due: seq<nat>, k: nat, j: nat)
    requires k < |credit| && j <= |due|
    ensures Sum(Moves(credit, due, k, j), MOVED) == Moved(credit, due, k, j)
    ensures k + 1 == |credit| && j == |due| ==>
              Sum(Moves(credit, due, k, j), MOVED) == Min(Prefix(credit, |credit|), Prefix(due, |due|))
    decreases k, j
  {
    hide Overlap, CreditLeft, DueLeft, Moved, Prefix;
    MovedAtEnds(credit, due, k, j);
    if j > 0 {
      MovesTotal(credit, due, k, j - 1);
      Turn(credit, due, k, j - 1);
      var x, before := Overlap(credit, due, k, j - 1), Moves(credit, due, k, j - 1);
      if x > 0 {
        SumAppend(before, Move(k, j - 1, x), MOVED);
      }
    } else if k > 0 {
      MovesTotal(credit, due, k - 1, |due|);
      NextPayment(credit, due, k - 1);
    }
  }

  /** Nothing has moved at the start; at the end, the smaller of the two totals has. */
  lemma MovedAtEnds(credit: seq<nat>, due: seq<nat>, k: nat, j: nat)
    requires k < |credit| && j <= |due|
    ensures k == 0 && j == 0 ==> Moved(credit, due, k, j) == 0
    ensures k + 1 == |credit| && j == |due| ==>
              Moved(credit, due, k, j) == Min(Prefix(credit, |credit|), Prefix(due, |due|))
  {
    PrefixOrder(credit, 0, k);
    PrefixOrder(due, 0, |due|);
  }

  /** A later payment never goes back to an invoice before the one an earlier payment reached. */
  lemma Descent(credit: seq<nat>, due: seq<nat>, k: nat, j: nat, k': nat, j': nat)
    requires k < k' < |credit| && j < |due| && j' < |due|
    requires Overlap(credit, due, k, j) > 0 && Overlap(credit, due, k', j') > 0
    ensures j <= j'
  {
    PrefixOrder(credit, k + 1, k');
    if j' < j {
      PrefixOrder(due, j' + 1, j);
    }
  }

  ghost predicate OnStaircase(credit: seq<nat>, due: seq<nat>, moves: seq<Move>, i: nat)
    requires i < |moves|
  {
    var m := moves[i];
    && m.payment < |credit| && m.invoice < |due|
    && m.amount == Overlap(credit, due, m.payment, m.invoice) > 0
    && i <= m.payment + m.invoice
  }

  /** The moves walk down a staircase: each is on a later payment or a later invoice than the one
      before, so the i-th move cannot happen before the two indices add up to i. */
  lemma {:induction false} Staircase(credit: seq<nat>, due: seq<nat>, k: nat, j: nat)
    requires k < |credit| && j <= |due|
    ensures var moves := Moves(credit, due, k, j);
            && (forall i :: 0 <= i < |moves| ==> OnStaircase(credit, due, moves, i))
            && (moves != [] ==> var last := moves[|moves| - 1];
                                last.payment < k || (last.payment == k && last.invoice < j))
    decreases k, j
  {
    if j > 0 {
      Staircase(credit, due, k, j - 1);
      var before, after := Moves(credit, due, k, j - 1), Moves(credit, due, k, j);
      if Overlap(credit, due, k, j - 1) > 0 {
        forall i | 0 <= i < |after|
          ensures OnStaircase(credit, due, after, i)
        {
          if i < |before| {
            assert OnStaircase(credit, due, before, i);
          } else if before != [] {
            var last := before[|before| - 1];
            assert OnStaircase(credit, due, before, |before| - 1);
            if last.payment < k {
              Descent(credit, due, last.payment, last.invoice, k, j - 1);
            }
          }
        }
      }
    } else if k > 0 {
      Staircase(credit, due, k - 1, |due|);
    }
  }

  /** m payments and n invoices never need more than m + n - 1 allocations. */
  lemma MovesBound(credit: seq<nat>, due: seq<nat>)
    requires credit != []
    ensures var moves := Moves(credit, due, |credit| - 1, |due|);
            moves == [] || |moves| <= |credit| + |due| - 1
  {
    Staircase(credit, due, |credit| - 1, |due|);
    var moves := Moves(credit, due, |credit| - 1, |due|);
    if moves != [] {
      assert OnStaircase(credit, due, moves, |moves| - 1);
    }
  }
}
