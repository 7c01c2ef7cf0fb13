/**
 BudgetLedger. The ledger keeps running counters; the model beside it keeps only a book of reservations
 and computes every total from the book. The class proves that the two always agree.
 */
module Budget {
  import opened Common

  /** AccountingCounters and BudgetEstimate have the same four quantities. */
  datatype Counters = Counters(cost: real, nodeAttempts: int, frontierCalls: int, toolCalls: int) {
    function Plus(o: Counters): Counters {
      Counters(cost + o.cost, nodeAttempts + o.nodeAttempts, frontierCalls + o.frontierCalls, toolCalls + o.toolCalls)
    }

    function Minus(o: Counters): Counters {
      Counters(cost - o.cost, nodeAttempts - o.nodeAttempts, frontierCalls - o.frontierCalls, toolCalls - o.toolCalls)
    }

    predicate NonNegative() {
      cost >= 0.0 && nodeAttempts >= 0 && frontierCalls >= 0 && toolCalls >= 0
    }

    /** Every integer quantity is at most the other's. */
    predicate CallsWithin(o: Counters) {
      nodeAttempts <= o.nodeAttempts && frontierCalls <= o.frontierCalls && toolCalls <= o.toolCalls
    }
  }

  const ZERO := Counters(0.0, 0, 0, 0)

  datatype Limit = Limit(maxCost: real, maxNodeAttempts: int, maxFrontierCalls: int, maxToolCalls: int)

  predicate WithinCalls(c: Counters, limit: Limit) {
    && (limit.maxNodeAttempts > 0 ==> c.nodeAttempts <= limit.maxNodeAttempts)
    && (limit.maxFrontierCalls > 0 ==> c.frontierCalls <= limit.maxFrontierCalls)
    && (limit.maxToolCalls > 0 ==> c.toolCalls <= limit.maxToolCalls)
  }

  /** validateCountersAgainstLimit: a limit that is not positive does not bind. */
  predicate WithinLimit(c: Counters, limit: Limit) {
    (limit.maxCost > 0.0 ==> c.cost <= limit.maxCost) && WithinCalls(c, limit)
  }

  // ---- The book ------------------------------------------------------------

  /** One reservation, with the number of the line it was entered on. */
  datatype Entry =
    | Open(line: nat, estimate: Counters)
    | Settled(line: nat, estimate: Counters, actual: Counters)
    | Released(line: nat, estimate: Counters)

  type Book = map<string, Entry>

  datatype Measure = Held | Spent | Overrun

  function Weigh(e: Entry, m: Measure): Counters {
    match m
    case Held => if e.Open? then e.estimate else ZERO
    case Spent => if e.Settled? then e.actual else ZERO
    case Overrun =>
      if e.Settled? && e.actual.cost > e.estimate.cost then ZERO.(cost := e.actual.cost - e.estimate.cost) else ZERO
  }

  /** The sum of a measure over the listed entries of the book. */
  ghost function Total(ids: seq<string>, book: Book, m: Measure): Counters
    decreases |ids|
  {
    if ids == [] then ZERO
    else
      var id := ids[|ids| - 1];
      Total(ids[..|ids| - 1], book, m).Plus(if id in book then Weigh(book[id], m) else ZERO)
  }

  lemma {:induction false} TotalElsewhere(ids: seq<string>, book: Book, m: Measure, id: string, e: Entry)
    requires forall k | 0 <= k < |ids| :: ids[k] != id
    ensures Total(ids, book[id := e], m) == Total(ids, book, m)
    decreases |ids|
  {
    if ids != [] {
      TotalElsewhere(ids[..|ids| - 1], book, m, id, e);
    }
  }

  lemma TotalAppend(ids: seq<string>, book: Book, m: Measure, id: string, e: Entry)
    requires forall k | 0 <= k < |ids| :: ids[k] != id
    ensures Total(ids + [id], book[id := e], m) == Total(ids, book, m).Plus(Weigh(e, m))
  {
    TotalElsewhere(ids, book, m, id, e);
    assert (ids + [id])[..|ids|] == ids;
  }

  lemma {:induction false} TotalReplace(ids: seq<string>, book: Book, m: Measure, k: nat, e: Entry)
    requires k < |ids| && ids[k] in book && forall j | 0 <= j < |ids| && j != k :: ids[j] != ids[k]
    ensures Total(ids, book[ids[k] := e], m) == Total(ids, book, m).Minus(Weigh(book[ids[k]], m)).Plus(Weigh(e, m))
    decreases |ids|
  {
    hide Counters.Plus, Counters.Minus, Weigh;
    var front, last, id := ids[..|ids| - 1], ids[|ids| - 1], ids[k];
    if k == |ids| - 1 {
      TotalElsewhere(front, book, m, id, e);
      Swap(Total(front, book, m), Weigh(book[id], m), Weigh(e, m), ZERO);
    } else {
      TotalReplace(front, book, m, k, e);
      Swap(Total(front, book, m), Weigh(book[id], m), Weigh(e, m), if last in book then Weigh(book[last], m) else ZERO);
    }
  }

  lemma Swap(a: Counters, old_: Counters, new_: Counters, b: Counters)
    ensures a.Minus(old_).Plus(new_).Plus(b) == a.Plus(b).Minus(old_).Plus(new_)
    ensures a.Plus(old_).Minus(old_).Plus(new_) == a.Plus(new_)
  {
  }

  ghost predicate BookOk(book: Book) {
    forall id | id in book ::
      book[id].estimate.NonNegative() && (book[id].Settled? ==> book[id].actual.NonNegative())
  }

  lemma {:induction false} TotalNonNegative(ids: seq<string>, book: Book, m: Measure)
    requires BookOk(book)
    ensures Total(ids, book, m).NonNegative()
    decreases |ids|
  {
    if ids != [] {
      TotalNonNegative(ids[..|ids| - 1], book, m);
    }
  }

  /** A ledger: its limit, the counters it was opened with, its book, and the book's ids as they were reserved. */
  datatype LedgerState = LedgerState(limit: Limit, reserved0: Counters, consumed0: Counters, ids: seq<string>, book: Book)

  /** Every entry is on its own line and every line holds an entry. */
  ghost predicate Enumerates(l: LedgerState) {
    && (forall k | 0 <= k < |l.ids| :: l.ids[k] in l.book && l.book[l.ids[k]].line == k)
    && (forall id | id in l.book :: l.book[id].line < |l.ids| && l.ids[l.book[id].line] == id)
  }

  ghost function Sum(l: LedgerState, m: Measure): Counters {
    Total(l.ids, l.book, m)
  }

  ghost function Reserved(l: LedgerState): Counters {
    l.reserved0.Plus(Sum(l, Held))
  }

  ghost function Consumed(l: LedgerState): Counters {
    l.consumed0.Plus(Sum(l, Spent))
  }

  ghost function Committed(l: LedgerState): Counters {
    Reserved(l).Plus(Consumed(l))
  }

  datatype LedgerOp =
    | Reserve(id: string, estimate: Counters)
    | Settle(id: string, actual: Counters)
    | Release(id: string)

  datatype BudgetError = IdRequired | AlreadyExists | NegativeValue | Exceeded | Missing | AlreadyClosed

  ghost function BudgetRefusal(l: LedgerState, op: LedgerOp): Option<BudgetError> {
    match op
    case Reserve(id, estimate) =>
      if id == "" then Some(IdRequired)
      else if id in l.book then Some(AlreadyExists)
      else if !estimate.NonNegative() then Some(NegativeValue)
      else if !WithinLimit(Committed(l).Plus(estimate), l.limit) then Some(Exceeded)
      else None
    case Settle(id, actual) =>
      if id !in l.book then Some(Missing)
      else if !l.book[id].Open? then Some(AlreadyClosed)
      else if !actual.NonNegative() then Some(NegativeValue)
      else None
    case Release(id) =>
      if id !in l.book then Some(Missing)
      else if !l.book[id].Open? then Some(AlreadyClosed)
      else None
  }

  function Closing(e: Entry, op: LedgerOp): Entry {
    if op.Settle? then Settled(e.line, e.estimate, op.actual) else Released(e.line, e.estimate)
  }

  ghost function AfterOp(l: LedgerState, op: LedgerOp): LedgerState {
    if BudgetRefusal(l, op).Some? then l
    else if op.Reserve? then Opened(l, op.id, op.estimate)
    else if op.id in l.book then ClosedAs(l, op.id, Closing(l.book[op.id], op))
    else l
  }

  ghost function RunLedger(l: LedgerState, ops: seq<LedgerOp>): LedgerState
    decreases |ops|
  {
    if ops == [] then l else RunLedger(AfterOp(l, ops[0]), ops[1..])
  }

  lemma {:induction false} LedgerSnoc(l: LedgerState, ops: seq<LedgerOp>, op: LedgerOp)
    ensures RunLedger(l, ops + [op]) == AfterOp(RunLedger(l, ops), op)
    decreases |ops|
  {
    hide AfterOp;
    if ops == [] {
      assert [op][1..] == [];
      assert RunLedger(l, [op]) == RunLedger(AfterOp(l, op), []);
    } else {
      assert (ops + [op])[1..] == ops[1..] + [op];
      LedgerSnoc(AfterOp(l, ops[0]), ops[1..], op);
    }
  }

  // ---- Each reservation closes at most once --------------------------------

  /** Entries are never dropped, estimates never change, and a closed entry is final. */
  ghost predicate BookExtends(a: Book, b: Book) {
    forall id | id in a ::
      && id in b
      && b[id].line == a[id].line && b[id].estimate == a[id].estimate
      && (!a[id].Open? ==> b[id] == a[id])
  }

  lemma {:induction false} ClosesAtMostOnce(l: LedgerState, ops: seq<LedgerOp>)
    ensures BookExtends(l.book, RunLedger(l, ops).book)
    ensures BookOk(l.book) ==> BookOk(RunLedger(l, ops).book)
    decreases |ops|
  {
    if ops != [] {
      ClosesAtMostOnce(AfterOp(l, ops[0]), ops[1..]);
    }
  }

  /** Operations on other reservations leave a reservation untouched. */
  lemma {:induction false} OthersDoNotTouch(l: LedgerState, ops: seq<LedgerOp>, id: string)
    requires forall i | 0 <= i < |ops| :: ops[i].id != id
    ensures id in RunLedger(l, ops).book <==> id in l.book
    ensures id in l.book ==> RunLedger(l, ops).book[id] == l.book[id]
    decreases |ops|
  {
    if ops != [] {
      OthersDoNotTouch(AfterOp(l, ops[0]), ops[1..], id);
    }
  }

  // ---- Conservation over runs ----------------------------------------------

  /** What the accepted settlements of a run reported, in total. */
  ghost function SettledIn(l: LedgerState, ops: seq<LedgerOp>): Counters
    decreases |ops|
  {
    if ops == [] then ZERO
    else
      var rest := SettledIn(AfterOp(l, ops[0]), ops[1..]);
      if ops[0].Settle? && BudgetRefusal(l, ops[0]).None? then ops[0].actual.Plus(rest) else rest
  }

  /** Along every run the ledger consumes exactly what its settlements reported. */
  lemma {:induction false} ConsumedIsSettled(l: LedgerState, ops: seq<LedgerOp>)
    requires Enumerates(l)
    ensures Enumerates(RunLedger(l, ops))
    ensures Consumed(RunLedger(l, ops)) == Consumed(l).Plus(SettledIn(l, ops))
    decreases |ops|
  {
    if ops == [] {
      Regroup(Consumed(l), ZERO, ZERO, ZERO);
    } else {
      var op, rest := ops[0], SettledIn(AfterOp(l, ops[0]), ops[1..]);
      EnumeratesAfter(l, op);
      ConsumedAfter(l, op);
      ConsumedIsSettled(AfterOp(l, op), ops[1..]);
      if op.Settle? {
        Regroup(Consumed(l), op.actual, rest, ZERO);
      }
    }
  }

  lemma EnumeratesAfter(l: LedgerState, op: LedgerOp)
    requires Enumerates(l)
    ensures Enumerates(AfterOp(l, op))
  {
  }

  lemma ConsumedAfter(l: LedgerState, op: LedgerOp)
    requires Enumerates(l)
    ensures Consumed(AfterOp(l, op)) ==
            if op.Settle? && BudgetRefusal(l, op).None? then Consumed(l).Plus(op.actual) else Consumed(l)
  {
    if BudgetRefusal(l, op).None? {
      if op.Reserve? {
        assert Sum(AfterOp(l, op), Spent) == Sum(l, Spent) by { OthersOpened(l, op.id, op.estimate, Spent); }
      } else {
        var e := Closing(l.book[op.id], op);
        assert Weigh(e, Spent) == if op.Settle? then op.actual else ZERO;
        assert Consumed(AfterOp(l, op)) == Consumed(l).Plus(Weigh(e, Spent)) by { ConsumedClosed(l, op.id, e); }
        Regroup(Consumed(l), ZERO, ZERO, ZERO);
      }
    }
  }

  // ---- The shared bound ----------------------------------------------------

  /** Settling never reports more calls than were reserved. */
  ghost predicate Covered(l: LedgerState, op: LedgerOp) {
    op.Settle? && op.id in l.book ==> op.actual.CallsWithin(l.book[op.id].estimate)
  }

  ghost predicate CoveredRun(l: LedgerState, ops: seq<LedgerOp>)
    decreases |ops|
  {
    ops != [] ==> Covered(l, ops[0]) && CoveredRun(AfterOp(l, ops[0]), ops[1..])
  }

  ghost predicate Bounded(l: LedgerState) {
    && BookOk(l.book) && Enumerates(l)
    && WithinCalls(Committed(l), l.limit)
    && CostBounded(Committed(l), Sum(l, Overrun), l.limit)
  }

  lemma Regroup(a: Counters, b: Counters, c: Counters, d: Counters)
    ensures a.Plus(b.Plus(c)) == a.Plus(b).Plus(c)
    ensures a.Plus(b.Minus(c).Plus(d)) == a.Plus(b).Minus(c).Plus(d)
    ensures a.Plus(ZERO) == a && a.Minus(ZERO) == a
  {
  }

  function Opened(l: LedgerState, id: string, estimate: Counters): LedgerState {
    l.(ids := l.ids + [id], book := l.book[id := Open(|l.ids|, estimate)])
  }

  function ClosedAs(l: LedgerState, id: string, e: Entry): LedgerState {
    l.(book := l.book[id := e])
  }

  /** A reservation adds its estimate to what is held ... */
  lemma ReservedOpened(l: LedgerState, id: string, estimate: Counters)
    requires Enumerates(l) && id !in l.book
    ensures Reserved(Opened(l, id, estimate)) == Reserved(l).Plus(estimate)
  {
    TotalAppend(l.ids, l.book, Held, id, Open(|l.ids|, estimate));
    Regroup(l.reserved0, Total(l.ids, l.book, Held), estimate, ZERO);
  }

  /** ... and leaves the other sums alone. */
  lemma OthersOpened(l: LedgerState, id: string, estimate: Counters, m: Measure)
    requires Enumerates(l) && id !in l.book && !m.Held?
    ensures Sum(Opened(l, id, estimate), m) == Sum(l, m)
  {
    var e := Open(|l.ids|, estimate);
    TotalAppend(l.ids, l.book, m, id, e);
    assert Weigh(e, m) == ZERO;
    Regroup(Total(l.ids, l.book, m), ZERO, ZERO, ZERO);
  }

  /** Closing takes the estimate out of what is held ... */
  lemma ReservedClosed(l: LedgerState, id: string, e: Entry)
    requires Enumerates(l) && id in l.book && l.book[id].Open? && !e.Open? && e.line == l.book[id].line
    ensures Reserved(ClosedAs(l, id, e)) == Reserved(l).Minus(l.book[id].estimate)
  {
    TotalReplace(l.ids, l.book, Held, l.book[id].line, e);
    Regroup(l.reserved0, Total(l.ids, l.book, Held), l.book[id].estimate, ZERO);
    Regroup(Reserved(l).Minus(l.book[id].estimate), ZERO, ZERO, ZERO);
  }

  /** ... and books the actual usage, if any. */
  lemma ConsumedClosed(l: LedgerState, id: string, e: Entry)
    requires Enumerates(l) && id in l.book && l.book[id].Open? && !e.Open? && e.line == l.book[id].line
    ensures Consumed(ClosedAs(l, id, e)) == Consumed(l).Plus(Weigh(e, Spent))
  {
    TotalReplace(l.ids, l.book, Spent, l.book[id].line, e);
    Regroup(l.consumed0, Total(l.ids, l.book, Spent), ZERO, Weigh(e, Spent));
    Regroup(Consumed(l), ZERO, ZERO, ZERO);
  }

  lemma OverrunClosed(l: LedgerState, id: string, e: Entry)
    requires Enumerates(l) && id in l.book && l.book[id].Open? && !e.Open? && e.line == l.book[id].line
    ensures Sum(ClosedAs(l, id, e), Overrun) == Sum(l, Overrun).Plus(Weigh(e, Overrun))
  {
    TotalReplace(l.ids, l.book, Overrun, l.book[id].line, e);
    assert Weigh(l.book[id], Overrun) == ZERO;
    Regroup(Total(l.ids, l.book, Overrun), ZERO, ZERO, ZERO);
  }

  /** Cost committed beyond the limit is paid for by overruns. */
  ghost predicate CostBounded(committed: Counters, overrun: Counters, limit: Limit) {
    limit.maxCost > 0.0 ==> committed.cost <= limit.maxCost + overrun.cost
  }

  lemma ReserveKeepsBound(l: LedgerState, id: string, estimate: Counters)
    requires Bounded(l) && id !in l.book && estimate.NonNegative()
    requires WithinLimit(Committed(l).Plus(estimate), l.limit)
    ensures Bounded(Opened(l, id, estimate))
  {
    var after := Opened(l, id, estimate);
    ReservedOpened(l, id, estimate);
    OthersOpened(l, id, estimate, Spent);
    OthersOpened(l, id, estimate, Overrun);
    TotalNonNegative(l.ids, l.book, Overrun);
    assert Committed(after).CallsWithin(Committed(l).Plus(estimate));
    assert Committed(after).cost == Committed(l).Plus(estimate).cost;
  }

  lemma CloseKeepsBound(l: LedgerState, id: string, e: Entry)
    requires Bounded(l) && id in l.book && l.book[id].Open?
    requires !e.Open? && e.line == l.book[id].line && e.estimate == l.book[id].estimate
    requires e.Settled? ==> e.actual.NonNegative() && e.actual.CallsWithin(e.estimate)
    ensures Bounded(ClosedAs(l, id, e))
  {
    var after := ClosedAs(l, id, e);
    ReservedClosed(l, id, e);
    ConsumedClosed(l, id, e);
    OverrunClosed(l, id, e);
    assert l.book[id].estimate.NonNegative();
    assert Weigh(e, Spent).CallsWithin(e.estimate);
    assert Committed(after).CallsWithin(Committed(l));
    assert Weigh(e, Spent).cost - e.estimate.cost <= Weigh(e, Overrun).cost;
  }

  lemma StepKeepsBound(l: LedgerState, op: LedgerOp)
    requires Bounded(l) && Covered(l, op)
    ensures Bounded(AfterOp(l, op))
  {
    if BudgetRefusal(l, op).None? {
      if op.Reserve? {
        ReserveKeepsBound(l, op.id, op.estimate);
      } else {
        CloseKeepsBound(l, op.id, Closing(l.book[op.id], op));
      }
    }
  }

  /**
   Whatever the interleaving of workers, reserved plus consumed stays within every positive call limit,
   and cost exceeds its limit by no more than the settlements exceeded their own estimates.
   */
  lemma {:induction false} SharedBound(l: LedgerState, ops: seq<LedgerOp>)
    requires Bounded(l) && CoveredRun(l, ops)
    ensures Bounded(RunLedger(l, ops))
    decreases |ops|
  {
    if ops != [] {
      StepKeepsBound(l, ops[0]);
      SharedBound(AfterOp(l, ops[0]), ops[1..]);
    }
  }

  lemma FreshLedgerBounded(l: LedgerState)
    requires l.ids == [] && l.book == map[] && WithinLimit(l.reserved0.Plus(l.consumed0), l.limit)
    ensures Bounded(l)
  {
  }

  // ---- When cost passes its limit ------------------------------------------

  predicate CostWithin(c: Counters, limit: Limit) {
    limit.maxCost > 0.0 ==> c.cost <= limit.maxCost
  }

  /** An accepted settlement whose excess over its estimate does not fit what the limit has left. */
  ghost predicate Overshoots(l: LedgerState, op: LedgerOp) {
    && op.Settle? && BudgetRefusal(l, op).None? && l.limit.maxCost > 0.0
    && Committed(l).cost + (op.actual.cost - l.book[op.id].estimate.cost) > l.limit.maxCost
  }

  lemma CostOpened(l: LedgerState, id: string, estimate: Counters)
    requires Enumerates(l) && id !in l.book
    ensures Committed(Opened(l, id, estimate)).cost == Committed(l).cost + estimate.cost
  {
    ReservedOpened(l, id, estimate);
    OthersOpened(l, id, estimate, Spent);
    hide Reserved, Sum, Enumerates, Opened;
  }

  lemma CostClosed(l: LedgerState, id: string, e: Entry)
    requires Enumerates(l) && id in l.book && l.book[id].Open? && !e.Open? && e.line == l.book[id].line
    ensures Committed(ClosedAs(l, id, e)).cost == Committed(l).cost - l.book[id].estimate.cost + Weigh(e, Spent).cost
  {
    ReservedClosed(l, id, e);
    ConsumedClosed(l, id, e);
    hide Reserved, Consumed, Enumerates, ClosedAs, Weigh;
  }

  lemma ReserveStaysWithin(l: LedgerState, id: string, estimate: Counters)
    requires Enumerates(l) && BudgetRefusal(l, LedgerOp.Reserve(id, estimate)).None?
    ensures CostWithin(Committed(Opened(l, id, estimate)), l.limit)
  {
    CostOpened(l, id, estimate);
    hide Committed, Enumerates, Opened;
    assert WithinLimit(Committed(l).Plus(estimate), l.limit);
  }

  lemma ClosedCost(l: LedgerState, op: LedgerOp)
    requires Enumerates(l) && !op.Reserve? && BudgetRefusal(l, op).None?
    ensures Committed(AfterOp(l, op)).cost ==
            Committed(l).cost - l.book[op.id].estimate.cost + (if op.Settle? then op.actual.cost else 0.0)
  {
    CostClosed(l, op.id, Closing(l.book[op.id], op));
    hide Committed, Enumerates, ClosedAs;
  }

  /** One operation takes committed cost past its limit exactly when it is such a settlement. */
  lemma CostPassesIff(l: LedgerState, op: LedgerOp)
    requires Enumerates(l) && BookOk(l.book) && CostWithin(Committed(l), l.limit)
    ensures CostWithin(Committed(AfterOp(l, op)), l.limit) <==> !Overshoots(l, op)
  {
    if BudgetRefusal(l, op).None? {
      if op.Reserve? {
        ReserveStaysWithin(l, op.id, op.estimate);
      } else {
        ClosedCost(l, op);
        assert op.id in l.book && l.book[op.id].estimate.NonNegative();
        hide Committed, Enumerates, AfterOp, BudgetRefusal, BookOk;
      }
    }
  }

  ghost predicate AlwaysWithin(l: LedgerState, ops: seq<LedgerOp>)
    decreases |ops|
  {
    CostWithin(Committed(l), l.limit) && (ops != [] ==> AlwaysWithin(AfterOp(l, ops[0]), ops[1..]))
  }

  ghost predicate EverOvershoots(l: LedgerState, ops: seq<LedgerOp>)
    decreases |ops|
  {
    ops != [] && (Overshoots(l, ops[0]) || EverOvershoots(AfterOp(l, ops[0]), ops[1..]))
  }

  /** Over any run: cost is within its limit in every state if and only if no settlement overshoots. */
  lemma {:induction false} CostWithinIff(l: LedgerState, ops: seq<LedgerOp>)
    requires Enumerates(l) && BookOk(l.book) && CostWithin(Committed(l), l.limit)
    ensures AlwaysWithin(l, ops) <==> !EverOvershoots(l, ops)
    decreases |ops|
  {
    if ops != [] {
      CostPassesIff(l, ops[0]);
      EnumeratesAfter(l, ops[0]);
      BookOkAfter(l, ops[0]);
      hide Overshoots, Committed, BookOk, Enumerates, AfterOp;
      if !Overshoots(l, ops[0]) {
        CostWithinIff(AfterOp(l, ops[0]), ops[1..]);
      }
    }
  }

  lemma BookOkAfter(l: LedgerState, op: LedgerOp)
    requires BookOk(l.book)
    ensures BookOk(AfterOp(l, op).book) && AfterOp(l, op).limit == l.limit
  {
  }

  lemma FreshCost(l: LedgerState)
    requires l.ids == [] && l.book == map[] && l.reserved0 == ZERO && l.consumed0 == ZERO
    ensures Committed(l) == ZERO && Enumerates(l) && BookOk(l.book)
  {
    hide Counters.Plus;
    Regroup(ZERO, ZERO, ZERO, ZERO);
  }

  lemma FitsAlone(estimate: Counters)
    requires estimate.NonNegative() && estimate.cost <= 1.0
    ensures WithinLimit(ZERO.Plus(estimate), Limit(1.0, 0, 0, 0))
  {
  }

  /** The first reservation of a fresh ledger is accepted when it fits the cost limit and no other limit binds. */
  lemma FirstReservation(l: LedgerState, estimate: Counters)
    requires l.ids == [] && l.book == map[] && l.reserved0 == ZERO && l.consumed0 == ZERO
    requires l.limit == Limit(1.0, 0, 0, 0) && estimate.NonNegative() && estimate.cost <= 1.0
    ensures BudgetRefusal(l, LedgerOp.Reserve("r", estimate)).None?
    ensures Enumerates(Opened(l, "r", estimate)) && BookOk(Opened(l, "r", estimate).book)
    ensures Committed(Opened(l, "r", estimate)).cost == estimate.cost
  {
    hide Committed, Counters.Plus, WithinLimit;
    FreshCost(l);
    FitsAlone(estimate);
    CostOpened(l, "r", estimate);
  }

  lemma SettlesOver(held: LedgerState, two: Counters)
    requires "r" in held.book && held.book["r"].Open? && held.book["r"].estimate.cost == 1.0
    requires Committed(held).cost == 1.0 && held.limit.maxCost == 1.0 && two == ZERO.(cost := 2.0)
    ensures Overshoots(held, LedgerOp.Settle("r", two))
  {
    hide Committed;
  }

  /** Reserving 1 and settling 2 under a cost limit of 1: both are accepted and the limit is passed. */
  lemma CostOvershootWitness(l: LedgerState, one: Counters, two: Counters)
    requires l.ids == [] && l.book == map[] && l.reserved0 == ZERO && l.consumed0 == ZERO
    requires l.limit == Limit(1.0, 0, 0, 0) && one == ZERO.(cost := 1.0) && two == ZERO.(cost := 2.0)
    ensures var held := AfterOp(l, LedgerOp.Reserve("r", one));
            && CostWithin(Committed(held), l.limit) && BudgetRefusal(held, LedgerOp.Settle("r", two)).None?
            && !CostWithin(Committed(AfterOp(held, LedgerOp.Settle("r", two))), l.limit)
  {
    hide Committed, Enumerates, BookOk, BudgetRefusal;
    FirstReservation(l, one);
    var held := Opened(l, "r", one);
    SettlesOver(held, two);
    CostPassesIff(held, LedgerOp.Settle("r", two));
  }

  // ---- The ledger ----------------------------------------------------------

  datatype Reservation = Reservation(executionRef: string, nodeRef: string, estimate: Counters, closed: bool)

  /** The stored reservations are the book's entries, with Closed for anything no longer open. */
  ghost predicate RowsAgree(reservations: map<string, Reservation>, book: Book) {
    && (forall id | id in reservations :: id in book)
    && (forall id | id in book ::
          && id in reservations
          && reservations[id].estimate == book[id].estimate
          && (reservations[id].closed <==> !book[id].Open?))
  }

  /** Conservation: the running counters are the sums over the book. */
  ghost predicate CountersAgree(reserved: Counters, consumed: Counters, l: LedgerState) {
    reserved == Reserved(l) && consumed == Consumed(l) && Enumerates(l)
  }

  ghost predicate Implements(reserved: Counters, consumed: Counters, reservations: map<string, Reservation>, l: LedgerState) {
    && CountersAgree(reserved, consumed, l)
    && RowsAgree(reservations, l.book)
    && BookOk(l.book)
  }

  lemma OpenedCounters(reserved: Counters, consumed: Counters, l: LedgerState, id: string, estimate: Counters)
    requires CountersAgree(reserved, consumed, l) && id !in l.book
    ensures CountersAgree(reserved.Plus(estimate), consumed, Opened(l, id, estimate))
  {
    ReservedOpened(l, id, estimate);
    OthersOpened(l, id, estimate, Spent);
  }

  lemma OpenedRows(reservations: map<string, Reservation>, l: LedgerState, id: string, r: Reservation)
    requires RowsAgree(reservations, l.book) && BookOk(l.book)
    requires id !in l.book && r.estimate.NonNegative() && !r.closed
    ensures RowsAgree(reservations[id := r], Opened(l, id, r.estimate).book) && BookOk(Opened(l, id, r.estimate).book)
  {
  }

  lemma OpenedImplements(reserved: Counters, consumed: Counters, reservations: map<string, Reservation>,
                         l: LedgerState, id: string, r: Reservation)
    requires Implements(reserved, consumed, reservations, l)
    requires id !in l.book && r.estimate.NonNegative() && !r.closed
    ensures Implements(reserved.Plus(r.estimate), consumed, reservations[id := r], Opened(l, id, r.estimate))
  {
    OpenedCounters(reserved, consumed, l, id, r.estimate);
    OpenedRows(reservations, l, id, r);
  }

  lemma ClosedCounters(reserved: Counters, consumed: Counters, l: LedgerState, id: string, e: Entry)
    requires CountersAgree(reserved, consumed, l)
    requires id in l.book && l.book[id].Open? && !e.Open? && e.line == l.book[id].line
    ensures CountersAgree(reserved.Minus(l.book[id].estimate), consumed.Plus(Weigh(e, Spent)), ClosedAs(l, id, e))
  {
    ReservedClosed(l, id, e);
    ConsumedClosed(l, id, e);
  }

  lemma ClosedImplements(reserved: Counters, consumed: Counters, reservations: map<string, Reservation>,
                         l: LedgerState, id: string, e: Entry)
    requires Implements(reserved, consumed, reservations, l) && id in l.book && l.book[id].Open?
    requires !e.Open? && e.line == l.book[id].line && e.estimate == l.book[id].estimate
    requires e.Settled? ==> e.actual.NonNegative()
    ensures id in reservations && reservations[id].estimate == e.estimate
    ensures Implements(reserved.Minus(e.estimate), consumed.Plus(Weigh(e, Spent)),
                       reservations[id := reservations[id].(closed := true)], ClosedAs(l, id, e))
  {
    ClosedCounters(reserved, consumed, l, id, e);
  }

  lemma ReleasedImplements(reserved: Counters, consumed: Counters, reservations: map<string, Reservation>, l: LedgerState, id: string)
    requires Implements(reserved, consumed, reservations, l) && id in l.book && l.book[id].Open?
    ensures id in reservations && reservations[id].estimate == l.book[id].estimate
    ensures Implements(reserved.Minus(l.book[id].estimate), consumed, reservations[id := reservations[id].(closed := true)],
                       ClosedAs(l, id, Released(l.book[id].line, l.book[id].estimate)))
  {
    ClosedImplements(reserved, consumed, reservations, l, id, Released(l.book[id].line, l.book[id].estimate));
    hide Implements, Counters.Minus;
    assert consumed.Plus(ZERO) == consumed;
  }

  lemma RowOf(reserved: Counters, consumed: Counters, reservations: map<string, Reservation>, l: LedgerState, id: string)
    requires Implements(reserved, consumed, reservations, l)
    ensures id in reservations <==> id in l.book
    ensures id in reservations ==> (reservations[id].closed <==> !l.book[id].Open?)
  {
  }

  /** Each positive limit is kept by what is reserved and consumed together. */
  predicate KeepsLimits(reserved: Counters, consumed: Counters, limit: Limit) {
    && (limit.maxCost <= 0.0 || reserved.cost + consumed.cost <= limit.maxCost)
    && (limit.maxNodeAttempts <= 0 || reserved.nodeAttempts + consumed.nodeAttempts <= limit.maxNodeAttempts)
    && (limit.maxFrontierCalls <= 0 || reserved.frontierCalls + consumed.frontierCalls <= limit.maxFrontierCalls)
    && (limit.maxToolCalls <= 0 || reserved.toolCalls + consumed.toolCalls <= limit.maxToolCalls)
  }

  lemma FitsIff(reserved: Counters, consumed: Counters, estimate: Counters, limit: Limit)
    ensures WithinLimit(reserved.Plus(consumed).Plus(estimate), limit) <==> KeepsLimits(reserved.Plus(estimate), consumed, limit)
  {
  }

  class BudgetLedger {
    const limit: Limit
    var reserved: Counters
    var consumed: Counters
    var reservations: map<string, Reservation>

    /** The abstract ledger that the fields above implement, and the operations that led to it. */
    ghost var view: LedgerState
    ghost const origin: LedgerState
    ghost var log: seq<LedgerOp>

    ghost predicate Consistent()
      reads this
    {
      view.limit == limit && Implements(reserved, consumed, reservations, view)
    }

    ghost predicate Valid()
      reads this
    {
      Consistent() && view == RunLedger(origin, log)
    }

    constructor (limit: Limit, reserved: Counters, consumed: Counters)
      ensures Valid()
      ensures view == origin == LedgerState(limit, reserved, consumed, [], map[]) && log == []
    {
      this.limit := limit;
      this.reserved := reserved;
      this.consumed := consumed;
      reservations := map[];
      view := LedgerState(limit, reserved, consumed, [], map[]);
      origin := LedgerState(limit, reserved, consumed, [], map[]);
      log := [];
    }

    method Reserve(id: string, executionRef: string, nodeRef: string, estimate: Counters)
      returns (err: Option<BudgetError>)
      requires Valid()
      modifies this
      ensures Valid()
      ensures err == BudgetRefusal(old(view), LedgerOp.Reserve(id, estimate))
      ensures view == AfterOp(old(view), LedgerOp.Reserve(id, estimate))
      ensures log == old(log) + [LedgerOp.Reserve(id, estimate)]
      // accepted exactly for a new id and a non-negative estimate that every positive limit has room for
      ensures err.None? <==> id != "" && id !in old(reservations) && estimate.NonNegative()
                             && KeepsLimits(old(reserved).Plus(estimate), old(consumed), limit)
      ensures err.None? ==> reserved == old(reserved).Plus(estimate) && consumed == old(consumed)
      ensures err.None? ==> reservations == old(reservations)[id := Reservation(executionRef, nodeRef, estimate, false)]
      ensures err.Some? ==> reserved == old(reserved) && consumed == old(consumed) && reservations == old(reservations)
    {
      FitsIff(reserved, consumed, estimate, limit);
      LedgerSnoc(origin, log, LedgerOp.Reserve(id, estimate));
      hide RunLedger;
      log := log + [LedgerOp.Reserve(id, estimate)];
      if id == "" { return Some(IdRequired); }
      if id in reservations { return Some(AlreadyExists); }
      if !estimate.NonNegative() { return Some(NegativeValue); }
      var next := reserved.Plus(consumed).Plus(estimate);
      if !WithinLimit(next, limit) { return Some(Exceeded); }
      Record(id, Reservation(executionRef, nodeRef, estimate, false));
      return None;
    }

    /** Enters a new open reservation and applies its estimate. */
    method Record(id: string, reservation: Reservation)
      requires Consistent() && id !in view.book && reservation.estimate.NonNegative() && !reservation.closed
      modifies this`reservations, this`reserved, this`view
      ensures Consistent()
      ensures view == Opened(old(view), id, reservation.estimate)
      ensures reserved == old(reserved).Plus(reservation.estimate) && reservations == old(reservations)[id := reservation]
    {
      hide Counters.Plus, Reserved, Consumed;
      ghost var after := Opened(view, id, reservation.estimate);
      OpenedImplements(reserved, consumed, reservations, view, id, reservation);
      reservations := reservations[id := reservation];
      reserved := reserved.Plus(reservation.estimate);
      view := after;
    }

    method Settle(id: string, actual: Counters) returns (err: Option<BudgetError>)
      requires Valid()
      modifies this
      ensures Valid()
      ensures err == BudgetRefusal(old(view), LedgerOp.Settle(id, actual))
      ensures view == AfterOp(old(view), LedgerOp.Settle(id, actual))
      ensures log == old(log) + [LedgerOp.Settle(id, actual)]
      // accepted exactly for an open reservation; its estimate is given up and the actual usage consumed
      ensures err.None? <==> id in old(reservations) && !old(reservations)[id].closed && actual.NonNegative()
      ensures err.None? ==> reserved == old(reserved).Minus(old(reservations)[id].estimate) && consumed == old(consumed).Plus(actual)
      ensures err.None? ==> reservations == old(reservations)[id := old(reservations)[id].(closed := true)]
      ensures err.Some? ==> reserved == old(reserved) && consumed == old(consumed) && reservations == old(reservations)
    {
      LedgerSnoc(origin, log, LedgerOp.Settle(id, actual));
      RowOf(reserved, consumed, reservations, view, id);
      hide RunLedger, Implements;
      log := log + [LedgerOp.Settle(id, actual)];
      if id !in reservations { return Some(Missing); }
      if reservations[id].closed { return Some(AlreadyClosed); }
      if !actual.NonNegative() { return Some(NegativeValue); }
      Spend(id, actual);
      return None;
    }

    /** Closes an open reservation and books the actual usage. */
    method Spend(id: string, actual: Counters)
      requires Consistent() && id in reservations && id in view.book && view.book[id].Open? && actual.NonNegative()
      modifies this`reservations, this`reserved, this`consumed, this`view
      ensures Consistent()
      ensures view == ClosedAs(old(view), id, Settled(old(view).book[id].line, old(view).book[id].estimate, actual))
      ensures reserved == old(reserved).Minus(old(reservations)[id].estimate) && consumed == old(consumed).Plus(actual)
      ensures reservations == old(reservations)[id := old(reservations)[id].(closed := true)]
    {
      hide Implements, Counters.Minus, Counters.Plus;
      ghost var e := Settled(view.book[id].line, view.book[id].estimate, actual);
      ClosedImplements(reserved, consumed, reservations, view, id, e);
      reserved := reserved.Minus(reservations[id].estimate);
      consumed := consumed.Plus(actual);
      reservations := reservations[id := reservations[id].(closed := true)];
      view := ClosedAs(view, id, e);
    }

    method Release(id: string) returns (err: Option<BudgetError>)
      requires Valid()
      modifies this
      ensures Valid()
      ensures err == BudgetRefusal(old(view), LedgerOp.Release(id))
      ensures view == AfterOp(old(view), LedgerOp.Release(id))
      ensures log == old(log) + [LedgerOp.Release(id)]
      // accepted exactly for an open reservation; its estimate is given up and nothing consumed
      ensures err.None? <==> id in old(reservations) && !old(reservations)[id].closed
      ensures err.None? ==> reserved == old(reserved).Minus(old(reservations)[id].estimate) && consumed == old(consumed)
      ensures err.None? ==> reservations == old(reservations)[id := old(reservations)[id].(closed := true)]
      ensures err.Some? ==> reserved == old(reserved) && consumed == old(consumed) && reservations == old(reservations)
    {
      LedgerSnoc(origin, log, LedgerOp.Release(id));
      RowOf(reserved, consumed, reservations, view, id);
      hide RunLedger, Implements;
      log := log + [LedgerOp.Release(id)];
      if id !in reservations { return Some(Missing); }
      if reservations[id].closed { return Some(AlreadyClosed); }
      LetGo(id);
      return None;
    }

    /** Closes an open reservation without spending. */
    method LetGo(id: string)
      requires Consistent() && id in reservations && id in view.book && view.book[id].Open?
      modifies this`reservations, this`reserved, this`view
      ensures Consistent()
      ensures view == ClosedAs(old(view), id, Released(old(view).book[id].line, old(view).book[id].estimate))
      ensures reserved == old(reserved).Minus(old(reservations)[id].estimate)
      ensures reservations == old(reservations)[id := old(reservations)[id].(closed := true)]
    {
      hide Implements, Counters.Minus;
      ReleasedImplements(reserved, consumed, reservations, view, id);
      reserved := reserved.Minus(reservations[id].estimate);
      reservations := reservations[id := reservations[id].(closed := true)];
      view := ClosedAs(view, id, Released(view.book[id].line, view.book[id].estimate));
    }

    method Exhausted() returns (r: bool)
      requires Valid()
      ensures r <==> !WithinLimit(Committed(view), limit)
      ensures r <==> !KeepsLimits(reserved, consumed, limit)
    {
      r := !WithinLimit(reserved.Plus(consumed), limit);
    }

    /** The operations of other workers between two calls of one worker. */
    method Interleave(ops: seq<LedgerOp>)
      requires Valid()
      modifies this
      ensures Valid()
      ensures view == RunLedger(old(view), ops)
      ensures log == old(log) + ops
    {
      hide Counters.Plus, Counters.Minus, Counters.NonNegative, KeepsLimits, Implements, BudgetRefusal, AfterOp;
      for i := 0 to |ops|
        invariant Valid()
        invariant log == old(log) + ops[..i]
        invariant RunLedger(view, ops[i..]) == RunLedger(old(view), ops)
      {
        var op := ops[i];
        assert ops[i..][0] == op && ops[i..][1..] == ops[i + 1..];
        assert ops[..i + 1] == ops[..i] + [op];
        match op {
          case Reserve(id, estimate) => var _ := Reserve(id, "", "", estimate);
          case Settle(id, actual) => var _ := Settle(id, actual);
          case Release(id) => var _ := Release(id);
        }
      }
      assert ops[..|ops|] == ops;
    }
  }
}
