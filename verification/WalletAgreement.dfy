// What every run of economic cycles keeps, and where it can break.
module WalletAgreement {
  import opened Options
  import opened Sorting
  import opened EarnOrHalt

  // ---- sums over the ledger ----

  lemma {:induction false} SelectLast<T>(xs: seq<T>, x: T, p: T -> bool)
    ensures Select(xs + [x], p) == Select(xs, p) + if p(x) then [x] else []
  {
    SelectNext(xs + [x], |xs|, p);
    assert (xs + [x])[..|xs| + 1] == xs + [x] && (xs + [x])[..|xs|] == xs;
  }

  lemma {:induction false} AmountsLast(rows: seq<Receipt>, r: Receipt)
    ensures Amounts(rows + [r]) == Amounts(rows) + r.amount
  {
    if rows == [] {
      assert rows + [r] == [r];
      assert [r][1..] == [];
    } else {
      AmountsLast(rows[1..], r);
      assert (rows + [r])[1..] == rows[1..] + [r];
    }
  }

  // What recording one receipt does to the recomputed totals.
  lemma RecordedSums(rows: seq<Receipt>, r: Receipt, version: string)
    ensures Revenue(rows + [r], version, None) ==
            Revenue(rows, version, None) + if r.subject == version && r.kind.Earned? then r.amount else 0
    ensures Cost(rows + [r], version, None) ==
            Cost(rows, version, None) + if r.subject == version && r.kind.Expense? then r.amount else 0
  {
    hide ReceiptsFor, Amounts;
    SumLast(rows, r, version, Earned);
    SumLast(rows, r, version, Expense);
  }

  lemma SumLast(rows: seq<Receipt>, r: Receipt, version: string, kind: Kind)
    ensures Amounts(ReceiptsFor(rows + [r], version, Some(kind), None)) ==
            Amounts(ReceiptsFor(rows, version, Some(kind), None))
            + if r.subject == version && r.kind == kind then r.amount else 0
  {
    hide Select, Amounts;
    var before := ReceiptsFor(rows, version, Some(kind), None);
    SelectLast(rows, r, Matching(version, Some(kind), None));
    AmountsLast(before, r);
    assert before + [] == before;
  }

  // ---- the wallet agrees with the ledger ----

  ghost predicate Agrees(a: Agent) {
    && a.purse.revenueTotal == Revenue(a.books.receipts, a.purse.version, None)
    && a.purse.costTotal == Cost(a.books.receipts, a.purse.version, None)
  }

  // Revenue and cost on the ledger that the wallet does not know of.
  function RevenueGap(a: Agent): int {
    Revenue(a.books.receipts, a.purse.version, None) - a.purse.revenueTotal
  }

  function CostGap(a: Agent): int {
    Cost(a.books.receipts, a.purse.version, None) - a.purse.costTotal
  }

  // A stored bill for this version that the wallet cannot pay.
  predicate Overbilled(a: Agent, i: Inputs) {
    && CanAfford(a.purse, i.quoted)
    && i.bill.Some?
    && StoreVerdict(a.gate, a.books.receipts, i.bill.value.(kind := Expense), i.billedAt).None?
    && i.bill.value.subject == a.purse.version
    && i.bill.value.amount > a.purse.Balance()
  }

  lemma CollectGaps(a: Agent, i: Inputs)
    ensures RevenueGap(Collect(a, i).0) == RevenueGap(a)
    ensures CostGap(Collect(a, i).0) == CostGap(a)
  {
    hide Revenue, Cost, StoreVerdict, LastEarned;
    RecordedSums(a.books.receipts, Payment(a.purse.version, i), a.purse.version);
  }

  // Whatever the provider does, a cycle changes the gaps only when it is
  // overbilled: then the whole bill is on the ledger but was never debited.
  lemma CycleGaps(a: Agent, i: Inputs)
    ensures RevenueGap(Cycle(a, i).0) == RevenueGap(a)
    ensures CostGap(Cycle(a, i).0) == CostGap(a) + if Overbilled(a, i) then i.bill.value.amount else 0
    ensures Overbilled(a, i) ==> i.bill.value.amount > 0 && Cycle(a, i).1.BillUnpaid?
  {
    hide Revenue, Cost, Verdict, LastEarned, Collect;
    if CanAfford(a.purse, i.quoted) && i.bill.Some? {
      var bill := i.bill.value.(kind := Expense);
      RecordedSums(a.books.receipts, bill, a.purse.version);
      if StoreVerdict(a.gate, a.books.receipts, bill, i.billedAt).None? {
        StoredIsPositive(a.gate, a.books.receipts, bill, i.billedAt);
        var billed := Store(a, bill);
        if DebitError(billed.purse, bill).None? {
          CollectGaps(billed.(purse := DebitExpense(billed.purse, bill)), i);
        }
      }
    }
  }

  lemma StoredIsPositive(gate: Gate, rows: seq<Receipt>, r: Receipt, now: int)
    requires StoreVerdict(gate, rows, r, now).None?
    ensures 0 < r.amount <= MAX_AMOUNT
  {
  }

  // A provider that bills what it quoted never overbills.
  lemma HonestNeverOverbills(a: Agent, i: Inputs)
    requires i.bill.Some? ==> i.bill.value.amount == i.quoted
    ensures !Overbilled(a, i)
  {
  }

  // ---- no job is counted twice ----

  ghost predicate Unique(rows: seq<Receipt>) {
    forall i, j | 0 <= i < j < |rows| ::
      rows[i].id != rows[j].id && (rows[i].issuer, rows[i].job) != (rows[j].issuer, rows[j].job)
  }

  lemma StoredStaysUnique(gate: Gate, rows: seq<Receipt>, r: Receipt, now: int)
    requires Unique(rows) && StoreVerdict(gate, rows, r, now).None?
    ensures Unique(rows + [r])
  {
    forall i | 0 <= i < |rows|
      ensures rows[i].id != r.id && (rows[i].issuer, rows[i].job) != (r.issuer, r.job)
    {
      assert !HasId(rows, r.id) && !HasJob(rows, r.issuer, r.job);
    }
  }

  lemma CycleStaysUnique(a: Agent, i: Inputs)
    requires Unique(a.books.receipts)
    ensures Unique(Cycle(a, i).0.books.receipts)
  {
    hide Unique, StoreVerdict, LastEarned, ShouldHalt;
    if CanAfford(a.purse, i.quoted) && i.bill.Some? {
      var bill := i.bill.value.(kind := Expense);
      if StoreVerdict(a.gate, a.books.receipts, bill, i.billedAt).None? {
        StoredStaysUnique(a.gate, a.books.receipts, bill, i.billedAt);
        var billed, payment := Store(a, bill), Payment(a.purse.version, i);
        if StoreVerdict(a.gate, billed.books.receipts, payment, i.bookedAt).None? {
          StoredStaysUnique(a.gate, billed.books.receipts, payment, i.bookedAt);
        }
      }
    }
  }

  // ---- every unit is a deposit or a profit ----

  ghost predicate Funded(a: Agent) {
    && a.purse.balanceEarned >= 0
    && a.purse.balanceDeposits >= 0
    && a.purse.Balance() == Deposited(a.books.deposits, a.purse.version) + a.purse.Profit()
  }

  // Until a halt the balance is deposits plus profit; the halt record carries
  // that balance, and nothing is left in the wallet.
  lemma CycleFunded(a: Agent, i: Inputs)
    requires Funded(a)
    ensures var (b, end) := Cycle(a, i);
            && (!end.Halts? ==> Funded(b))
            && (end.Halts? ==>
                  && b.purse.Balance() == 0 <= end.record.finalBalance
                  && end.record.finalBalance == Deposited(b.books.deposits, b.purse.version) + b.purse.Profit())
  {
    hide Deposited, LastEarned, Verdict, HasId;
    if CanAfford(a.purse, i.quoted) && i.bill.Some? {
      var bill := i.bill.value.(kind := Expense);
      if StoreVerdict(a.gate, a.books.receipts, bill, i.billedAt).None? {
        StoredIsPositive(a.gate, a.books.receipts, bill, i.billedAt);
        if DebitError(a.purse, bill).None? {
          CollectFunded(Store(a, bill).(purse := DebitExpense(a.purse, bill)), i);
        }
      }
    }
  }

  lemma CollectFunded(a: Agent, i: Inputs)
    requires Funded(a)
    ensures var (b, end) := Collect(a, i);
            && (!end.Halts? ==> Funded(b))
            && (end.Halts? ==>
                  && b.purse.Balance() == 0 <= end.record.finalBalance
                  && end.record.finalBalance == Deposited(b.books.deposits, b.purse.version) + b.purse.Profit())
  {
    hide Deposited, LastEarned, Verdict, HasId;
    var payment := Payment(a.purse.version, i);
    if StoreVerdict(a.gate, a.books.receipts, payment, i.bookedAt).None? {
      StoredIsPositive(a.gate, a.books.receipts, payment, i.bookedAt);
    }
  }

  // ---- losses ----

  // The policy lets the agent go on exactly while it has money or profit, its
  // loss is at most half of its deposits, and its last earning is recent.
  lemma PolicyExact(a: Agent, lastEarned: int, now: int)
    requires Funded(a)
    ensures ShouldHalt(a.purse, lastEarned, now).None? <==>
            && (a.purse.Balance() > 0 || a.purse.Profit() > 0)
            && 2 * -a.purse.Profit() <= Deposited(a.books.deposits, a.purse.version)
            && now - lastEarned <= HALT_TIMEOUT
  {
    hide Deposited;
    assert Deposited(a.books.deposits, a.purse.version) == a.purse.Balance() - a.purse.Profit();
  }

  // A cycle that ends at the policy without a halt has lost at most half of
  // the deposits; one that ends before may have lost all of them, but no more.
  lemma LossBounded(a: Agent, i: Inputs)
    requires Funded(a)
    ensures var (b, end) := Cycle(a, i);
            var loss, deposits := -b.purse.Profit(), Deposited(b.books.deposits, b.purse.version);
            && loss <= deposits
            && (end.Continues? || end.CannotAfford? ==> 2 * loss <= deposits)
  {
    hide Deposited, StoreVerdict, LastEarned;
    CycleFunded(a, i);
    var (b, end) := Cycle(a, i);
    if end.Continues? || end.CannotAfford? {
      PolicyPassed(a, i);
      PolicyExact(b, LastEarned(b.books.receipts, b.purse.version),
                  if end.Continues? then i.checkedAt else i.refusedAt);
    }
  }

  lemma PolicyPassed(a: Agent, i: Inputs)
    ensures var (b, end) := Cycle(a, i);
            end.Continues? || end.CannotAfford? ==>
              ShouldHalt(b.purse, LastEarned(b.books.receipts, b.purse.version),
                         if end.Continues? then i.checkedAt else i.refusedAt).None?
  {
    hide StoreVerdict, LastEarned;
  }

  // The bill is stored and paid, and the payment for the work is then refused.
  predicate PaymentRefused(a: Agent, i: Inputs) {
    && CanAfford(a.purse, i.quoted)
    && i.bill.Some?
    && var bill := i.bill.value.(kind := Expense);
       && StoreVerdict(a.gate, a.books.receipts, bill, i.billedAt).None?
       && DebitError(a.purse, bill).None?
       && StoreVerdict(a.gate, a.books.receipts + [bill], Payment(a.purse.version, i), i.bookedAt).Some?
  }

  // A cycle takes the loss past half of the deposits without a halt exactly when
  // the payment is refused and the bill alone is more than the loss could bear.
  lemma LossPassesHalf(a: Agent, i: Inputs)
    requires Funded(a)
    ensures var (b, end) := Cycle(a, i);
            var deposits := Deposited(a.books.deposits, a.purse.version);
            (2 * -a.purse.Profit() <= deposits && !end.Halts? && 2 * -b.purse.Profit() > deposits)
            <==> (&& 2 * -a.purse.Profit() <= deposits
                  && PaymentRefused(a, i)
                  && 2 * (i.bill.value.amount - a.purse.Profit()) > deposits)
  {
    hide Deposited, StoreVerdict, LastEarned;
    LossBounded(a, i);
    CycleFunded(a, i);
  }
}
