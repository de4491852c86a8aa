// What an economic cycle demands, pays and records, entry by entry.
module AgentRecords {
  import opened Options
  import opened Sorting
  import opened EarnOrHalt
  import opened WalletAgreement

  function Need(holds: bool, why: Rejection): Option<Rejection> {
    if holds then None else Some(why)
  }

  function Max(a: int, b: int): int { if a >= b then a else b }

  // ---- receipts ----

  predicate Admits(list: set<string>, issuer: string) { list == {} || issuer in list }

  function ListFor(gate: Gate, kind: Kind): set<string> {
    match kind
    case Earned => gate.clients
    case Expense => gate.providers
  }

  // A receipt is stored exactly when nothing is left to demand.
  function ReceiptDemands(gate: Gate, rows: seq<Receipt>, r: Receipt, now: int): Option<Rejection> {
    Need(now - r.ts <= r.ttl, Expired)
      .Or(Need(r.amount >= 1, AmountNotPositive))
      .Or(Need(r.amount <= 1_000_000_000_000_000_000_000_000, AmountTooLarge))
      .Or(Need(Admits(ListFor(gate, r.kind), r.issuer), NotWhitelisted))
      .Or(Need(forall x | x in rows :: x.issuer != r.issuer || x.job != r.job, DuplicateJob))
      .Or(Need(|r.signature| > 0, MissingSignature))
      .Or(Need(forall x | x in rows :: x.id != r.id, DuplicateReceipt))
  }

  lemma StoredExactly(gate: Gate, rows: seq<Receipt>, r: Receipt, now: int)
    ensures StoreVerdict(gate, rows, r, now) == ReceiptDemands(gate, rows, r, now)
  {
  }

  // The verifier alone asks everything but for the id.
  lemma VerifiedExactly(gate: Gate, rows: seq<Receipt>, r: Receipt, now: int)
    ensures Verdict(gate, rows, r, now).None? <==>
            ReceiptDemands(gate, rows, r, now) == None || ReceiptDemands(gate, rows, r, now) == Some(DuplicateReceipt)
    ensures Verdict(gate, rows, r, now).Some? ==> ReceiptDemands(gate, rows, r, now) == Verdict(gate, rows, r, now)
  {
  }

  // ---- the two buckets of the wallet ----

  // Deposits pay first: they fall by the bill or to nothing, and only what they
  // cannot cover comes out of earnings.
  lemma DepositsPayFirst(p: Purse, bill: Receipt)
    requires p.balanceDeposits >= 0 && bill.amount >= 0
    ensures var q := DebitExpense(p, bill);
            && q.balanceDeposits == Max(0, p.balanceDeposits - bill.amount)
            && (q.balanceEarned != p.balanceEarned ==> q.balanceDeposits == 0)
            && q.Balance() == p.Balance() - bill.amount
            && q.version == p.version && q.revenueTotal == p.revenueTotal && q.costTotal == p.costTotal + bill.amount
  {
  }

  // A debit is refused for another version's bill, and for one above the balance.
  lemma DebitExactly(p: Purse, bill: Receipt)
    ensures DebitError(p, bill).None? <==>
            bill.subject == p.version && bill.amount <= p.balanceEarned + p.balanceDeposits
    ensures DebitError(p, bill) == Some(SubjectMismatch) <==> bill.subject != p.version
  {
  }

  // Each credit goes to its own bucket, and only earnings count as revenue.
  lemma CreditsKeptApart(p: Purse, r: Receipt, d: Deposit)
    ensures var q := CreditEarned(p, r);
            q == Purse(p.version, p.balanceEarned + r.amount, p.balanceDeposits, p.revenueTotal + r.amount, p.costTotal)
    ensures var q := CreditDeposit(p, d);
            q == Purse(p.version, p.balanceEarned, p.balanceDeposits + d.amount, p.revenueTotal, p.costTotal)
  {
  }

  // ---- a cycle ----

  predicate Affords(a: Agent, i: Inputs) {
    i.quoted <= 0 || i.quoted <= a.purse.balanceEarned + a.purse.balanceDeposits
  }

  function BillOf(i: Inputs): Receipt
    requires i.bill.Some?
  {
    var r := i.bill.value;
    Receipt(r.id, r.issuer, r.subject, r.amount, r.ts, r.ttl, r.signature, r.job, Expense)
  }

  // The client pays twice the quote.
  function PaymentOf(a: Agent, i: Inputs): Receipt {
    Receipt(Derived("mock_client_v1", i.job, i.paidAt), "mock_client_v1", a.purse.version, i.quoted + i.quoted,
            i.paidAt, 2_592_000, i.clientSignature, i.job, Earned)
  }

  predicate Billed(a: Agent, i: Inputs) {
    Affords(a, i) && i.bill.Some? && ReceiptDemands(a.gate, a.books.receipts, BillOf(i), i.billedAt).None?
  }

  predicate Paid(a: Agent, i: Inputs) {
    Billed(a, i) && BillOf(i).subject == a.purse.version
    && BillOf(i).amount <= a.purse.balanceEarned + a.purse.balanceDeposits
  }

  predicate Sold(a: Agent, i: Inputs) {
    Paid(a, i) && ReceiptDemands(a.gate, a.books.receipts + [BillOf(i)], PaymentOf(a, i), i.bookedAt).None?
  }

  // What is stored: the bill, then the payment, and nothing else.
  function RowsAfter(a: Agent, i: Inputs): seq<Receipt> {
    a.books.receipts + (if Billed(a, i) then [BillOf(i)] else []) + (if Sold(a, i) then [PaymentOf(a, i)] else [])
  }

  // The wallet before the policy is asked.
  function PurseAfter(a: Agent, i: Inputs): Purse {
    var p := a.purse;
    var cost := if Paid(a, i) then BillOf(i).amount else 0;
    var gain := if Sold(a, i) then i.quoted + i.quoted else 0;
    Purse(p.version, p.balanceEarned + gain - Max(0, cost - p.balanceDeposits), Max(0, p.balanceDeposits - cost),
          p.revenueTotal + gain, p.costTotal + cost)
  }

  // When the policy is asked, if at all.
  function AskedAt(a: Agent, i: Inputs): Option<int> {
    if !Affords(a, i) then Some(i.refusedAt) else if Sold(a, i) then Some(i.checkedAt) else None
  }

  function ReasonAt(p: Purse, lastEarned: int, now: int): Option<HaltReason> {
    var balance, loss := p.balanceEarned + p.balanceDeposits, p.costTotal - p.revenueTotal;
    if balance <= 0 && loss >= 0 then Some(InsufficientBalance)
    else if loss > 0 && balance < loss then Some(NegativeMargin)
    else if now > lastEarned + 2_592_000 then Some(OutsideTopTimeout)
    else None
  }

  // Why the policy halts, and what it hands over.
  lemma HaltExactly(p: Purse, lastEarned: int, now: int)
    ensures var halt := ShouldHalt(p, lastEarned, now);
            && (match ReasonAt(p, lastEarned, now)
                case None => halt.None?
                case Some(why) =>
                  halt == Some(HaltRecord(p.version, now, why, if why.InsufficientBalance? then 0 else p.Balance())))
  {
  }

  // What a cycle leaves, for any inputs: the stored receipts, the two buckets and
  // the totals; a halt empties the buckets.
  lemma CycleExactly(a: Agent, i: Inputs)
    requires a.purse.balanceDeposits >= 0
    ensures var (b, end) := Cycle(a, i);
            var p := PurseAfter(a, i);
            var asked := AskedAt(a, i);
            var halted := asked.Some? && ReasonAt(p, LastEarned(RowsAfter(a, i), p.version), asked.value).Some?;
            && b.gate == a.gate && b.books == Books(RowsAfter(a, i), a.books.deposits)
            && b.purse == (if halted then Purse(p.version, 0, 0, p.revenueTotal, p.costTotal) else p)
            && (end.Halts? <==> halted)
            && (halted ==>
                  && end.record.version == p.version && end.record.ts == asked.value
                  && Some(end.record.reason) == ReasonAt(p, LastEarned(RowsAfter(a, i), p.version), asked.value)
                  && end.record.finalBalance == if end.record.reason.InsufficientBalance? then 0 else p.Balance())
  {
    hide LastEarned, ReceiptDemands, StoreVerdict;
    if i.bill.Some? {
      StoredExactly(a.gate, a.books.receipts, BillOf(i), i.billedAt);
      StoredExactly(a.gate, a.books.receipts + [BillOf(i)], PaymentOf(a, i), i.bookedAt);
      if Billed(a, i) {
        BillIsPositive(a.gate, a.books.receipts, BillOf(i), i.billedAt);
      }
    }
  }

  lemma BillIsPositive(gate: Gate, rows: seq<Receipt>, r: Receipt, now: int)
    requires ReceiptDemands(gate, rows, r, now).None?
    ensures r.amount > 0
  {
  }

  // Which exit a cycle takes.
  lemma ExitExactly(a: Agent, i: Inputs)
    requires a.purse.balanceDeposits >= 0
    ensures var end := Cycle(a, i).1;
            && (end.CannotAfford? ==> !Affords(a, i))
            && (end.ProviderFailed? <==> Affords(a, i) && i.bill.None?)
            && (end.BillRejected? <==> Affords(a, i) && i.bill.Some? && !Billed(a, i))
            && (end.BillRejected? ==> ReceiptDemands(a.gate, a.books.receipts, BillOf(i), i.billedAt) == Some(end.why))
            && (end.BillForeign? <==> Billed(a, i) && BillOf(i).subject != a.purse.version)
            && (end.BillUnpaid? <==> Billed(a, i) && BillOf(i).subject == a.purse.version && !Paid(a, i))
            && (end.PaymentRejected? <==> Paid(a, i) && !Sold(a, i))
            && (end.PaymentRejected? ==>
                  ReceiptDemands(a.gate, a.books.receipts + [BillOf(i)], PaymentOf(a, i), i.bookedAt) == Some(end.why))
            && (end.Continues? ==> Sold(a, i))
  {
    hide LastEarned, ReceiptDemands, StoreVerdict;
    if i.bill.Some? {
      StoredExactly(a.gate, a.books.receipts, BillOf(i), i.billedAt);
      StoredExactly(a.gate, a.books.receipts + [BillOf(i)], PaymentOf(a, i), i.bookedAt);
    }
  }

  // A fresh agent has its starter credit as a deposit, and nothing else.
  lemma StartExactly(version: string, gate: Gate, now: int)
    ensures Start(version, gate, now)
            == Agent(gate, Purse(version, 0, 10_000, 0, 0),
                     Books([], [Deposit("starter_" + version, "commons_pool", version, 10_000, now)]))
  {
  }

  // ---- sums over a window ----

  predicate Counts(r: Receipt, version: string, kind: Kind, since: Option<int>) {
    r.subject == version && r.kind == kind && (since.None? || r.ts >= since.value)
  }

  // Nothing on an empty ledger; one receipt adds its amount when it is of that
  // version and kind, and not older than the window.
  lemma WindowSums(rows: seq<Receipt>, r: Receipt, version: string, since: Option<int>)
    ensures Revenue([], version, since) == Cost([], version, since) == 0
    ensures Revenue(rows + [r], version, since)
            == Revenue(rows, version, since) + (if Counts(r, version, Earned, since) then r.amount else 0)
    ensures Cost(rows + [r], version, since)
            == Cost(rows, version, since) + (if Counts(r, version, Expense, since) then r.amount else 0)
  {
    hide Select, Amounts;
    WindowSum(rows, r, version, Earned, since);
    WindowSum(rows, r, version, Expense, since);
  }

  lemma WindowSum(rows: seq<Receipt>, r: Receipt, version: string, kind: Kind, since: Option<int>)
    ensures Amounts(ReceiptsFor([], version, Some(kind), since)) == 0
    ensures Amounts(ReceiptsFor(rows + [r], version, Some(kind), since))
            == Amounts(ReceiptsFor(rows, version, Some(kind), since))
               + (if Counts(r, version, kind, since) then r.amount else 0)
  {
    hide Select, Amounts;
    var before := ReceiptsFor(rows, version, Some(kind), since);
    SelectNone(Matching(version, Some(kind), since));
    assert Amounts([]) == 0 by { NoAmounts(); }
    SelectLast(rows, r, Matching(version, Some(kind), since));
    AmountsLast(before, r);
    assert before + [] == before;
  }

  lemma NoAmounts()
    ensures Amounts([]) == 0
  {
  }

  lemma {:induction false} DepositedLast(rows: seq<Deposit>, d: Deposit, version: string)
    ensures Deposited([], version) == 0
    ensures Deposited(rows + [d], version) == Deposited(rows, version) + (if d.subject == version then d.amount else 0)
  {
    if rows == [] {
      assert rows + [d] == [d] && [d][1..] == [];
    } else {
      DepositedLast(rows[1..], d, version);
      assert (rows + [d])[1..] == rows[1..] + [d];
    }
  }

  // ---- the last earning ----

  lemma {:induction false} LatestIsMax(rows: seq<Receipt>)
    requires rows != []
    ensures forall r | r in rows :: r.ts <= LatestTs(rows)
    ensures exists r :: r in rows && r.ts == LatestTs(rows)
  {
    if |rows| > 1 {
      LatestIsMax(rows[1..]);
      assert rows == [rows[0]] + rows[1..];
      assert rows[0] in rows;
    } else {
      assert rows[0] in rows;
    }
  }

  // The time of the latest earning of the version, or 0 when there is none.
  lemma LastEarnedExactly(rows: seq<Receipt>, version: string)
    ensures var last := LastEarned(rows, version);
            if forall r | r in rows :: !Counts(r, version, Earned, None) then last == 0
            else
              && (forall r | r in rows && Counts(r, version, Earned, None) :: r.ts <= last)
              && (exists r :: r in rows && Counts(r, version, Earned, None) && r.ts == last)
  {
    hide Select, LatestTs;
    var earned := ReceiptsFor(rows, version, Some(Earned), None);
    SelectMembers(rows, Matching(version, Some(Earned), None));
    assert forall r :: r in earned <==> r in rows && Counts(r, version, Earned, None);
    if earned == [] {
    } else {
      assert earned[0] in earned;
      LatestIsMax(earned);
    }
  }
}
