// The agent as objects: a wallet, a ledger, a verifier and the runtime that
// steps through them, each call doing what its specification function says.
module AgentMachine {
  import opened Options
  import opened Sorting
  import opened EarnOrHalt
  import AgentRuns

  class Wallet {
    const versionId: string
    var balanceEarned: int
    var balanceDeposits: int
    var earnedRevenueTotal: int
    var costTotal: int

    function Contents(): Purse
      reads this
    {
      Purse(versionId, balanceEarned, balanceDeposits, earnedRevenueTotal, costTotal)
    }

    constructor (versionId: string)
      ensures Contents() == Purse(versionId, 0, 0, 0, 0)
    {
      this.versionId := versionId;
      balanceEarned, balanceDeposits, earnedRevenueTotal, costTotal := 0, 0, 0, 0;
    }

    method CreditEarnedReceipt(r: Receipt) returns (error: Option<WalletError>)
      modifies this
      ensures error == if r.subject != versionId then Some(SubjectMismatch) else None
      ensures Contents() == if error.Some? then old(Contents()) else CreditEarned(old(Contents()), r)
    {
      if r.subject != versionId { return Some(SubjectMismatch); }
      balanceEarned := balanceEarned + r.amount;
      earnedRevenueTotal := earnedRevenueTotal + r.amount;
      return None;
    }

    method CreditDepositTo(d: Deposit) returns (error: Option<WalletError>)
      modifies this
      ensures error == if d.subject != versionId then Some(SubjectMismatch) else None
      ensures Contents() == if error.Some? then old(Contents()) else CreditDeposit(old(Contents()), d)
    {
      if d.subject != versionId { return Some(SubjectMismatch); }
      balanceDeposits := balanceDeposits + d.amount;
      return None;
    }

    method Debit(r: Receipt) returns (error: Option<WalletError>)
      modifies this
      ensures error == DebitError(old(Contents()), r)
      ensures Contents() == if error.Some? then old(Contents()) else DebitExpense(old(Contents()), r)
    {
      if r.subject != versionId { return Some(SubjectMismatch); }
      if r.amount > balanceEarned + balanceDeposits { return Some(InsufficientFunds); }
      var fromDeposit := if balanceDeposits <= r.amount then balanceDeposits else r.amount;
      var fromEarned := r.amount - fromDeposit;
      balanceDeposits := balanceDeposits - fromDeposit;
      balanceEarned := balanceEarned - fromEarned;
      costTotal := costTotal + r.amount;
      return None;
    }

    method TransferResidual() returns (residual: int)
      modifies this
      ensures residual == old(Contents()).Balance()
      ensures Contents() == Drain(old(Contents()))
    {
      residual := balanceEarned + balanceDeposits;
      balanceEarned := 0;
      balanceDeposits := 0;
    }
  }

  // The tables of the ledger; inserting is refused on a repeated primary key.
  class Ledger {
    var receipts: seq<Receipt>
    var deposits: seq<Deposit>

    function Contents(): Books
      reads this
    {
      Books(receipts, deposits)
    }

    constructor ()
      ensures Contents() == Books([], [])
    {
      receipts, deposits := [], [];
    }

    method IngestReceipt(r: Receipt) returns (inserted: bool)
      modifies this`receipts
      ensures inserted == !HasId(old(receipts), r.id)
      ensures inserted <==> forall x | x in old(receipts) :: x.id != r.id
      ensures receipts == if inserted then old(receipts) + [r] else old(receipts)
    {
      for i := 0 to |receipts|
        invariant !HasId(receipts[..i], r.id)
        invariant receipts == old(receipts)
      {
        if receipts[i].id == r.id { return false; }
        assert forall k | 0 <= k < i :: receipts[..i][k] == receipts[k];
      }
      assert receipts[..|receipts|] == receipts;
      receipts := receipts + [r];
      return true;
    }

    method IngestDeposit(d: Deposit) returns (inserted: bool)
      modifies this`deposits
      ensures inserted <==> forall x | x in old(deposits) :: x.id != d.id
      ensures deposits == if inserted then old(deposits) + [d] else old(deposits)
    {
      inserted := !HasDeposit(deposits, d.id);
      if inserted { deposits := deposits + [d]; }
    }

    method HasReceipt(issuer: string, job: JobId) returns (found: bool)
      ensures found == HasJob(receipts, issuer, job)
      ensures found <==> exists x :: x in receipts && x.issuer == issuer && x.job == job
    {
      found := false;
      for i := 0 to |receipts|
        invariant !HasJob(receipts[..i], issuer, job)
      {
        if receipts[i].issuer == issuer && receipts[i].job == job { return true; }
        assert forall k | 0 <= k < i :: receipts[..i][k] == receipts[k];
      }
      assert receipts[..|receipts|] == receipts;
    }

    method ReceiptsOf(version: string, kind: Option<Kind>, since: Option<int>) returns (out: seq<Receipt>)
      ensures out == ReceiptsFor(receipts, version, kind, since)
    {
      hide Select;
      ghost var p := Matching(version, kind, since);
      out := [];
      SelectNone(p);
      for i := 0 to |receipts|
        invariant out == Select(receipts[..i], p)
      {
        var row := receipts[i];
        SelectNext(receipts, i, p);
        if row.subject == version && (kind.None? || row.kind == kind.value) && (since.None? || row.ts >= since.value) {
          out := out + [row];
        }
      }
      assert receipts[..|receipts|] == receipts;
    }
  }

  class ReceiptVerifier {
    const ledger: Ledger
    const gate: Gate

    constructor (ledger: Ledger, gate: Gate)
      ensures this.ledger == ledger && this.gate == gate
    {
      this.ledger := ledger;
      this.gate := gate;
    }

    method Verify(r: Receipt, now: int) returns (rejection: Option<Rejection>)
      ensures rejection == Verdict(gate, ledger.receipts, r, now)
    {
      if now > r.ts + r.ttl { return Some(Expired); }
      if r.amount <= 0 { return Some(AmountNotPositive); }
      if r.amount > MAX_AMOUNT { return Some(AmountTooLarge); }
      if r.kind.Earned? {
        if gate.clients != {} && r.issuer !in gate.clients { return Some(NotWhitelisted); }
      } else {
        if gate.providers != {} && r.issuer !in gate.providers { return Some(NotWhitelisted); }
      }
      var duplicate := ledger.HasReceipt(r.issuer, r.job);
      if duplicate { return Some(DuplicateJob); }
      if r.signature == "" { return Some(MissingSignature); }
      return None;
    }

    method VerifyAndStore(r: Receipt, now: int) returns (rejection: Option<Rejection>)
      modifies ledger`receipts
      ensures rejection == StoreVerdict(gate, old(ledger.receipts), r, now)
      ensures ledger.receipts == if rejection.None? then old(ledger.receipts) + [r] else old(ledger.receipts)
    {
      rejection := Verify(r, now);
      if rejection.Some? { return; }
      var inserted := ledger.IngestReceipt(r);
      if !inserted { return Some(DuplicateReceipt); }
    }
  }

  class Runtime {
    const wallet: Wallet
    const ledger: Ledger
    const verifier: ReceiptVerifier

    predicate Valid()
      reads this
    {
      verifier.ledger == ledger
    }

    function Contents(): Agent
      reads this, wallet, ledger
    {
      Agent(verifier.gate, wallet.Contents(), ledger.Contents())
    }

    constructor (version: string, gate: Gate, now: int)
      ensures Valid() && fresh(wallet) && fresh(ledger) && fresh(verifier)
      ensures Contents() == Start(version, gate, now)
    {
      var w := new Wallet(version);
      var l := new Ledger();
      var v := new ReceiptVerifier(l, gate);
      var known := l.ReceiptsOf(version, None, None);
      if known == [] {
        var starter := StarterDeposit(version, now);
        var _ := l.IngestDeposit(starter);
        var _ := w.CreditDepositTo(starter);
      }
      wallet, ledger, verifier := w, l, v;
    }

    method LastEarnedTs() returns (ts: int)
      requires Valid()
      ensures ts == LastEarned(ledger.receipts, wallet.versionId)
    {
      var earned := ledger.ReceiptsOf(wallet.versionId, Some(Earned), None);
      ts := if earned == [] then 0 else LatestTs(earned);
    }

    // Asks the policy and, on a halt, hands the residual over.
    method AskPolicy(now: int, otherwise: CycleEnd) returns (end: CycleEnd)
      requires Valid()
      modifies wallet
      ensures (Contents(), end) == Conclude(old(Contents()), now, otherwise)
    {
      hide LastEarned;
      var last := LastEarnedTs();
      var halt := ShouldHalt(wallet.Contents(), last, now);
      if halt.Some? {
        var _ := wallet.TransferResidual();
        return Halts(halt.value);
      }
      return otherwise;
    }

    method RunEconomicCycle(i: Inputs) returns (end: CycleEnd)
      requires Valid()
      modifies wallet, ledger
      ensures (Contents(), end) == Cycle(old(Contents()), i)
    {
      hide StoreVerdict, ShouldHalt, LastEarned;
      if !CanAfford(wallet.Contents(), i.quoted) {
        end := AskPolicy(i.refusedAt, CannotAfford);
        return;
      }
      if i.bill.None? { return ProviderFailed; }
      var bill := i.bill.value.(kind := Expense);
      var rejection := verifier.VerifyAndStore(bill, i.billedAt);
      if rejection.Some? { return BillRejected(rejection.value); }
      var unpaid := wallet.Debit(bill);
      if unpaid.Some? {
        return if unpaid.value.SubjectMismatch? then BillForeign else BillUnpaid;
      }
      end := CollectPayment(i);
    }

    method CollectPayment(i: Inputs) returns (end: CycleEnd)
      requires Valid()
      modifies wallet, ledger
      ensures (Contents(), end) == Collect(old(Contents()), i)
    {
      hide StoreVerdict, ShouldHalt, LastEarned;
      var payment := Payment(wallet.versionId, i);
      var rejection := verifier.VerifyAndStore(payment, i.bookedAt);
      if rejection.Some? { return PaymentRejected(rejection.value); }
      var _ := wallet.CreditEarnedReceipt(payment);
      end := AskPolicy(i.checkedAt, Continues);
    }

    // The mock run: 1 as soon as a cycle halts, 0 when all of them went by.
    method RunMock(clocks: seq<AgentRuns.Clock>) returns (exitCode: int)
      requires Valid()
      modifies wallet, ledger
      ensures exitCode == 0 ==>
                && AgentRuns.NoHaltBefore(old(Contents()), AgentRuns.MockRun(wallet.versionId, clocks), |clocks|)
                && Contents() == AgentRuns.AfterCycles(old(Contents()), AgentRuns.MockRun(wallet.versionId, clocks))
      ensures exitCode != 0 ==>
                && exitCode == 1
                && var start, run := old(Contents()), AgentRuns.MockRun(wallet.versionId, clocks);
                   exists k: nat :: k < |clocks| && AgentRuns.NoHaltBefore(start, run, k)
                                    && AgentRuns.EndAt(start, run, k).Halts?
                                    && Contents() == AgentRuns.AfterCycles(start, run[..k + 1])
    {
      hide Cycle;
      ghost var start, run := Contents(), AgentRuns.MockRun(wallet.versionId, clocks);
      for k := 0 to |clocks|
        invariant Contents() == AgentRuns.AfterCycles(start, run[..k])
        invariant AgentRuns.NoHaltBefore(start, run, k)
      {
        var i := AgentRuns.MockInputs(wallet.versionId, k, clocks[k]);
        var end := RunEconomicCycle(i);
        assert run[k] == i && end == AgentRuns.EndAt(start, run, k);
        assert run[..k + 1][..k] == run[..k];
        assert Contents() == AgentRuns.AfterCycles(start, run[..k + 1]);
        if end.Halts? { return 1; }
      }
      assert run[..|clocks|] == run;
      return 0;
    }
  }
}
