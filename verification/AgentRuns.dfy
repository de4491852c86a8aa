// Whole runs of an agent that started on an empty ledger.
module AgentRuns {
  import opened Options
  import opened Sorting
  import opened EarnOrHalt
  import opened WalletAgreement

  function AfterCycles(a: Agent, inputs: seq<Inputs>): Agent {
    if inputs == [] then a
    else
      var last := |inputs| - 1;
      Cycle(AfterCycles(a, inputs[..last]), inputs[last]).0
  }

  // The agent before cycle k of a run, and how that cycle ends.
  function Before(a: Agent, inputs: seq<Inputs>, k: nat): Agent
    requires k <= |inputs|
  {
    AfterCycles(a, inputs[..k])
  }

  function EndAt(a: Agent, inputs: seq<Inputs>, k: nat): CycleEnd
    requires k < |inputs|
  {
    Cycle(Before(a, inputs, k), inputs[k]).1
  }

  lemma BeforePrefix(a: Agent, inputs: seq<Inputs>, n: nat, k: nat)
    requires k <= n <= |inputs|
    ensures Before(a, inputs[..n], k) == Before(a, inputs, k)
  {
    assert inputs[..n][..k] == inputs[..k];
  }

  ghost predicate NeverOverbilled(a: Agent, inputs: seq<Inputs>) {
    forall k: nat | k < |inputs| :: !Overbilled(Before(a, inputs, k), inputs[k])
  }

  lemma NeverOverbilledLast(a: Agent, inputs: seq<Inputs>)
    requires inputs != []
    ensures var last := |inputs| - 1;
            NeverOverbilled(a, inputs) <==>
              NeverOverbilled(a, inputs[..last]) && !Overbilled(AfterCycles(a, inputs[..last]), inputs[last])
  {
    hide AfterCycles, Overbilled;
    var last := |inputs| - 1;
    forall k: nat | k < last
      ensures Overbilled(Before(a, inputs[..last], k), inputs[..last][k]) == Overbilled(Before(a, inputs, k), inputs[k])
    {
      BeforePrefix(a, inputs, last, k);
    }
    if NeverOverbilled(a, inputs[..last]) && !Overbilled(AfterCycles(a, inputs[..last]), inputs[last]) {
      forall k: nat | k < |inputs| ensures !Overbilled(Before(a, inputs, k), inputs[k]) {
        if k < last {
          assert !Overbilled(Before(a, inputs[..last], k), inputs[..last][k]);
        }
      }
    }
  }

  lemma {:induction false} RunGaps(version: string, gate: Gate, now: int, inputs: seq<Inputs>)
    ensures var a := AfterCycles(Start(version, gate, now), inputs);
            && a.purse.version == version
            && RevenueGap(a) == 0
            && CostGap(a) >= 0
            && (CostGap(a) == 0 <==> NeverOverbilled(Start(version, gate, now), inputs))
  {
    hide Overbilled, NeverOverbilled, Cycle;
    var start := Start(version, gate, now);
    if inputs == [] {
      NothingYet(start);
    } else {
      var last := |inputs| - 1;
      RunGaps(version, gate, now, inputs[..last]);
      CycleGaps(AfterCycles(start, inputs[..last]), inputs[last]);
      CycleVersion(AfterCycles(start, inputs[..last]), inputs[last]);
      NeverOverbilledLast(start, inputs);
    }
  }

  lemma NothingYet(a: Agent)
    ensures NeverOverbilled(a, [])
  {
  }

  lemma CycleVersion(a: Agent, i: Inputs)
    ensures Cycle(a, i).0.purse.version == a.purse.version
    ensures Cycle(a, i).0.books.deposits == a.books.deposits
    ensures Cycle(a, i).0.gate == a.gate
  {
    hide StoreVerdict, LastEarned, ShouldHalt;
  }

  // After any run, with any provider, the wallet's totals equal the sums
  // recomputed from the ledger if and only if no cycle was overbilled.
  lemma RunAgrees(version: string, gate: Gate, now: int, inputs: seq<Inputs>)
    ensures Agrees(AfterCycles(Start(version, gate, now), inputs)) <==>
            NeverOverbilled(Start(version, gate, now), inputs)
  {
    hide AfterCycles, NeverOverbilled, Revenue, Cost;
    RunGaps(version, gate, now, inputs);
  }

  // A provider that quotes 300 and bills 20000 breaks the agreement in one cycle.
  lemma OverbilledBreaks()
    ensures var a := Start("v1", Gate({}, {}), 0);
            var bill := Receipt(NamedReceipt("r"), MOCK_LLM, "v1", 20_000, 0, RECEIPT_TTL, "sig", Loop(0), Expense);
            var i := Inputs(Loop(0), MOCK_QUOTE, Some(bill), 0, 0, 0, 0, 0, "sig");
            Overbilled(a, i) && !Agrees(AfterCycles(a, [i]))
  {
    hide Cycle, Agrees;
    var a := Start("v1", Gate({}, {}), 0);
    var bill := Receipt(NamedReceipt("r"), MOCK_LLM, "v1", 20_000, 0, RECEIPT_TTL, "sig", Loop(0), Expense);
    var i := Inputs(Loop(0), MOCK_QUOTE, Some(bill), 0, 0, 0, 0, 0, "sig");
    assert [i][..0] == [];
    assert Before(a, [i], 0) == a;
    RunAgrees("v1", Gate({}, {}), 0, [i]);
  }

  // In particular with a provider that always bills what it quoted.
  lemma HonestRunAgrees(version: string, gate: Gate, now: int, inputs: seq<Inputs>)
    requires forall i | i in inputs :: i.bill.Some? ==> i.bill.value.amount == i.quoted
    ensures Agrees(AfterCycles(Start(version, gate, now), inputs))
  {
    hide AfterCycles, Overbilled, Agrees;
    var start := Start(version, gate, now);
    forall k: nat | k < |inputs| ensures !Overbilled(Before(start, inputs, k), inputs[k]) {
      assert inputs[k] in inputs;
      HonestNeverOverbills(Before(start, inputs, k), inputs[k]);
    }
    RunAgrees(version, gate, now, inputs);
  }

  // No (issuer, job) pair and no receipt id is ever recorded twice.
  lemma {:induction false} RunStaysUnique(version: string, gate: Gate, now: int, inputs: seq<Inputs>)
    ensures Unique(AfterCycles(Start(version, gate, now), inputs).books.receipts)
  {
    hide Cycle;
    if inputs != [] {
      var last := |inputs| - 1;
      RunStaysUnique(version, gate, now, inputs[..last]);
      CycleStaysUnique(AfterCycles(Start(version, gate, now), inputs[..last]), inputs[last]);
    }
  }

  ghost predicate NoHaltBefore(a: Agent, inputs: seq<Inputs>, n: nat)
    requires n <= |inputs|
  {
    forall k: nat | k < n :: !EndAt(a, inputs, k).Halts?
  }

  lemma {:induction false} RunFunded(version: string, gate: Gate, now: int, inputs: seq<Inputs>, n: nat)
    requires n <= |inputs| && NoHaltBefore(Start(version, gate, now), inputs, n)
    ensures var a := Before(Start(version, gate, now), inputs, n);
            && Funded(a)
            && a.purse.version == version
            && Deposited(a.books.deposits, version) == STARTER_AMOUNT
  {
    hide Cycle;
    var start := Start(version, gate, now);
    if n == 0 {
      StarterFunds(version, now);
    } else {
      RunFunded(version, gate, now, inputs, n - 1);
      var a := Before(start, inputs, n - 1);
      assert inputs[..n][..n - 1] == inputs[..n - 1];
      assert !EndAt(start, inputs, n - 1).Halts?;
      CycleFunded(a, inputs[n - 1]);
      CycleVersion(a, inputs[n - 1]);
    }
  }

  lemma StarterFunds(version: string, now: int)
    ensures Deposited([StarterDeposit(version, now)], version) == STARTER_AMOUNT
  {
  }

  // Along a run the agent never loses more than its starter credit; a halt hands
  // over exactly credit plus profit; and where the policy lets it go on, it has
  // lost at most half of the credit.
  lemma RunLossBounded(version: string, gate: Gate, now: int, inputs: seq<Inputs>, k: nat)
    requires k < |inputs| && NoHaltBefore(Start(version, gate, now), inputs, k)
    ensures var (b, end) := Cycle(Before(Start(version, gate, now), inputs, k), inputs[k]);
            && -b.purse.Profit() <= STARTER_AMOUNT
            && (end.Continues? || end.CannotAfford? ==> 2 * -b.purse.Profit() <= STARTER_AMOUNT)
            && (end.Halts? ==> b.purse.Balance() == 0 && end.record.finalBalance == STARTER_AMOUNT + b.purse.Profit())
  {
    hide Cycle, Before, NoHaltBefore, Deposited, Funded;
    var a := Before(Start(version, gate, now), inputs, k);
    RunFunded(version, gate, now, inputs, k);
    CycleFunded(a, inputs[k]);
    CycleVersion(a, inputs[k]);
    LossBounded(a, inputs[k]);
  }

  // ---- the mock run ----

  datatype Clock = Clock(billed: int, verified: int, paid: int, booked: int, checked: int)

  // Receipts are verified before they expire, and the policy is asked within the timeout.
  predicate Timely(c: Clock) {
    && c.verified <= c.billed + RECEIPT_TTL
    && c.booked <= c.paid + RECEIPT_TTL
    && c.checked <= c.paid + HALT_TIMEOUT
  }

  const MOCK_GATE := Gate({MOCK_LLM, "mock_compute_v1"}, {CLIENT})

  function MockBill(version: string, k: nat, c: Clock): Receipt {
    Receipt(Derived(MOCK_LLM, Loop(k), c.billed), MOCK_LLM, version, MOCK_QUOTE, c.billed, RECEIPT_TTL, "sig", Loop(k),
            Expense)
  }

  function MockInputs(version: string, k: nat, c: Clock): Inputs {
    Inputs(Loop(k), MOCK_QUOTE, Some(MockBill(version, k, c)), c.billed, c.verified, c.paid, c.booked, c.checked, "sig")
  }

  function MockRun(version: string, clocks: seq<Clock>): seq<Inputs> {
    seq(|clocks|, k requires 0 <= k < |clocks| => MockInputs(version, k, clocks[k]))
  }

  ghost predicate Prospering(a: Agent, version: string, n: nat) {
    && a.gate == MOCK_GATE
    && a.purse.version == version
    && a.purse.revenueTotal == 2 * MOCK_QUOTE * n
    && a.purse.costTotal == MOCK_QUOTE * n
    && a.purse.Balance() == STARTER_AMOUNT + MOCK_QUOTE * n
    && |a.books.receipts| == 2 * n
    && Indexed(a.books.receipts, n)
  }

  // Every receipt belongs to one of the first n jobs, and its id says so.
  ghost predicate Indexed(rows: seq<Receipt>, n: nat) {
    forall r | r in rows :: exists j: nat, t: int :: j < n && r.job == Loop(j) && r.id == Derived(r.issuer, Loop(j), t)
  }

  lemma IndexedNext(rows: seq<Receipt>, bill: Receipt, payment: Receipt, n: nat)
    requires Indexed(rows, n)
    requires bill.job == Loop(n) && bill.id == Derived(bill.issuer, Loop(n), bill.ts)
    requires payment.job == Loop(n) && payment.id == Derived(payment.issuer, Loop(n), payment.ts)
    ensures Indexed(rows + [bill] + [payment], n + 1)
  {
    forall r | r in rows + [bill] + [payment]
      ensures exists j: nat, t: int :: j < n + 1 && r.job == Loop(j) && r.id == Derived(r.issuer, Loop(j), t)
    {
      if r in rows {
        var j: nat, t: int :| j < n && r.job == Loop(j) && r.id == Derived(r.issuer, Loop(j), t);
        assert j < n + 1;
      } else {
        assert r == bill || r == payment;
        assert r.id == Derived(r.issuer, Loop(n), r.ts);
      }
    }
  }

  lemma FreshJob(rows: seq<Receipt>, n: nat, issuer: string, ts: int)
    requires Indexed(rows, n)
    ensures !HasJob(rows, issuer, Loop(n)) && !HasId(rows, Derived(issuer, Loop(n), ts))
  {
    forall i | 0 <= i < |rows| ensures rows[i].job != Loop(n) && rows[i].id != Derived(issuer, Loop(n), ts) {
      assert rows[i] in rows;
    }
  }

  lemma {:induction false} LatestCovers(rows: seq<Receipt>, r: Receipt)
    requires r in rows
    ensures LatestTs(rows) >= r.ts
  {
    if |rows| > 1 && r in rows[1..] {
      LatestCovers(rows[1..], r);
    }
  }

  lemma PaidIsRecent(rows: seq<Receipt>, r: Receipt, version: string)
    requires r.subject == version && r.kind.Earned?
    ensures LastEarned(rows + [r], version) >= r.ts
  {
    hide LatestTs, Select;
    var earned := ReceiptsFor(rows + [r], version, Some(Earned), None);
    SelectLast(rows, r, Matching(version, Some(Earned), None));
    assert r in earned;
    LatestCovers(earned, r);
  }

  lemma MockCycle(a: Agent, version: string, n: nat, c: Clock)
    requires Prospering(a, version, n) && Timely(c)
    ensures var (b, end) := Cycle(a, MockInputs(version, n, c));
            end.Continues? && Prospering(b, version, n + 1)
  {
    hide HasJob, HasId, LastEarned, Indexed, Collect;
    var i := MockInputs(version, n, c);
    var bill, payment := MockBill(version, n, c), Payment(version, i);
    FreshJob(a.books.receipts, n, MOCK_LLM, c.billed);
    FreshJob(a.books.receipts, n, CLIENT, c.paid);
    FreshAfterBill(a.books.receipts, bill, n, c.paid);
    PaidIsRecent(a.books.receipts + [bill], payment, version);
    IndexedNext(a.books.receipts, bill, payment, n);
    Collected(Store(a, bill).(purse := DebitExpense(a.purse, bill)), i);
  }

  // A payment that is admitted while the agent is in profit ends the cycle well.
  lemma Collected(a: Agent, i: Inputs)
    requires StoreVerdict(a.gate, a.books.receipts, Payment(a.purse.version, i), i.bookedAt).None?
    requires a.purse.Balance() + 2 * i.quoted > 0 && a.purse.Profit() + 2 * i.quoted >= 0
    requires i.checkedAt - LastEarned(a.books.receipts + [Payment(a.purse.version, i)], a.purse.version) <= HALT_TIMEOUT
    ensures var payment := Payment(a.purse.version, i);
            Collect(a, i) == (Store(a, payment).(purse := CreditEarned(a.purse, payment)), Continues)
  {
    hide StoreVerdict, LastEarned;
  }

  lemma FreshAfterBill(rows: seq<Receipt>, bill: Receipt, n: nat, ts: int)
    requires !HasJob(rows, CLIENT, Loop(n)) && !HasId(rows, Derived(CLIENT, Loop(n), ts))
    requires bill.issuer == MOCK_LLM && bill.id.Derived? && bill.id.issuer == MOCK_LLM
    ensures !HasJob(rows + [bill], CLIENT, Loop(n)) && !HasId(rows + [bill], Derived(CLIENT, Loop(n), ts))
  {
    assert CLIENT != MOCK_LLM;
  }

  lemma MockRunPrefix(version: string, clocks: seq<Clock>)
    requires clocks != []
    ensures var last := |clocks| - 1;
            MockRun(version, clocks)[..last] == MockRun(version, clocks[..last])
  {
  }

  // However long it runs, the mock agent never halts and earns its quote every cycle.
  lemma {:induction false} MockRunProspers(version: string, now: int, clocks: seq<Clock>)
    requires forall c | c in clocks :: Timely(c)
    ensures Prospering(AfterCycles(Start(version, MOCK_GATE, now), MockRun(version, clocks)), version, |clocks|)
    ensures NoHaltBefore(Start(version, MOCK_GATE, now), MockRun(version, clocks), |clocks|)
  {
    hide Cycle, Prospering, Timely, EndAt;
    var start := Start(version, MOCK_GATE, now);
    if clocks == [] {
      MockStart(version, now);
    } else {
      var last := |clocks| - 1;
      var run := MockRun(version, clocks);
      MockRunProspers(version, now, clocks[..last]);
      MockRunPrefix(version, clocks);
      assert clocks[last] in clocks;
      MockCycle(AfterCycles(start, run[..last]), version, last, clocks[last]);
      EndsAlike(start, run, last);
    }
  }

  lemma MockStart(version: string, now: int)
    ensures Prospering(Start(version, MOCK_GATE, now), version, 0)
  {
  }

  lemma EndsAlike(a: Agent, inputs: seq<Inputs>, last: nat)
    requires last + 1 == |inputs| && NoHaltBefore(a, inputs[..last], last)
    requires !Cycle(AfterCycles(a, inputs[..last]), inputs[last]).1.Halts?
    ensures NoHaltBefore(a, inputs, |inputs|)
  {
    hide Cycle, AfterCycles;
    forall k: nat | k < |inputs| ensures !EndAt(a, inputs, k).Halts? {
      if k < last {
        BeforePrefix(a, inputs, last, k);
        assert !EndAt(a, inputs[..last], k).Halts?;
      }
    }
  }

  // ---- a run whose payments are refused ----

  // The provider is known to the gate and the client is not.
  predicate Unpaying(gate: Gate) {
    (gate.providers == {} || MOCK_LLM in gate.providers) && gate.clients != {} && CLIENT !in gate.clients
  }

  ghost predicate Starving(a: Agent, gate: Gate, version: string, n: nat) {
    && a.gate == gate
    && a.purse.version == version
    && a.purse.revenueTotal == 0
    && a.purse.costTotal == MOCK_QUOTE * n
    && a.purse.Balance() == STARTER_AMOUNT - MOCK_QUOTE * n
    && Indexed(a.books.receipts, n)
  }

  lemma StarvingCycle(a: Agent, gate: Gate, version: string, n: nat, c: Clock)
    requires Unpaying(gate) && Starving(a, gate, version, n) && MOCK_QUOTE * (n + 1) <= STARTER_AMOUNT
    requires Timely(c)
    ensures var (b, end) := Cycle(a, MockInputs(version, n, c));
            end == PaymentRejected(NotWhitelisted) && Starving(b, gate, version, n + 1)
  {
    hide HasJob, HasId, LastEarned, Indexed;
    var bill := MockBill(version, n, c);
    FreshJob(a.books.receipts, n, MOCK_LLM, c.billed);
    IndexedBill(a.books.receipts, bill, n);
  }

  lemma IndexedBill(rows: seq<Receipt>, bill: Receipt, n: nat)
    requires Indexed(rows, n) && bill.job == Loop(n) && bill.id == Derived(bill.issuer, Loop(n), bill.ts)
    ensures Indexed(rows + [bill], n + 1)
  {
    forall r | r in rows + [bill]
      ensures exists j: nat, t: int :: j < n + 1 && r.job == Loop(j) && r.id == Derived(r.issuer, Loop(j), t)
    {
      if r in rows {
        var j: nat, t: int :| j < n && r.job == Loop(j) && r.id == Derived(r.issuer, Loop(j), t);
        assert j < n + 1;
      } else {
        assert r == bill;
        assert r.id == Derived(r.issuer, Loop(n), r.ts);
      }
    }
  }

  // With the runtime's own provider, every cycle of such a run costs a quote,
  // earns nothing and ends without a halt, for as long as the credit lasts.
  lemma {:induction false} StarvingRun(version: string, gate: Gate, now: int, clocks: seq<Clock>)
    requires Unpaying(gate) && MOCK_QUOTE * |clocks| <= STARTER_AMOUNT
    requires forall c | c in clocks :: Timely(c)
    ensures Starving(AfterCycles(Start(version, gate, now), MockRun(version, clocks)), gate, version, |clocks|)
    ensures NoHaltBefore(Start(version, gate, now), MockRun(version, clocks), |clocks|)
  {
    hide Cycle, Starving, Timely, EndAt;
    var start := Start(version, gate, now);
    if clocks == [] {
      StarvingStart(version, gate, now);
    } else {
      var last := |clocks| - 1;
      var run := MockRun(version, clocks);
      StarvingRun(version, gate, now, clocks[..last]);
      MockRunPrefix(version, clocks);
      assert clocks[last] in clocks;
      StarvingCycle(AfterCycles(start, run[..last]), gate, version, last, clocks[last]);
      EndsAlike(start, run, last);
    }
  }

  lemma StarvingStart(version: string, gate: Gate, now: int)
    ensures Starving(Start(version, gate, now), gate, version, 0)
  {
  }

  // How many quotes the starter credit pays for.
  const AFFORDED := STARTER_AMOUNT / MOCK_QUOTE

  // The cycle after that cannot afford its quote, asks the policy and halts.
  lemma StarvedHalts(a: Agent, gate: Gate, version: string, c: Clock)
    requires Starving(a, gate, version, AFFORDED)
    ensures Cycle(a, MockInputs(version, AFFORDED, c)).1
            == Halts(HaltRecord(version, c.billed, NegativeMargin, STARTER_AMOUNT - MOCK_QUOTE * AFFORDED))
  {
    hide LastEarned, Indexed;
  }

  // Along such a run, however long, refused payments take the loss past half of
  // the credit at the 17th cycle and no sooner. No cycle halts before the 34th,
  // and that one does, with a balance of 100.
  lemma LossCanPassHalf(version: string, gate: Gate, now: int, clocks: seq<Clock>)
    requires Unpaying(gate)
    requires forall c | c in clocks :: Timely(c)
    ensures var start, run := Start(version, gate, now), MockRun(version, clocks);
            && (forall n: nat | n <= |run| && n <= AFFORDED ::
                  && NoHaltBefore(start, run, n)
                  && (2 * -Before(start, run, n).purse.Profit() > STARTER_AMOUNT <==> n >= 17))
            && (|run| > AFFORDED ==>
                  EndAt(start, run, AFFORDED)
                  == Halts(HaltRecord(version, clocks[AFFORDED].billed, NegativeMargin, 100)))
  {
    hide Cycle, AfterCycles, Timely, Unpaying, EndAt, Before;
    var start, run := Start(version, gate, now), MockRun(version, clocks);
    forall n: nat | n <= |run| && n <= AFFORDED
      ensures NoHaltBefore(start, run, n) && Starving(Before(start, run, n), gate, version, n)
    {
      StarvingPrefix(version, gate, now, clocks, n);
    }
    if |run| > AFFORDED {
      StarvedEnd(start, run, gate, version, clocks[AFFORDED]);
    }
  }

  lemma StarvingPrefix(version: string, gate: Gate, now: int, clocks: seq<Clock>, n: nat)
    requires Unpaying(gate) && n <= |clocks| && n <= AFFORDED
    requires forall c | c in clocks :: Timely(c)
    ensures NoHaltBefore(Start(version, gate, now), MockRun(version, clocks), n)
    ensures Starving(Before(Start(version, gate, now), MockRun(version, clocks), n), gate, version, n)
  {
    hide Cycle, AfterCycles, Timely, Unpaying, EndAt, Starving;
    var start, run := Start(version, gate, now), MockRun(version, clocks);
    assert run[..n] == MockRun(version, clocks[..n]);
    StarvingRun(version, gate, now, clocks[..n]);
    forall k: nat | k < n ensures !EndAt(start, run, k).Halts? {
      assert !EndAt(start, run[..n], k).Halts?;
      EndPrefix(start, run, n, k);
    }
  }

  lemma EndPrefix(a: Agent, inputs: seq<Inputs>, n: nat, k: nat)
    requires k < n <= |inputs|
    ensures EndAt(a, inputs[..n], k) == EndAt(a, inputs, k)
  {
    hide Cycle, Before;
    BeforePrefix(a, inputs, n, k);
  }

  lemma StarvedEnd(start: Agent, run: seq<Inputs>, gate: Gate, version: string, c: Clock)
    requires AFFORDED < |run| && run[AFFORDED] == MockInputs(version, AFFORDED, c)
    requires Starving(Before(start, run, AFFORDED), gate, version, AFFORDED)
    ensures EndAt(start, run, AFFORDED) == Halts(HaltRecord(version, c.billed, NegativeMargin, 100))
  {
    hide Cycle, Before, Starving, MockInputs;
    StarvedHalts(Before(start, run, AFFORDED), gate, version, c);
  }
}
