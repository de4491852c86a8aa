// The agent's economy: receipts, wallet, ledger, policy and one economic cycle.
module EarnOrHalt {
  import opened Options
  import opened Sorting

  const HALT_TIMEOUT := 30 * 86400
  const RECEIPT_TTL := 30 * 86400
  const STARTER_AMOUNT := 10_000
  const MAX_AMOUNT := 1_000_000 * 1_000_000_000_000_000_000
  const COMMONS := "commons_pool"
  const CLIENT := "mock_client_v1"
  const MOCK_LLM := "mock_llm_v1"
  const MOCK_QUOTE := (2048 / 1000 + 1) * 100

  // Identifiers are terms over what they are derived from.
  datatype JobId = Loop(index: nat) | NamedJob(text: string)
  datatype ReceiptId = Derived(issuer: string, job: JobId, ts: int) | NamedReceipt(text: string)

  datatype Kind = Earned | Expense

  datatype Receipt = Receipt(
    id: ReceiptId, issuer: string, subject: string, amount: int, ts: int, ttl: int, signature: string, job: JobId,
    kind: Kind)

  datatype Deposit = Deposit(id: string, sender: string, subject: string, amount: int, ts: int)

  datatype Purse = Purse(
    version: string, balanceEarned: int, balanceDeposits: int, revenueTotal: int, costTotal: int)
  {
    function Balance(): int { balanceEarned + balanceDeposits }

    function Profit(): int { revenueTotal - costTotal }
  }

  datatype Books = Books(receipts: seq<Receipt>, deposits: seq<Deposit>)

  datatype HaltReason = NegativeMargin | InsufficientBalance | OutsideTopTimeout

  datatype HaltRecord = HaltRecord(version: string, ts: int, reason: HaltReason, finalBalance: int)

  datatype WalletError = SubjectMismatch | InsufficientFunds

  datatype Rejection = Expired | AmountNotPositive | AmountTooLarge | NotWhitelisted | DuplicateJob
                     | MissingSignature | DuplicateReceipt

  // An empty whitelist admits everyone.
  datatype Gate = Gate(providers: set<string>, clients: set<string>)

  // ---- wallet ----

  function CreditEarned(p: Purse, r: Receipt): Purse {
    p.(balanceEarned := p.balanceEarned + r.amount, revenueTotal := p.revenueTotal + r.amount)
  }

  function CreditDeposit(p: Purse, d: Deposit): Purse {
    p.(balanceDeposits := p.balanceDeposits + d.amount)
  }

  function DebitError(p: Purse, r: Receipt): Option<WalletError> {
    if r.subject != p.version then Some(SubjectMismatch)
    else if r.amount > p.Balance() then Some(InsufficientFunds)
    else None
  }

  // Deposits are spent before earnings.
  function DebitExpense(p: Purse, r: Receipt): Purse {
    var fromDeposit := if p.balanceDeposits <= r.amount then p.balanceDeposits else r.amount;
    p.(balanceDeposits := p.balanceDeposits - fromDeposit,
       balanceEarned := p.balanceEarned - (r.amount - fromDeposit),
       costTotal := p.costTotal + r.amount)
  }

  function Drain(p: Purse): Purse {
    p.(balanceEarned := 0, balanceDeposits := 0)
  }

  // ---- ledger ----

  predicate HasId(rows: seq<Receipt>, id: ReceiptId) {
    exists i :: 0 <= i < |rows| && rows[i].id == id
  }

  predicate HasJob(rows: seq<Receipt>, issuer: string, job: JobId) {
    exists i :: 0 <= i < |rows| && rows[i].issuer == issuer && rows[i].job == job
  }

  predicate HasDeposit(rows: seq<Deposit>, id: string) {
    exists i :: 0 <= i < |rows| && rows[i].id == id
  }

  predicate Matches(r: Receipt, version: string, kind: Option<Kind>, since: Option<int>) {
    && r.subject == version
    && (kind.Some? ==> r.kind == kind.value)
    && (since.Some? ==> r.ts >= since.value)
  }

  function Matching(version: string, kind: Option<Kind>, since: Option<int>): Receipt -> bool {
    r => Matches(r, version, kind, since)
  }

  function ReceiptsFor(rows: seq<Receipt>, version: string, kind: Option<Kind>, since: Option<int>): seq<Receipt> {
    Select(rows, Matching(version, kind, since))
  }

  // ---- store ----

  function Amounts(rows: seq<Receipt>): int {
    if rows == [] then 0 else rows[0].amount + Amounts(rows[1..])
  }

  function Revenue(rows: seq<Receipt>, version: string, since: Option<int>): int {
    Amounts(ReceiptsFor(rows, version, Some(Earned), since))
  }

  function Cost(rows: seq<Receipt>, version: string, since: Option<int>): int {
    Amounts(ReceiptsFor(rows, version, Some(Expense), since))
  }

  function LatestTs(rows: seq<Receipt>): int
    requires rows != []
  {
    if |rows| == 1 then rows[0].ts
    else
      var rest := LatestTs(rows[1..]);
      if rows[0].ts >= rest then rows[0].ts else rest
  }

  function LastEarned(rows: seq<Receipt>, version: string): int {
    var earned := ReceiptsFor(rows, version, Some(Earned), None);
    if earned == [] then 0 else LatestTs(earned)
  }

  function Deposited(rows: seq<Deposit>, version: string): int {
    if rows == [] then 0
    else (if rows[0].subject == version then rows[0].amount else 0) + Deposited(rows[1..], version)
  }

  // ---- verifier ----

  function Verdict(gate: Gate, rows: seq<Receipt>, r: Receipt, now: int): Option<Rejection> {
    var admitted := if r.kind.Earned? then gate.clients else gate.providers;
    if now > r.ts + r.ttl then Some(Expired)
    else if r.amount <= 0 then Some(AmountNotPositive)
    else if r.amount > MAX_AMOUNT then Some(AmountTooLarge)
    else if admitted != {} && r.issuer !in admitted then Some(NotWhitelisted)
    else if HasJob(rows, r.issuer, r.job) then Some(DuplicateJob)
    else if r.signature == "" then Some(MissingSignature)
    else None
  }

  function StoreVerdict(gate: Gate, rows: seq<Receipt>, r: Receipt, now: int): Option<Rejection> {
    var verdict := Verdict(gate, rows, r, now);
    if verdict.Some? then verdict
    else if HasId(rows, r.id) then Some(DuplicateReceipt)
    else None
  }

  // ---- policy ----

  predicate CanAfford(p: Purse, cost: int) {
    cost <= 0 || p.Balance() >= cost
  }

  function ShouldHalt(p: Purse, lastEarned: int, now: int): Option<HaltRecord> {
    if p.Balance() <= 0 && p.Profit() <= 0 then
      Some(HaltRecord(p.version, now, InsufficientBalance, 0))
    else if p.Profit() < 0 && p.Balance() < -p.Profit() then
      Some(HaltRecord(p.version, now, NegativeMargin, p.Balance()))
    else if now - lastEarned > HALT_TIMEOUT then
      Some(HaltRecord(p.version, now, OutsideTopTimeout, p.Balance()))
    else None
  }

  // ---- one economic cycle ----

  // What the clock, the provider and the client contribute. The provider may
  // fail, or return any expense receipt whatever it quoted.
  datatype Inputs = Inputs(
    job: JobId, quoted: int, bill: Option<Receipt>,
    refusedAt: int, billedAt: int, paidAt: int, bookedAt: int, checkedAt: int, clientSignature: string)

  // How a cycle ended: with the reason it logs, or with a halt record.
  datatype CycleEnd =
    | CannotAfford | ProviderFailed | BillRejected(why: Rejection) | BillForeign | BillUnpaid
    | PaymentRejected(why: Rejection) | Continues | Halts(record: HaltRecord)

  datatype Agent = Agent(gate: Gate, purse: Purse, books: Books)

  function Store(a: Agent, r: Receipt): Agent {
    a.(books := a.books.(receipts := a.books.receipts + [r]))
  }

  function Payment(version: string, i: Inputs): Receipt {
    Receipt(Derived(CLIENT, i.job, i.paidAt), CLIENT, version, i.quoted * 2, i.paidAt, RECEIPT_TTL,
            i.clientSignature, i.job, Earned)
  }

  // Asks the policy; a halt empties the wallet.
  function Conclude(a: Agent, now: int, otherwise: CycleEnd): (Agent, CycleEnd) {
    match ShouldHalt(a.purse, LastEarned(a.books.receipts, a.purse.version), now)
    case Some(record) => (a.(purse := Drain(a.purse)), Halts(record))
    case None => (a, otherwise)
  }

  function Collect(a: Agent, i: Inputs): (Agent, CycleEnd) {
    var payment := Payment(a.purse.version, i);
    var verdict := StoreVerdict(a.gate, a.books.receipts, payment, i.bookedAt);
    if verdict.Some? then (a, PaymentRejected(verdict.value))
    else
      var paid := Store(a, payment);
      Conclude(paid.(purse := CreditEarned(paid.purse, payment)), i.checkedAt, Continues)
  }

  function Cycle(a: Agent, i: Inputs): (Agent, CycleEnd) {
    if !CanAfford(a.purse, i.quoted) then Conclude(a, i.refusedAt, CannotAfford)
    else if i.bill.None? then (a, ProviderFailed)
    else
      var bill := i.bill.value.(kind := Expense);
      var verdict := StoreVerdict(a.gate, a.books.receipts, bill, i.billedAt);
      if verdict.Some? then (a, BillRejected(verdict.value))
      else
        var billed := Store(a, bill);
        match DebitError(billed.purse, bill)
        case Some(SubjectMismatch) => (billed, BillForeign)
        case Some(InsufficientFunds) => (billed, BillUnpaid)
        case None => Collect(billed.(purse := DebitExpense(billed.purse, bill)), i)
  }

  // A fresh runtime on an empty ledger asks the commons for its starter credit.
  function StarterDeposit(version: string, now: int): Deposit {
    Deposit("starter_" + version, COMMONS, version, STARTER_AMOUNT, now)
  }

  function Start(version: string, gate: Gate, now: int): Agent {
    var starter := StarterDeposit(version, now);
    Agent(gate, CreditDeposit(Purse(version, 0, 0, 0, 0), starter), Books([], [starter]))
  }
}
