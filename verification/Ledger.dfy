/** The settlement protocol as a transition system. The state is what the
    database holds, the two kinds of worker and the withdrawal poller; every
    step is one call a thread makes, together with the way it came out. Threads
    interleave freely, and any call may fail. */
module Ledger {
  import opened Currency
  import Helius
  import opened PaymentMatch

  datatype Item = Session(id: string) | Withdrawal(id: string)

  datatype Status = AwaitingReview | Pending | Processing | Completed | Failed | Cancelled | Expired

  /** A row of deposit_sessions or withdrawals. The terms are a session's; from
      the hash on, the fields are a withdrawal's: its cents, its amount times its
      rate, its reservation. */
  datatype Row = Row(
    user: string, status: Status, createdAt: int, terms: Terms,
    hash: string, usdCents: nat, units: real, reservedCents: nat, released: bool)

  /** A user's USD row of balances. */
  datatype Balance = Balance(cents: int, units: real, reserved: int)
  {
    function Total(): int { cents + reserved }
  }

  /** What has been written to transactions and to balances, in order. A record
      has the transfer it was made for; a balance write names the position of
      the transaction record it was made for. */
  datatype Entry =
    | Recorded(item: Item, cents: int, payment: Payment)
    | Wrote(item: Item, user: string, cents: int, units: real, record: nat)
    | MarkedFailed(item: Item)

  datatype Exit =
    | NotClaimed | LeftProcessing | Duplicate | Settled
    | Reset | ResetFailed | MarkedAsFailed | MarkingFailed

  /** Where a worker is: the call it makes next. */
  datatype Pc =
    | Start
    | Claimed
    | Checking(attempt: nat)
    | Recording(cents: int, units: real, payment: Payment)
    | Reading(cents: int, units: real, record: nat)
    | Writing(cents: int, units: real, record: nat, seen: Balance)
    | Releasing
    | Completing
    | Failing
    | FailReleasing
    | FailSaving
    | Resetting
    | Done(exit: Exit)

  /** `hash` is the hash the poller read when it collected the item. */
  datatype Worker = Worker(item: Item, hash: string, pc: Pc)
  {
    /** Past the claim, and not finished. */
    predicate Active() { !pc.Start? && !pc.Done? }
  }

  datatype Snapshot = Snapshot(item: Item, hash: string)

  /** The poller marking a withdrawal failed: status, release, status again. */
  datatype Job = Idle | Update(item: Item) | Release(item: Item) | Save(item: Item)

  datatype World = World(
    retries: nat,
    interval: nat,                // between two polls
    now: int,
    rows: map<Item, Row>,
    balances: map<string, Balance>,
    log: seq<Entry>,
    workers: map<nat, Worker>,
    page: map<Item, string>,      // what is left of the page of withdrawals the poller read
    job: Job,
    backlog: multiset<Snapshot>,  // collected withdrawals
    held: set<Item>)              // bookkeeping: withdrawals whose release step has not run

  /** How a chain check comes out. Unpaid is "not verified" without an error. */
  datatype Answer = Paid(payment: Payment, rate: real) | Unpaid | Transient | Permanent
  {
    /** The client never answers "not verified" without an error. */
    predicate FromClient() {
      Helius.PossibleAnswer(Paid?, Transient? || Permanent?)
    }
  }

  datatype Outcome = Ok | Err | Leave | Chain(answer: Answer)

  datatype Event =
    | Tick(now: int)
    // Other services
    | OpenSession(item: Item, user: string, terms: Terms)
    | OpenWithdrawal(item: Item, row: Row)
    | Approve(item: Item)
    | SetHash(item: Item, hash: string)
    | Cancel(item: Item)
    // The session poller: an expiry write, and a worker launched
    | Expire(item: Item)
    | StartSession(worker: nat, item: Item)
    // The withdrawal poller
    | LoadPage(page: map<Item, string>)
    | Pass(item: Item)
    | Collect(item: Item)
    | Mark(item: Item)
    | Work(ok: bool)
    | StartWithdrawal(worker: nat, snapshot: Snapshot)
    // A worker's next call
    | Call(worker: nat, outcome: Outcome)

  // ---- The statements of queries.sql ----

  function ReserveBalance(balances: map<string, Balance>, user: string, c: nat): map<string, Balance> {
    if user in balances && balances[user].cents >= c then
      balances[user := balances[user].(cents := balances[user].cents - c, reserved := balances[user].reserved + c)]
    else balances
  }

  function ReleaseReservedBalance(balances: map<string, Balance>, user: string, c: nat): map<string, Balance> {
    if user in balances && balances[user].reserved >= c then
      balances[user := balances[user].(cents := balances[user].cents + c, reserved := balances[user].reserved - c)]
    else balances
  }

  function UpdateBalance(balances: map<string, Balance>, user: string, cents: int, units: real): map<string, Balance> {
    if user in balances then balances[user := balances[user].(cents := cents, units := units)] else balances
  }

  /** The status updates of both tables, CompleteDepositSession included.
      COALESCE keeps the stored hash when none is given. */
  function UpdateRow(row: Row, status: Status, hash: string): Row {
    row.(status := status, hash := if hash != "" then hash else row.hash)
  }

  /** What one call on behalf of an item does to the store. */
  datatype Change =
    | Nothing
    | SetStatus(status: Status, hash: string)
    | FailRow(hash: string)                                             // a status update, and noted
    | Create(cents: int, payment: Payment)                              // CreateTransaction
    | Write(cents: int, units: real, entry: Entry)                      // UpdateBalance
    | FreeReservation                                                   // ReleaseReservedBalance

  function Apply(w: World, item: Item, change: Change): World
    requires item in w.rows
  {
    var row := w.rows[item];
    match change
    case Nothing => w
    case SetStatus(status, hash) => w.(rows := w.rows[item := UpdateRow(row, status, hash)])
    case FailRow(hash) => w.(rows := w.rows[item := UpdateRow(row, Failed, hash)], log := w.log + [MarkedFailed(item)])
    case Create(cents, payment) => w.(log := w.log + [Recorded(item, cents, payment)])
    case Write(cents, units, entry) =>
      w.(balances := UpdateBalance(w.balances, row.user, cents, units), log := w.log + [entry])
    case FreeReservation =>
      w.(balances := ReleaseReservedBalance(w.balances, row.user, row.reservedCents), held := w.held - {item})
  }

  // ---- A worker's calls ----

  /** A deposit adds, a withdrawal takes. */
  function Signed(item: Item, cents: int): int {
    if item.Session? then cents else -cents
  }

  function SignedUnits(item: Item, units: real): real {
    if item.Session? then units else -units
  }

  /** A session is paid by a transfer that settles it, of no negative amount. */
  predicate FitsAnswer(item: Item, row: Row, answer: Answer) {
    answer.Paid? ==>
      && answer.rate >= 0.0
      && (item.Session? ==> Pays(answer.payment, row.terms) && Amount(answer.payment, row.terms.decimals) >= 0.0)
  }

  predicate Fits(item: Item, row: Row, pc: Pc, outcome: Outcome) {
    match pc
    case Done(_) => false
    case Claimed => outcome.Ok? || outcome.Leave?
    case Checking(_) => outcome.Chain? && FitsAnswer(item, row, outcome.answer)
    case Recording(_, _, _) => outcome.Ok? || outcome.Err? || outcome.Leave?
    case _ => outcome.Ok? || outcome.Err?
  }

  function AfterCheck(item: Item, row: Row, retries: nat, attempt: nat, answer: Answer): Pc {
    match answer
    case Paid(payment, rate) =>
      if item.Session? then
        var amount := Amount(payment, row.terms.decimals);
        Recording(CryptoToUSDCents(amount, rate), amount * rate, payment)
      else Recording(row.usdCents, row.units, payment)
    case Unpaid =>
      if attempt < retries then Checking(attempt + 1) else if item.Session? then Resetting else Failing
    case Transient => if attempt < retries then Checking(attempt + 1) else Resetting
    case Permanent => Resetting
  }

  /** Where a call takes the worker, and what it changes in the store. */
  datatype Effect = Effect(pc: Pc, change: Change)

  /** The read-compute-write: the new balance is worked out from the one seen. */
  function WriteEffect(item: Item, row: Row, pc: Pc, ok: bool): Effect
    requires pc.Writing?
  {
    var newCents := pc.seen.cents + Signed(item, pc.cents);
    var newUnits := pc.seen.units + SignedUnits(item, pc.units);
    if newCents < 0 || newUnits < 0.0 || !ok then Effect(Resetting, Nothing)
    else
      Effect(if item.Session? || row.released then Completing else Releasing,
             Write(newCents, newUnits, Wrote(item, row.user, pc.cents, pc.units, pc.record)))
  }

  function CallEffect(w: World, worker: Worker, outcome: Outcome): Effect
    requires worker.item in w.rows && Fits(worker.item, w.rows[worker.item], worker.pc, outcome)
  {
    var item, hash := worker.item, worker.hash;
    var row := w.rows[item];
    match worker.pc
    case Start =>
      if outcome.Ok? && row.status == Pending then Effect(Claimed, SetStatus(Processing, ""))
      else Effect(Done(NotClaimed), Nothing)
    case Claimed =>
      Effect(if outcome.Leave? then Done(LeftProcessing)
             else if item.Withdrawal? && hash == "" then Failing
             else Checking(0), Nothing)
    case Checking(attempt) => Effect(AfterCheck(item, row, w.retries, attempt, outcome.answer), Nothing)
    case Recording(cents, units, payment) =>
      if outcome.Ok? then Effect(Reading(cents, units, |w.log|), Create(cents, payment))
      else Effect(if outcome.Leave? then Done(Duplicate) else Resetting, Nothing)
    case Reading(cents, units, record) =>
      Effect(if outcome.Ok? && row.user in w.balances then Writing(cents, units, record, w.balances[row.user])
             else Resetting, Nothing)
    case Writing(_, _, _, _) => WriteEffect(item, row, worker.pc, outcome.Ok?)
    case Releasing => if outcome.Ok? then Effect(Completing, FreeReservation) else Effect(Resetting, Nothing)
    case Completing =>
      if outcome.Ok? then Effect(Done(Settled), SetStatus(Completed, hash)) else Effect(Resetting, Nothing)
    case Failing =>
      if outcome.Ok? then Effect(if row.released then Done(MarkedAsFailed) else FailReleasing, FailRow(hash))
      else Effect(Done(MarkingFailed), Nothing)
    case FailReleasing =>
      if outcome.Ok? then Effect(FailSaving, FreeReservation) else Effect(Done(MarkedAsFailed), Nothing)
    case FailSaving => Effect(Done(MarkedAsFailed), if outcome.Ok? then SetStatus(Failed, hash) else Nothing)
    case Resetting =>
      if outcome.Ok? then Effect(Done(Reset), SetStatus(Pending, "")) else Effect(Done(ResetFailed), Nothing)
    case Done(_) => Effect(worker.pc, Nothing)
  }

  predicate CanCall(w: World, k: nat, outcome: Outcome) {
    && k in w.workers && w.workers[k].item in w.rows
    && Fits(w.workers[k].item, w.rows[w.workers[k].item], w.workers[k].pc, outcome)
  }

  function EffectOf(w: World, k: nat, outcome: Outcome): Effect
    requires CanCall(w, k, outcome)
  {
    CallEffect(w, w.workers[k], outcome)
  }

  function AfterCall(w: World, k: nat, effect: Effect): World
    requires k in w.workers && w.workers[k].item in w.rows
  {
    Apply(w, w.workers[k].item, effect.change).(workers := w.workers[k := w.workers[k].(pc := effect.pc)])
  }

  /** The poller's calls for a withdrawal without a hash. */
  function JobChange(job: Job): Change {
    match job
    case Idle => Nothing
    case Update(_) => FailRow("")
    case Release(_) => FreeReservation
    case Save(_) => SetStatus(Failed, "")
  }

  function NextJob(w: World): Job
    requires !w.job.Idle? && w.job.item in w.rows
  {
    match w.job
    case Update(item) => if w.rows[item].released then Idle else Release(item)
    case Release(item) => Save(item)
    case Save(_) => Idle
  }

  function AfterWork(w: World, ok: bool): World
    requires !w.job.Idle? && w.job.item in w.rows
  {
    if ok then Apply(w, w.job.item, JobChange(w.job)).(job := NextJob(w)) else w.(job := Idle)
  }

  predicate Enabled(w: World, e: Event) {
    match e
    case Tick(now) => now >= w.now
    case OpenSession(item, _, _) => item.Session? && item !in w.rows
    case OpenWithdrawal(item, row) =>
      item.Withdrawal? && item !in w.rows && (row.status == Pending || row.status == AwaitingReview)
      && row.createdAt == w.now && !row.released
    case Approve(item) => item in w.rows && w.rows[item].status == AwaitingReview
    case SetHash(item, hash) => item in w.rows && item.Withdrawal? && hash != ""
    case Cancel(item) => item in w.rows && w.rows[item].status == Pending
    case Expire(item) => item in w.rows && item.Session?
    case StartSession(k, item) => k !in w.workers && item in w.rows && item.Session?
    case LoadPage(page) =>
      && w.page == map[] && w.job.Idle?
      && forall i :: i in page ==>
           i in w.rows && i.Withdrawal? && w.rows[i].status == Pending && page[i] == w.rows[i].hash
    case Pass(item) => item in w.page && w.job.Idle?
    case Collect(item) => item in w.page && w.job.Idle? && w.page[item] != ""
    case Mark(item) =>
      && item in w.page && w.job.Idle? && w.page[item] == ""
      && item in w.rows && w.now - w.rows[item].createdAt >= 2 * w.interval
    case Work(_) => !w.job.Idle? && w.job.item in w.rows
    case StartWithdrawal(k, s) => k !in w.workers && s in w.backlog
    case Call(k, outcome) => CanCall(w, k, outcome)
  }

  /** The steps that only write a row. */
  predicate RowStep(e: Event) {
    e.Approve? || e.SetHash? || e.Cancel? || e.Expire?
  }

  function RowChange(w: World, e: Event): Change
    requires RowStep(e) && e.item in w.rows
  {
    match e
    case Approve(_) => SetStatus(Pending, "")
    case SetHash(item, hash) => SetStatus(w.rows[item].status, hash)
    case Cancel(_) => SetStatus(Cancelled, "")
    case Expire(_) => SetStatus(Expired, "")
  }

  function Next(w: World, e: Event): World
    requires Enabled(w, e)
  {
    if RowStep(e) then Apply(w, e.item, RowChange(w, e))
    else
      match e
      case Tick(now) => w.(now := now)
      case OpenSession(item, user, terms) =>
        w.(rows := w.rows[item := Row(user, Pending, w.now, terms, "", 0, 0.0, 0, false)])
      case OpenWithdrawal(item, row) =>
        w.(rows := w.rows[item := row], balances := ReserveBalance(w.balances, row.user, row.reservedCents),
           held := w.held + {item})
      case StartSession(k, item) => w.(workers := w.workers[k := Worker(item, "", Start)])
      case LoadPage(page) => w.(page := page)
      case Pass(item) => w.(page := w.page - {item})
      case Collect(item) =>
        w.(page := w.page - {item}, backlog := w.backlog + multiset{Snapshot(item, w.page[item])})
      case Mark(item) => w.(page := w.page - {item}, job := Update(item))
      case Work(ok) => AfterWork(w, ok)
      case StartWithdrawal(k, s) =>
        w.(workers := w.workers[k := Worker(s.item, s.hash, Start)], backlog := w.backlog - multiset{s})
      case Call(k, outcome) => AfterCall(w, k, EffectOf(w, k, outcome))
  }

  // ---- Runs ----

  /** Every step of the run is possible, and is one the hypothesis allows. */
  ghost predicate Along(w: World, run: seq<Event>, allowed: (World, Event) -> bool)
    decreases |run|
  {
    run == [] || (Enabled(w, run[0]) && allowed(w, run[0]) && Along(Next(w, run[0]), run[1..], allowed))
  }

  ghost predicate IsRun(w: World, run: seq<Event>) {
    Along(w, run, Anything)
  }

  predicate Anything(w: World, e: Event) {
    true
  }

  /** No call fails, and every check finds the payment. */
  predicate NothingFails(w: World, e: Event) {
    && (e.Call? ==> e.outcome.Ok? || (e.outcome.Chain? && e.outcome.answer.Paid?))
    && (e.Work? ==> e.ok)
  }

  ghost function Final(w: World, run: seq<Event>): World
    requires IsRun(w, run)
    decreases |run|
  {
    if run == [] then w else Final(Next(w, run[0]), run[1..])
  }

  lemma {:induction false} AlongIsRun(w: World, run: seq<Event>, allowed: (World, Event) -> bool)
    requires Along(w, run, allowed)
    ensures IsRun(w, run)
    decreases |run|
  {
    if run != [] {
      AlongIsRun(Next(w, run[0]), run[1..], allowed);
    }
  }

  /** The run obeys the hypothesis and ends in `after`. */
  ghost predicate Leads(w: World, run: seq<Event>, after: World, allowed: (World, Event) -> bool) {
    Along(w, run, allowed) && IsRun(w, run) && Final(w, run) == after
  }

  /** It holds in every state of the run. */
  ghost predicate Throughout(w: World, run: seq<Event>, holds: World -> bool)
    decreases |run|
  {
    holds(w) && (run == [] || (Enabled(w, run[0]) && Throughout(Next(w, run[0]), run[1..], holds)))
  }

  /** One run after another. */
  lemma {:induction false} Join(w: World, run: seq<Event>, mid: World, more: seq<Event>, after: World,
                                allowed: (World, Event) -> bool)
    requires Leads(w, run, mid, allowed) && Leads(mid, more, after, allowed)
    ensures Leads(w, run + more, after, allowed)
    decreases |run|
  {
    if run == [] {
      assert run + more == more;
    } else {
      assert (run + more)[1..] == run[1..] + more;
      Join(Next(w, run[0]), run[1..], mid, more, after, allowed);
    }
  }

  lemma {:induction false} Weaken(w: World, run: seq<Event>, allowed: (World, Event) -> bool,
                                  weaker: (World, Event) -> bool)
    requires Along(w, run, allowed) && forall v, e :: allowed(v, e) ==> weaker(v, e)
    ensures Along(w, run, weaker)
    decreases |run|
  {
    if run != [] {
      Weaken(Next(w, run[0]), run[1..], allowed, weaker);
    }
  }

  /** No thread is under way yet. */
  ghost predicate Quiet(w: World) {
    w.log == [] && w.workers == map[] && w.page == map[] && w.job.Idle? && w.backlog == multiset{}
  }
}
