/** Where a user's money goes: what the balance and the reservation add up to,
    and how far the cents may drift from the units they are kept beside. */
module Conservation {
  import opened Currency
  import opened Exclusion
  import opened Ledger
  import opened Paths
  import opened PaymentMatch
  import opened Steps

  // ---- Nothing goes negative ----

  ghost predicate NonNegative(balances: map<string, Balance>) {
    forall u :: u in balances ==> balances[u].cents >= 0 && balances[u].units >= 0.0 && balances[u].reserved >= 0
  }

  lemma StepKeepsNonNegative(w: World, e: Event)
    requires NonNegative(w.balances) && Enabled(w, e)
    ensures NonNegative(Next(w, e).balances)
  {
    if e.Call? {
      var item, effect := w.workers[e.worker].item, EffectOf(w, e.worker, e.outcome);
      assert effect.change.Write? ==> effect.change.cents >= 0 && effect.change.units >= 0.0;
    }
  }

  /** In every run, whatever fails and however balance accesses overlap. */
  lemma {:induction false} BalancesStayNonNegative(w: World, run: seq<Event>)
    requires NonNegative(w.balances) && IsRun(w, run)
    ensures NonNegative(Final(w, run).balances)
    decreases |run|
  {
    if run != [] {
      StepKeepsNonNegative(w, run[0]);
      BalancesStayNonNegative(Next(w, run[0]), run[1..]);
    }
  }

  // ---- Conservation ----

  /** The cents, and the units, written to a user's balance, with their sign. */
  function SumCents(log: seq<Entry>, user: string): int {
    if log == [] then 0
    else
      var last := log[|log| - 1];
      SumCents(log[..|log| - 1], user) + if last.Wrote? && last.user == user then Signed(last.item, last.cents) else 0
  }

  function SumUnits(log: seq<Entry>, user: string): real {
    if log == [] then 0.0
    else
      var last := log[|log| - 1];
      SumUnits(log[..|log| - 1], user)
      + if last.Wrote? && last.user == user then SignedUnits(last.item, last.units) else 0.0
  }

  lemma SumsOfOneMore(log: seq<Entry>, e: Entry, user: string)
    ensures SumCents(log + [e], user) ==
            SumCents(log, user) + if e.Wrote? && e.user == user then Signed(e.item, e.cents) else 0
    ensures SumUnits(log + [e], user) ==
            SumUnits(log, user) + if e.Wrote? && e.user == user then SignedUnits(e.item, e.units) else 0.0
  {
    assert (log + [e])[..|log|] == log;
  }

  /** The step may change the amount in this user's balance row. */
  predicate Touches(w: World, e: Event, user: string) {
    match e
    case OpenWithdrawal(_, row) => row.user == user
    case Work(ok) => ok && w.job.Release? && w.job.item in w.rows && w.rows[w.job.item].user == user
    case Call(k, outcome) =>
      && outcome.Ok? && k in w.workers && w.workers[k].item in w.rows && w.rows[w.workers[k].item].user == user
      && (w.workers[k].pc.Writing? || w.workers[k].pc.Releasing? || w.workers[k].pc.FailReleasing?)
    case _ => false
  }

  /** The hypothesis: between a worker's read of a balance and its write, no
      other thread writes to that row. */
  ghost predicate Undisturbed(w: World, e: Event) {
    forall k :: k in w.workers && w.workers[k].pc.Writing? && w.workers[k].item in w.rows
                && Touches(w, e, w.rows[w.workers[k].item].user) ==>
      e.Call? && e.worker == k
  }

  ghost predicate Adds(balances: map<string, Balance>, log: seq<Entry>, opening: map<string, Balance>) {
    && balances.Keys == opening.Keys
    && (forall u :: u in balances ==>
          && balances[u].Total() == opening[u].Total() + SumCents(log, u)
          && balances[u].units == opening[u].units + SumUnits(log, u))
  }

  predicate Fresh(w: World, worker: Worker) {
    worker.pc.Writing? && worker.item in w.rows ==>
      && w.rows[worker.item].user in w.balances
      && w.balances[w.rows[worker.item].user].cents == worker.pc.seen.cents
      && w.balances[w.rows[worker.item].user].units == worker.pc.seen.units
  }

  ghost predicate AllFresh(w: World) {
    forall k :: k in w.workers ==> Fresh(w, w.workers[k])
  }

  /** If the step is a balance write, the amount it overwrites is the one its
      worker read. */
  ghost predicate WritesOverWhatItRead(w: World, e: Event) {
    e.Call? && CanCall(w, e.worker, e.outcome) && EffectOf(w, e.worker, e.outcome).change.Write? ==>
      var seen, user := w.workers[e.worker].pc.seen, w.rows[w.workers[e.worker].item].user;
      user in w.balances ==> w.balances[user].cents == seen.cents && w.balances[user].units == seen.units
  }

  lemma ReleaseKeepsTotals(balances: map<string, Balance>, user: string, c: nat, u: string)
    ensures ReleaseReservedBalance(balances, user, c).Keys == balances.Keys
    ensures u in balances ==>
              var after := ReleaseReservedBalance(balances, user, c)[u];
              && after.Total() == balances[u].Total() && after.units == balances[u].units
              && (u != user ==> after == balances[u])
  {
  }

  lemma ReserveKeepsTotals(balances: map<string, Balance>, user: string, c: nat, u: string)
    ensures ReserveBalance(balances, user, c).Keys == balances.Keys
    ensures u in balances ==>
              var after := ReserveBalance(balances, user, c)[u];
              && after.Total() == balances[u].Total() && after.units == balances[u].units
              && (u != user ==> after == balances[u])
  {
  }

  /** Changes of the store other than a balance write keep the sums. */
  lemma ChangeKeepsAdds(w: World, item: Item, change: Change, opening: map<string, Balance>)
    requires item in w.rows && !change.Write? && Adds(w.balances, w.log, opening)
    ensures Adds(Apply(w, item, change).balances, Apply(w, item, change).log, opening)
  {
    ApplyLog(w, item, change);
    var v := Apply(w, item, change);
    forall u | u in w.balances
      ensures v.balances.Keys == w.balances.Keys
      ensures v.balances[u].Total() == w.balances[u].Total() && v.balances[u].units == w.balances[u].units
      ensures SumCents(v.log, u) == SumCents(w.log, u) && SumUnits(v.log, u) == SumUnits(w.log, u)
    {
      ReleaseKeepsTotals(w.balances, w.rows[item].user, w.rows[item].reservedCents, u);
      if change.Create? { SumsOfOneMore(w.log, Recorded(item, change.cents, change.payment), u); }
      if change.FailRow? { SumsOfOneMore(w.log, MarkedFailed(item), u); }
    }
  }

  /** What a balance write leaves behind. */
  lemma WriteResult(w: World, k: nat, outcome: Outcome)
    requires CanCall(w, k, outcome) && EffectOf(w, k, outcome).change.Write?
    ensures w.workers[k].pc.Writing?
    ensures var worker, v := w.workers[k], Next(w, Call(k, outcome));
            var user, pc := w.rows[worker.item].user, worker.pc;
            && v.balances == UpdateBalance(w.balances, user, pc.seen.cents + Signed(worker.item, pc.cents),
                                           pc.seen.units + SignedUnits(worker.item, pc.units))
            && v.log == w.log + [Wrote(worker.item, user, pc.cents, pc.units, pc.record)]
  {
  }

  /** A balance write keeps the sums if and only if it overwrites what was read. */
  lemma WriteAddsExactly(w: World, k: nat, outcome: Outcome, opening: map<string, Balance>)
    requires CanCall(w, k, outcome) && EffectOf(w, k, outcome).change.Write? && Adds(w.balances, w.log, opening)
    ensures var v := Next(w, Call(k, outcome));
            Adds(v.balances, v.log, opening) <==> WritesOverWhatItRead(w, Call(k, outcome))
  {
    WriteResult(w, k, outcome);
    var worker := w.workers[k];
    var user, pc := w.rows[worker.item].user, worker.pc;
    var balances, e := Next(w, Call(k, outcome)).balances, Wrote(worker.item, user, pc.cents, pc.units, pc.record);
    OneMoreAdds(w.balances, w.log, opening, user, pc.seen, e);
    assert Adds(balances, w.log + [e], opening) <==> WritesOverWhatItRead(w, Call(k, outcome));
  }

  lemma OneMoreAdds(
    balances: map<string, Balance>, log: seq<Entry>, opening: map<string, Balance>,
    user: string, seen: Balance, e: Entry)
    requires Adds(balances, log, opening) && e.Wrote? && e.user == user
    ensures var cents, units := seen.cents + Signed(e.item, e.cents), seen.units + SignedUnits(e.item, e.units);
            var after := UpdateBalance(balances, user, cents, units);
            Adds(after, log + [e], opening)
            <==> (user in balances ==> balances[user].cents == seen.cents && balances[user].units == seen.units)
  {
    forall u ensures SumCents(log + [e], u) == SumCents(log, u) + (if u == user then Signed(e.item, e.cents) else 0)
                  && SumUnits(log + [e], u)
                     == SumUnits(log, u) + (if u == user then SignedUnits(e.item, e.units) else 0.0)
    {
      SumsOfOneMore(log, e, u);
    }
  }

  lemma CallAddsExactly(w: World, k: nat, outcome: Outcome, opening: map<string, Balance>)
    requires CanCall(w, k, outcome) && Adds(w.balances, w.log, opening)
    ensures var v := Next(w, Call(k, outcome));
            Adds(v.balances, v.log, opening) <==> WritesOverWhatItRead(w, Call(k, outcome))
  {
    if EffectOf(w, k, outcome).change.Write? {
      WriteAddsExactly(w, k, outcome, opening);
    } else {
      ChangeKeepsAdds(w, w.workers[k].item, EffectOf(w, k, outcome).change, opening);
    }
  }

  lemma StepAddsExactly(w: World, e: Event, opening: map<string, Balance>)
    requires Enabled(w, e) && Adds(w.balances, w.log, opening)
    ensures Adds(Next(w, e).balances, Next(w, e).log, opening) <==> WritesOverWhatItRead(w, e)
  {
    if RowStep(e) {
      ChangeKeepsAdds(w, e.item, RowChange(w, e), opening);
    } else if e.Work? {
      ChangeKeepsAdds(w, w.job.item, JobChange(w.job), opening);
    } else if e.Call? {
      CallAddsExactly(w, e.worker, e.outcome, opening);
    } else if e.OpenWithdrawal? {
      forall u | u in w.balances
        ensures var after := Next(w, e).balances[u];
                after.Total() == w.balances[u].Total() && after.units == w.balances[u].units
      {
        ReserveKeepsTotals(w.balances, e.row.user, e.row.reservedCents, u);
      }
    }
  }

  lemma {:induction false} RunAddsExactly(w: World, run: seq<Event>, opening: map<string, Balance>)
    requires IsRun(w, run) && Adds(w.balances, w.log, opening)
    ensures Along(w, run, WritesOverWhatItRead) ==> Adds(Final(w, run).balances, Final(w, run).log, opening)
    ensures Along(w, run, WritesOverWhatItRead) <==> Throughout(w, run, (v: World) => Adds(v.balances, v.log, opening))
    decreases |run|
  {
    if run != [] {
      StepAddsExactly(w, run[0], opening);
      if WritesOverWhatItRead(w, run[0]) {
        RunAddsExactly(Next(w, run[0]), run[1..], opening);
      }
    }
  }

  /** In every run, the totals add up in all its states if and only if every
      balance write in it overwrites the cents and units its worker read. */
  lemma TotalsAddUpExactlyIfNothingIsOverwritten(w: World, run: seq<Event>)
    requires Quiet(w) && IsRun(w, run)
    ensures Along(w, run, WritesOverWhatItRead)
            <==> Throughout(w, run, (v: World) => Adds(v.balances, v.log, w.balances))
  {
    RunAddsExactly(w, run, w.balances);
  }

  /** A step leaves the amount in a row it does not touch, and every row's user. */
  lemma UntouchedStays(w: World, e: Event, user: string)
    requires Enabled(w, e) && user in w.balances && !Touches(w, e, user)
    ensures var v := Next(w, e);
            && user in v.balances
            && v.balances[user].cents == w.balances[user].cents && v.balances[user].units == w.balances[user].units
  {
    if e.Call? {
      var effect := EffectOf(w, e.worker, e.outcome);
      var worker := w.workers[e.worker];
      CallOnBalance(w, e.worker, e.outcome);
      ReleaseKeepsTotals(w.balances, w.rows[worker.item].user, w.rows[worker.item].reservedCents, user);
    }
    if e.Work? {
      ReleaseKeepsTotals(w.balances, w.rows[w.job.item].user, w.rows[w.job.item].reservedCents, user);
    }
    if e.OpenWithdrawal? {
      ReserveKeepsTotals(w.balances, e.row.user, e.row.reservedCents, user);
    }
  }

  lemma StepKeepsFresh(w: World, e: Event, k: nat)
    requires Known(w) && Enabled(w, e) && AllFresh(w) && Undisturbed(w, e) && k in Next(w, e).workers
    ensures Fresh(Next(w, e), Next(w, e).workers[k])
  {
    var v := Next(w, e);
    if v.workers[k].pc.Writing? {
      if e.Call? && e.worker == k {
        assert w.workers[k].pc.Reading? && EffectOf(w, k, e.outcome).change.Nothing?;
      } else {
        StepMovesOneWorker(w, e, k);
        var item := w.workers[k].item;
        StepKeepsTerms(w, e, item);
        UntouchedStays(w, e, w.rows[item].user);
      }
    }
  }

  lemma {:induction false} UndisturbedWritesOverWhatItRead(w: World, run: seq<Event>)
    requires Known(w) && AllFresh(w) && Along(w, run, Undisturbed)
    ensures Along(w, run, WritesOverWhatItRead)
    decreases |run|
  {
    if run != [] {
      var v := Next(w, run[0]);
      StepKeepsKnown(w, run[0]);
      forall k | k in v.workers ensures Fresh(v, v.workers[k]) {
        StepKeepsFresh(w, run[0], k);
      }
      UndisturbedWritesOverWhatItRead(v, run[1..]);
      if run[0].Call? && EffectOf(w, run[0].worker, run[0].outcome).change.Write? {
        WriteResult(w, run[0].worker, run[0].outcome);
        assert Fresh(w, w.workers[run[0].worker]);
      }
    }
  }

  lemma RunKeepsAdds(w: World, run: seq<Event>)
    requires Quiet(w) && Along(w, run, Undisturbed)
    ensures IsRun(w, run) && Adds(Final(w, run).balances, Final(w, run).log, w.balances)
  {
    AlongIsRun(w, run, Undisturbed);
    UndisturbedWritesOverWhatItRead(w, run);
    RunAddsExactly(w, run, w.balances);
  }

  /** Over every run in which no balance window is disturbed, whatever fails:
      each user's amount and reservation together are the opening total plus the
      deposit cents written less the withdrawal cents written, and the units
      likewise; reserving and releasing move money, and change neither. */
  lemma TotalsAreConserved(w: World, run: seq<Event>, user: string)
    requires Quiet(w) && NonNegative(w.balances) && Along(w, run, Undisturbed) && user in w.balances
    ensures IsRun(w, run) && user in Final(w, run).balances
    ensures var b := Final(w, run).balances[user];
            && b.Total() == w.balances[user].Total() + SumCents(Final(w, run).log, user)
            && b.units == w.balances[user].units + SumUnits(Final(w, run).log, user)
            && b.cents >= 0 && b.reserved >= 0 && b.units >= 0.0
  {
    RunKeepsAdds(w, run);
    BalancesStayNonNegative(w, run);
  }

  // ---- The hypothesis is needed ----

  /** Two workers that read one user's balance before either writes it: nothing
      fails, and the second write takes the first deposit back. */
  lemma OverlappingWindowsLoseADeposit(w: World, a: Item, b: Item, user: string, p: Payment, q: Payment, rate: real)
    returns (run: seq<Event>, v: World)
    requires Quiet(w) && a in w.rows && b in w.rows && a.Session? && b.Session? && a != b
    requires w.rows[a].status == w.rows[b].status == Pending && w.rows[a].user == w.rows[b].user == user
    requires user in w.balances && w.balances[user].cents >= 0 && w.balances[user].units >= 0.0
    requires FitsAnswer(a, w.rows[a], Paid(p, rate)) && FitsAnswer(b, w.rows[b], Paid(q, rate))
    ensures Leads(w, run, v, NothingFails) && user in v.balances
    ensures var first, second := PaidPc(w.rows[a], p, rate), PaidPc(w.rows[b], q, rate);
            && SumCents(v.log, user) == first.cents + second.cents
            && v.balances[user].Total() == w.balances[user].Total() + second.cents
  {
    CryptoToUSDCentsIsNearestEven(Amount(p, w.rows[a].terms.decimals), rate, 0);
    CryptoToUSDCentsIsNearestEven(Amount(q, w.rows[b].terms.decimals), rate, 0);
    var paid, both, first, second, third;
    first, paid := PendingSessionIsPaid(w, 0, a, p, rate);
    second, both := PendingSessionIsPaid(paid, 1, b, q, rate);
    Join(w, first, paid, second, both, NothingFails);
    third, v := BothReadThenWrite(both, a, b, user);
    Join(w, first + second, both, third, v, NothingFails);
    run := first + second + third;
  }

  /** Two of the user's sessions are about to be recorded. */
  predicate BothPaid(v: World, a: Item, b: Item, user: string) {
    && 0 in v.workers && v.workers[0].item == a && v.workers[0].pc.Recording?
    && 1 in v.workers && v.workers[1].item == b && v.workers[1].pc.Recording?
    && v.workers[0].pc.cents >= 0 && v.workers[0].pc.units >= 0.0
    && v.workers[1].pc.cents >= 0 && v.workers[1].pc.units >= 0.0
    && a in v.rows && b in v.rows && a.Session? && b.Session? && v.rows[a].user == v.rows[b].user == user
    && user in v.balances && v.balances[user].cents >= 0 && v.balances[user].units >= 0.0
  }

  lemma BothReadThenWrite(v: World, a: Item, b: Item, user: string) returns (more: seq<Event>, after: World)
    requires v.log == [] && BothPaid(v, a, b, user)
    ensures Leads(v, more, after, NothingFails) && user in after.balances
    ensures after.balances[user].Total() == v.balances[user].Total() + v.workers[1].pc.cents
    ensures SumCents(after.log, user) == v.workers[0].pc.cents + v.workers[1].pc.cents
  {
    var one, two := v.workers[0].pc, v.workers[1].pc;
    var first, read := BothRead(v, a, b, user);
    var second;
    second, after := BothWrite(read, a, b, user);
    more := first + second;
    Join(v, first, read, second, after, NothingFails);
    TwoDeposits(Recorded(a, one.cents, one.payment), Recorded(b, two.cents, two.payment),
                Wrote(a, user, one.cents, one.units, 0), Wrote(b, user, two.cents, two.units, 1), user);
  }

  lemma TwoDeposits(r: Entry, s: Entry, x: Entry, y: Entry, user: string)
    requires r.Recorded? && s.Recorded? && x.Wrote? && y.Wrote? && x.item.Session? && y.item.Session?
    requires x.user == y.user == user
    ensures SumCents([] + [r] + [s] + [x] + [y], user) == x.cents + y.cents
  {
    SumsOfOneMore([], r, user);
    SumsOfOneMore([] + [r], s, user);
    SumsOfOneMore([] + [r] + [s], x, user);
    SumsOfOneMore([] + [r] + [s] + [x], y, user);
  }

  lemma BothWrite(v: World, a: Item, b: Item, user: string) returns (more: seq<Event>, after: World)
    requires a in v.rows && b in v.rows && a.Session? && b.Session? && v.rows[a].user == v.rows[b].user == user
    requires user in v.balances && 0 in v.workers && 1 in v.workers
    requires v.workers[0].item == a && v.workers[0].pc.Writing? && v.workers[0].pc.seen == v.balances[user]
    requires v.workers[1].item == b && v.workers[1].pc.Writing? && v.workers[1].pc.seen == v.balances[user]
    requires Covers(v.balances[user], a, v.workers[0].pc.cents, v.workers[0].pc.units)
    requires Covers(v.balances[user], b, v.workers[1].pc.cents, v.workers[1].pc.units)
    ensures Leads(v, more, after, NothingFails) && user in after.balances
    ensures after.balances[user].Total() == v.balances[user].Total() + v.workers[1].pc.cents
    ensures var x, y := v.workers[0].pc, v.workers[1].pc;
            after.log == v.log + [Wrote(a, user, x.cents, x.units, x.record)]
                               + [Wrote(b, user, y.cents, y.units, y.record)]
  {
    WriteCall(v, 0);
    more, after := Extend(v, [], v, Call(0, Ok), NothingFails);
    WriteResult(after, 1, Ok);
    more, after := Extend(v, more, after, Call(1, Ok), NothingFails);
  }

  lemma BothRead(v: World, a: Item, b: Item, user: string) returns (more: seq<Event>, after: World)
    requires v.log == [] && BothPaid(v, a, b, user)
    ensures Leads(v, more, after, NothingFails)
    ensures after.rows == v.rows && after.balances == v.balances
    ensures var x, y := v.workers[0].pc, v.workers[1].pc;
            && after.log == [] + [Recorded(a, x.cents, x.payment)] + [Recorded(b, y.cents, y.payment)]
            && after.workers == v.workers
                 [0 := v.workers[0].(pc := Writing(x.cents, x.units, 0, v.balances[user]))]
                 [1 := v.workers[1].(pc := Writing(y.cents, y.units, 1, v.balances[user]))]
  {
    var x, y := v.workers[0].pc, v.workers[1].pc;
    var second, one;
    RecordCall(v, 0);
    more, after := Extend(v, [], v, Call(0, Ok), NothingFails);
    one := after;
    second, after := PaidIsRead(one, 1);
    Weaken(one, second, OnlyGoesOn(1), NothingFails);
    Join(v, more, one, second, after, NothingFails);
    more := more + second;
    ReadCall(after, 0);
    more, after := Extend(v, more, after, Call(0, Ok), NothingFails);
    assert after.workers[0] == v.workers[0].(pc := Writing(x.cents, x.units, 0, v.balances[user]));
    assert after.workers[1] == v.workers[1].(pc := Writing(y.cents, y.units, 1, v.balances[user]));
  }

  // ---- The gap between cents and units ----

  /** What an entry may add to the gap: a deposit half a cent, a withdrawal the
      difference between its own cents and its own units. */
  function Slack(e: Entry): real
    requires e.Wrote?
  {
    if e.item.Session? then 0.5 else Abs(e.cents as real - 100.0 * e.units)
  }

  function SumSlack(log: seq<Entry>, user: string): real {
    if log == [] then 0.0
    else
      var last := log[|log| - 1];
      SumSlack(log[..|log| - 1], user) + if last.Wrote? && last.user == user then Slack(last) else 0.0
  }

  /** The gap is at most half a cent for each deposit, by the rounding. */
  predicate Rounded(item: Item, cents: int, units: real) {
    item.Session? ==> Abs(100.0 * units - cents as real) <= 0.5
  }

  /** The cents and units are the withdrawal's own. */
  predicate Own(w: World, item: Item, cents: int, units: real) {
    item.Withdrawal? && item in w.rows ==> cents == w.rows[item].usdCents && units == w.rows[item].units
  }

  predicate Carries(pc: Pc) {
    pc.Recording? || pc.Reading? || pc.Writing?
  }

  predicate PricedEntry(w: World, e: Entry) {
    e.Wrote? ==> e.item in w.rows && Rounded(e.item, e.cents, e.units) && Own(w, e.item, e.cents, e.units)
  }

  ghost predicate Priced(w: World) {
    && (forall k :: k in w.workers && Carries(w.workers[k].pc) ==>
          Rounded(w.workers[k].item, w.workers[k].pc.cents, w.workers[k].pc.units)
          && Own(w, w.workers[k].item, w.workers[k].pc.cents, w.workers[k].pc.units))
    && (forall i :: 0 <= i < |w.log| ==> PricedEntry(w, w.log[i]))
  }

  lemma CallIsPriced(w: World, k: nat, outcome: Outcome)
    requires Priced(w) && CanCall(w, k, outcome)
    ensures var effect := EffectOf(w, k, outcome); var item := w.workers[k].item;
            && (Carries(effect.pc) ==>
                  && Rounded(item, effect.pc.cents, effect.pc.units)
                  && Own(w, item, effect.pc.cents, effect.pc.units))
            && (effect.change.Write? ==>
                  var e := effect.change.entry;
                  e.Wrote? && e.item == item && Rounded(item, e.cents, e.units) && Own(w, item, e.cents, e.units))
  {
    var item := w.workers[k].item;
    if outcome.Chain? && outcome.answer.Paid? && item.Session? {
      var amount := Amount(outcome.answer.payment, w.rows[item].terms.decimals);
      CryptoToUSDCentsIsNearestEven(amount, outcome.answer.rate, 0);
    }
  }

  lemma StepPricesWorker(w: World, e: Event, k: nat)
    requires Known(w) && Priced(w) && Enabled(w, e) && k in Next(w, e).workers && Carries(Next(w, e).workers[k].pc)
    ensures var v := Next(w, e);
            Rounded(v.workers[k].item, v.workers[k].pc.cents, v.workers[k].pc.units)
            && Own(v, v.workers[k].item, v.workers[k].pc.cents, v.workers[k].pc.units)
  {
    if e.Call? && e.worker == k { CallIsPriced(w, k, e.outcome); } else { StepMovesOneWorker(w, e, k); }
    StepKeepsTerms(w, e, w.workers[k].item);
  }

  lemma StepKeepsPricedEntry(w: World, e: Event, entry: Entry)
    requires Enabled(w, e) && PricedEntry(w, entry)
    ensures PricedEntry(Next(w, e), entry)
  {
    if entry.Wrote? { StepKeepsTerms(w, e, entry.item); }
  }

  lemma LongerIsPriced(w: World, log: seq<Entry>, i: nat)
    requires Priced(w) && i < |log|
    requires log == w.log || (|log| == |w.log| + 1 && log[..|w.log|] == w.log && PricedEntry(w, log[|w.log|]))
    ensures PricedEntry(w, log[i])
  {
    if i < |w.log| {
      assert log == w.log || log[i] == log[..|w.log|][i];
      assert log[i] == w.log[i];
    }
  }

  lemma NewEntryIsPriced(w: World, e: Event)
    requires Priced(w) && Enabled(w, e) && |Next(w, e).log| == |w.log| + 1
    ensures PricedEntry(w, Next(w, e).log[|w.log|])
  {
    StepGrowsLog(w, e);
    if Next(w, e).log[|w.log|].Wrote? { WriteIsPriced(w, e.worker, e.outcome); }
  }

  lemma StepPricesEntry(w: World, e: Event, i: nat)
    requires Priced(w) && Enabled(w, e) && i < |Next(w, e).log|
    ensures PricedEntry(Next(w, e), Next(w, e).log[i])
  {
    StepGrowsLog(w, e);
    if |Next(w, e).log| == |w.log| + 1 { NewEntryIsPriced(w, e); }
    LongerIsPriced(w, Next(w, e).log, i);
    StepKeepsPricedEntry(w, e, Next(w, e).log[i]);
  }

  lemma WriteIsPriced(w: World, k: nat, outcome: Outcome)
    requires Priced(w) && CanCall(w, k, outcome) && EffectOf(w, k, outcome).change.Write?
    ensures PricedEntry(w, EffectOf(w, k, outcome).change.entry)
  {
    CallIsPriced(w, k, outcome);
  }

  lemma StepKeepsPriced(w: World, e: Event)
    requires Known(w) && Priced(w) && Enabled(w, e)
    ensures Priced(Next(w, e))
  {
    var v := Next(w, e);
    forall k | k in v.workers && Carries(v.workers[k].pc)
      ensures Rounded(v.workers[k].item, v.workers[k].pc.cents, v.workers[k].pc.units)
      ensures Own(v, v.workers[k].item, v.workers[k].pc.cents, v.workers[k].pc.units)
    {
      StepPricesWorker(w, e, k);
    }
    forall i | 0 <= i < |v.log| ensures PricedEntry(v, v.log[i]) {
      StepPricesEntry(w, e, i);
    }
  }

  lemma {:induction false} RunKeepsPriced(w: World, run: seq<Event>)
    requires Known(w) && Priced(w) && IsRun(w, run)
    ensures Priced(Final(w, run))
    decreases |run|
  {
    if run != [] {
      StepKeepsKnown(w, run[0]);
      StepKeepsPriced(w, run[0]);
      RunKeepsPriced(Next(w, run[0]), run[1..]);
    }
  }

  lemma {:induction false} GapIsWithinSlack(log: seq<Entry>, user: string)
    requires forall i :: 0 <= i < |log| && log[i].Wrote? ==> Rounded(log[i].item, log[i].cents, log[i].units)
    ensures Abs(100.0 * SumUnits(log, user) - SumCents(log, user) as real) <= SumSlack(log, user)
  {
    if log != [] {
      var front, last := log[..|log| - 1], log[|log| - 1];
      GapIsWithinSlack(front, user);
      assert SumCents(log, user) as real ==
        SumCents(front, user) as real
        + (if last.Wrote? && last.user == user then Signed(last.item, last.cents) else 0) as real;
    }
  }

  /** How far a balance's units are from its cents. */
  function Gap(b: Balance): real {
    100.0 * b.units - b.Total() as real
  }

  lemma GapOf(a: Balance, b: Balance, cents: int, units: real)
    requires b.Total() == a.Total() + cents && b.units == a.units + units
    ensures Gap(b) - Gap(a) == 100.0 * units - cents as real
  {
    assert b.Total() as real == a.Total() as real + cents as real;
  }

  lemma GapGrowsWithinSlack(v: World, opening: map<string, Balance>, user: string)
    requires Priced(v) && Adds(v.balances, v.log, opening) && user in opening
    ensures Abs(Gap(v.balances[user]) - Gap(opening[user])) <= SumSlack(v.log, user)
  {
    assert forall i :: 0 <= i < |v.log| ==> PricedEntry(v, v.log[i]);
    GapIsWithinSlack(v.log, user);
    GapOf(opening[user], v.balances[user], SumCents(v.log, user), SumUnits(v.log, user));
  }

  /** A withdrawal's slack is the difference between its own cents and units. */
  predicate OwnSlack(v: World, e: Entry) {
    e.Wrote? && e.item.Withdrawal? ==>
      e.item in v.rows && Slack(e) == Abs(v.rows[e.item].usdCents as real - 100.0 * v.rows[e.item].units)
  }

  lemma SlackIsOwn(v: World)
    requires Priced(v)
    ensures forall i :: 0 <= i < |v.log| ==> OwnSlack(v, v.log[i])
  {
    forall i | 0 <= i < |v.log| ensures OwnSlack(v, v.log[i]) {
      assert PricedEntry(v, v.log[i]);
    }
  }

  lemma RunKeepsAddsAndPrices(w: World, run: seq<Event>)
    requires Quiet(w) && Along(w, run, WritesOverWhatItRead)
    ensures IsRun(w, run) && Priced(Final(w, run)) && Adds(Final(w, run).balances, Final(w, run).log, w.balances)
  {
    AlongIsRun(w, run, WritesOverWhatItRead);
    RunAddsExactly(w, run, w.balances);
    RunKeepsPriced(w, run);
  }

  /** Over every run whose balance writes overwrite what was read, the gap
      between a user's units and cents grows by at most half a cent for each
      deposit, plus each withdrawal's own difference between its cents and its
      units. */
  lemma DriftIsBounded(w: World, run: seq<Event>, user: string)
    requires Quiet(w) && Along(w, run, WritesOverWhatItRead) && user in w.balances
    ensures IsRun(w, run) && user in Final(w, run).balances
    ensures Abs(Gap(Final(w, run).balances[user]) - Gap(w.balances[user])) <= SumSlack(Final(w, run).log, user)
    ensures var v := Final(w, run); forall i :: 0 <= i < |v.log| ==> OwnSlack(v, v.log[i])
  {
    RunKeepsAddsAndPrices(w, run);
    GapGrowsWithinSlack(Final(w, run), w.balances, user);
    SlackIsOwn(Final(w, run));
  }
}
