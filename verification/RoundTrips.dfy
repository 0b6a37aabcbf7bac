/** One deposit or withdrawal from its opening to its end, when nothing fails
    and nothing else goes on: what it leaves of the balance. */
module RoundTrips {
  import opened Ledger
  import opened Paths
  import opened PaymentMatch
  import opened Steps

  // ---- The poller marks a withdrawal ----

  /** A time at which the row is two polling intervals old. */
  function OldEnough(w: World, row: Row): int {
    var due := row.createdAt + 2 * w.interval;
    if due >= w.now then due else w.now
  }

  lemma AbandonedIsTakenUp(v: World, item: Item) returns (more: seq<Event>, after: World)
    requires item in v.rows && item.Withdrawal? && v.rows[item].status == Pending && v.rows[item].hash == ""
    requires v.page == map[] && v.job.Idle?
    ensures Leads(v, more, after, NothingFails)
    ensures after == v.(now := after.now, job := Update(item))
  {
    more, after := Extend(v, [], v, Tick(OldEnough(v, v.rows[item])), NothingFails);
    more, after := Extend(v, more, after, LoadPage(map[item := ""]), NothingFails);
    more, after := Extend(v, more, after, Mark(item), NothingFails);
    assert after.page == map[];
  }

  lemma TakenUpIsGivenBack(v: World, item: Item) returns (more: seq<Event>, after: World)
    requires item in v.rows && v.job == Update(item) && v.rows[item].hash == "" && !v.rows[item].released
    requires v.rows[item].user in v.balances
    requires v.balances[v.rows[item].user].reserved >= v.rows[item].reservedCents
    ensures Leads(v, more, after, NothingFails)
    ensures var row, b := v.rows[item], v.balances[v.rows[item].user];
            after == v.(rows := v.rows[item := row.(status := Failed)], job := Idle, held := v.held - {item},
                        log := v.log + [MarkedFailed(item)],
                        balances := v.balances[row.user :=
                          Balance(b.cents + row.reservedCents, b.units, b.reserved - row.reservedCents)])
  {
    more, after := Extend(v, [], v, Work(true), NothingFails);
    assert after.job == Release(item) && after.rows == v.rows[item := v.rows[item].(status := Failed)];
    more, after := Extend(v, more, after, Work(true), NothingFails);
    assert after.job == Save(item);
    more, after := Extend(v, more, after, Work(true), NothingFails);
    assert after.rows == v.rows[item := v.rows[item].(status := Failed)];
  }

  /** A pending withdrawal that gets no hash is failed in the end, and its
      reservation goes back to the amount. */
  lemma AbandonedIsGivenBack(v: World, item: Item) returns (more: seq<Event>, after: World)
    requires item in v.rows && item.Withdrawal? && v.rows[item].status == Pending && v.rows[item].hash == ""
    requires v.page == map[] && v.job.Idle? && !v.rows[item].released && v.rows[item].user in v.balances
    requires v.balances[v.rows[item].user].reserved >= v.rows[item].reservedCents
    ensures Leads(v, more, after, NothingFails)
    ensures after.job.Idle? && after.page == map[] && after.held == v.held - {item}
    ensures after.rows == v.rows[item := v.rows[item].(status := Failed)]
    ensures var c, b := v.rows[item].reservedCents, v.balances[v.rows[item].user];
            after.balances == v.balances[v.rows[item].user := Balance(b.cents + c, b.units, b.reserved - c)]
  {
    var first, taken := AbandonedIsTakenUp(v, item);
    var second;
    second, after := TakenUpIsGivenBack(taken, item);
    more := first + second;
    Join(v, first, taken, second, after, NothingFails);
  }

  /** Opened, reserved for, and abandoned: the balances are as they were. */
  lemma OpenedAndAbandonedIsUndone(w: World, item: Item, row: Row) returns (run: seq<Event>, v: World)
    requires item.Withdrawal? && item !in w.rows && item !in w.held && row.createdAt == w.now
    requires row.status == Pending || row.status == AwaitingReview
    requires row.hash == "" && !row.released && w.page == map[] && w.job.Idle?
    requires row.user in w.balances
    requires w.balances[row.user].cents >= row.reservedCents && w.balances[row.user].reserved >= 0
    ensures Leads(w, run, v, NothingFails)
    ensures v.balances == w.balances && v.held == w.held && item in v.rows && v.rows[item].status == Failed
  {
    var first, begun := WithdrawalIsOpened(w, item, row);
    var second;
    second, v := AbandonedIsGivenBack(begun, item);
    run := first + second;
    Join(w, first, begun, second, v, NothingFails);
    assert v.held == w.held;
  }

  // ---- A withdrawal is verified ----

  lemma ReleaseAndComplete(v: World, k: nat) returns (more: seq<Event>, after: World)
    requires k in v.workers && v.workers[k].item in v.rows && v.workers[k].pc.Releasing?
    requires v.workers[k].hash == v.rows[v.workers[k].item].hash
    ensures Leads(v, more, after, NothingFails)
    ensures var item, row := v.workers[k].item, v.rows[v.workers[k].item];
            && after.rows == v.rows[item := row.(status := Completed)] && after.held == v.held - {item}
            && after.balances == ReleaseReservedBalance(v.balances, row.user, row.reservedCents)
  {
    ReleaseCall(v, k);
    more, after := Extend(v, [], v, Call(k, Ok), NothingFails);
    CompleteCall(after, k);
    more, after := Extend(v, more, after, Call(k, Ok), NothingFails);
  }

  /** The opening of a withdrawal whose reservation takes effect, and its
      approval if it needs one. */
  lemma WithdrawalIsOpened(w: World, item: Item, row: Row) returns (run: seq<Event>, v: World)
    requires item.Withdrawal? && item !in w.rows && row.createdAt == w.now && !row.released
    requires row.status == Pending || row.status == AwaitingReview
    requires row.user in w.balances && w.balances[row.user].cents >= row.reservedCents
    ensures Leads(w, run, v, NothingFails)
    ensures var c, b := row.reservedCents, w.balances[row.user];
            v == w.(rows := w.rows[item := row.(status := Pending)], held := w.held + {item},
                    balances := w.balances[row.user := Balance(b.cents - c, b.units, b.reserved + c)])
  {
    run, v := Extend(w, [], w, OpenWithdrawal(item, row), NothingFails);
    if row.status == AwaitingReview {
      run, v := Extend(w, run, v, Approve(item), NothingFails);
    }
    assert v.rows == w.rows[item := row.(status := Pending)];
  }

  lemma SessionIsOpened(w: World, item: Item, user: string, terms: Terms) returns (run: seq<Event>, v: World)
    requires item.Session? && item !in w.rows
    ensures Leads(w, run, v, NothingFails)
    ensures v == w.(rows := w.rows[item := Row(user, Pending, w.now, terms, "", 0, 0.0, 0, false)])
  {
    run, v := Extend(w, [], w, OpenSession(item, user, terms), NothingFails);
  }

  lemma PendingWithdrawalIsDebited(v: World, k: nat, item: Item, payment: Payment)
    returns (more: seq<Event>, after: World)
    requires item in v.rows && item.Withdrawal? && v.rows[item].status == Pending && v.rows[item].hash != ""
    requires v.page == map[] && v.job.Idle? && k !in v.workers && v.rows[item].user in v.balances
    requires var row := v.rows[item];
             !row.released && Covers(v.balances[row.user], item, row.usdCents, row.units)
    ensures Leads(v, more, after, NothingFails) && after.held == v.held - {item}
    ensures after.rows == v.rows[item := v.rows[item].(status := Completed)]
    ensures var row := v.rows[item];
            var written := v.balances[row.user := Written(v.balances[row.user], item, row.usdCents, row.units)];
            after.balances == ReleaseReservedBalance(written, row.user, row.reservedCents)
  {
    var first, written := PendingWithdrawalIsWritten(v, k, item, payment);
    var second;
    second, after := ReleaseAndComplete(written, k);
    more := first + second;
    Join(v, first, written, second, after, NothingFails);
  }

  /** Opened, reserved for, verified and settled: the balance is less the
      withdrawal's cents and units once, and nothing is reserved for it. */
  lemma OpenedAndVerifiedIsDebited(w: World, k: nat, item: Item, row: Row, payment: Payment)
    returns (run: seq<Event>, v: World)
    requires item.Withdrawal? && item !in w.rows && item !in w.held && row.createdAt == w.now
    requires row.status == Pending || row.status == AwaitingReview
    requires row.hash != "" && !row.released && w.page == map[] && w.job.Idle? && k !in w.workers
    requires row.user in w.balances
    requires var b := w.balances[row.user];
             b.cents >= row.reservedCents + row.usdCents && b.units >= row.units && b.reserved >= 0
    ensures Leads(w, run, v, NothingFails)
    ensures v.held == w.held && item in v.rows && v.rows[item].status == Completed
    ensures var b := w.balances[row.user];
            v.balances == w.balances[row.user := Balance(b.cents - row.usdCents, b.units - row.units, b.reserved)]
  {
    var first, begun := WithdrawalIsOpened(w, item, row);
    var second;
    second, v := PendingWithdrawalIsDebited(begun, k, item, payment);
    run := first + second;
    Join(w, first, begun, second, v, NothingFails);
    assert v.held == w.held;
  }

  // ---- A session is paid ----

  lemma PendingSessionIsCredited(v: World, k: nat, item: Item, payment: Payment, rate: real)
    returns (more: seq<Event>, after: World)
    requires item in v.rows && item.Session? && v.rows[item].status == Pending && k !in v.workers
    requires FitsAnswer(item, v.rows[item], Paid(payment, rate)) && v.rows[item].user in v.balances
    requires var b := v.balances[v.rows[item].user]; b.cents >= 0 && b.units >= 0.0
    ensures Leads(v, more, after, NothingFails) && after.held == v.held
    ensures after.rows == v.rows[item := v.rows[item].(status := Completed)]
    ensures var row := v.rows[item];
            var pc := PaidPc(row, payment, rate);
            && after.balances == v.balances[row.user := Written(v.balances[row.user], item, pc.cents, pc.units)]
            && after.log == v.log + [Recorded(item, pc.cents, payment)]
                                  + [Wrote(item, row.user, pc.cents, pc.units, |v.log|)]
  {
    var written;
    more, written := PendingSessionIsWritten(v, k, item, payment, rate);
    CompleteCall(written, k);
    more, after := Extend(v, more, written, Call(k, Ok), NothingFails);
  }

  /** Opened and paid: the session is completed, and what is written for it has
      been added to the balance. */
  lemma OpenedAndPaidIsCredited(w: World, k: nat, item: Item, user: string, terms: Terms, payment: Payment, rate: real)
    returns (run: seq<Event>, v: World)
    requires item.Session? && item !in w.rows && k !in w.workers && user in w.balances
    requires w.balances[user].cents >= 0 && w.balances[user].units >= 0.0
    requires Pays(payment, terms) && Amount(payment, terms.decimals) >= 0.0 && rate >= 0.0
    ensures Leads(w, run, v, NothingFails) && item in v.rows && v.rows[item].status == Completed && v.held == w.held
    ensures |v.log| == |w.log| + 2 && v.log[|w.log| + 1].Wrote? && v.log[|w.log| + 1].item == item
    ensures var b, e := w.balances[user], v.log[|w.log| + 1];
            v.balances == w.balances[user := Balance(b.cents + e.cents, b.units + e.units, b.reserved)]
  {
    var first, begun := SessionIsOpened(w, item, user, terms);
    var second;
    second, v := PendingSessionIsCredited(begun, k, item, payment, rate);
    run := first + second;
    Join(w, first, begun, second, v, NothingFails);
  }

  /** The poller's expiry write is not guarded: one for a session that it read
      before it was paid leaves the credited session expired. */
  lemma CreditedSessionMayExpire(w: World, k: nat, item: Item, user: string, terms: Terms, payment: Payment, rate: real)
    returns (run: seq<Event>, v: World)
    requires item.Session? && item !in w.rows && k !in w.workers && user in w.balances
    requires w.balances[user].cents >= 0 && w.balances[user].units >= 0.0
    requires Pays(payment, terms) && Amount(payment, terms.decimals) >= 0.0 && rate >= 0.0
    ensures Leads(w, run, v, NothingFails) && item in v.rows && v.rows[item].status == Expired
    ensures |v.log| == |w.log| + 2 && v.log[|w.log| + 1].Wrote? && v.log[|w.log| + 1].item == item
  {
    run, v := OpenedAndPaidIsCredited(w, k, item, user, terms, payment, rate);
    run, v := Extend(w, run, v, Expire(item), NothingFails);
  }
}
