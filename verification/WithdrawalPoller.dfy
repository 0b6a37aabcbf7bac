/** The withdrawal poller: pages through the pending withdrawals, fails the ones
    left without a transaction hash and groups the others by chain. Unlike the
    session poller, what it fails says nothing about the rows beyond, so the
    paging does skip rows: this module says how many, and which. */
module WithdrawalPoller {
  import opened Numbers
  import opened Paging

  predicate Eligible(w: Row) {
    !IsPDMChain(w.chain) && w.txHash != ""
  }

  /** Still without a hash two polling intervals after it was created. */
  predicate Abandoned(w: Row, now: int, interval: int) {
    w.txHash == "" && now - w.createdAt >= 2 * interval && !IsPDMChain(w.chain)
  }

  // ---- What a poll collects ----

  /** The rows there are to be collected from place a up to place b. */
  function EligibleBetween(rows: seq<Row>, a: nat, b: nat): seq<Row>
    requires a <= b <= |rows|
  {
    if a == b then [] else EligibleBetween(rows, a, b - 1) + if Eligible(rows[b - 1]) then [rows[b - 1]] else []
  }

  function AbandonedBetween(rows: seq<Row>, a: nat, b: nat, now: int, interval: int): nat
    requires a <= b <= |rows|
  {
    if a == b then 0
    else AbandonedBetween(rows, a, b - 1, now, interval) + if Abandoned(rows[b - 1], now, interval) then 1 else 0
  }

  function PageEnd(rows: seq<Row>, at: nat, limit: nat): nat {
    if at + limit <= |rows| then at + limit else |rows|
  }

  /** What a poll collects from place `at` of the rows it began with, if it sees
      one time and all its calls succeed: the eligible rows of a page; then it
      passes over as many rows as it has failed in that page, and goes on. */
  function CollectedFrom(rows: seq<Row>, at: nat, limit: nat, now: int, interval: int): seq<Row>
    requires limit > 0
    decreases |rows| - at
  {
    if at >= |rows| then []
    else
      var end := PageEnd(rows, at, limit);
      var next := at + limit + AbandonedBetween(rows, at, end, now, interval);
      EligibleBetween(rows, at, end) + CollectedFrom(rows, next, limit, now, interval)
  }

  lemma {:induction false} EligibleBetweenMember(rows: seq<Row>, a: nat, b: nat, i: nat)
    requires Distinct(rows) && a <= b <= |rows| && i < |rows|
    ensures rows[i] in EligibleBetween(rows, a, b) <==> a <= i < b && Eligible(rows[i])
    decreases b
  {
    if a < b {
      EligibleBetweenMember(rows, a, b - 1, i);
    }
  }

  lemma {:induction false} BehindIsNotCollected(rows: seq<Row>, at: nat, limit: nat, now: int, interval: int, i: nat)
    requires Distinct(rows) && limit > 0 && i < |rows| && i < at
    ensures rows[i] !in CollectedFrom(rows, at, limit, now, interval)
    decreases |rows| - at
  {
    if at < |rows| {
      var end := PageEnd(rows, at, limit);
      var next := at + limit + AbandonedBetween(rows, at, end, now, interval);
      EligibleBetweenMember(rows, at, end, i);
      BehindIsNotCollected(rows, next, limit, now, interval, i);
      InNeither(EligibleBetween(rows, at, end), CollectedFrom(rows, next, limit, now, interval), rows[i]);
    }
  }

  /** Each row failed in the first page hides one of the rows that follow it
      from the poll, however eligible they are. */
  lemma FailedRowsHideTheNext(rows: seq<Row>, limit: nat, now: int, interval: int, k: nat)
    requires Distinct(rows) && 0 < limit && limit + k < |rows| && k < AbandonedBetween(rows, 0, limit, now, interval)
    ensures rows[limit + k] !in CollectedFrom(rows, 0, limit, now, interval)
  {
    var next := limit + AbandonedBetween(rows, 0, limit, now, interval);
    var page, rest := EligibleBetween(rows, 0, limit), CollectedFrom(rows, next, limit, now, interval);
    EligibleBetweenMember(rows, 0, limit, limit + k);
    BehindIsNotCollected(rows, next, limit, now, interval, limit + k);
    InNeither(page, rest, rows[limit + k]);
    assert PageEnd(rows, 0, limit) == limit;
  }

  lemma InNeither<T>(a: seq<T>, b: seq<T>, x: T)
    requires x !in a && x !in b
    ensures x !in a + b
  {
  }

  ghost predicate CollectsAll(rows: seq<Row>, limit: nat, now: int, interval: int)
    requires limit > 0
  {
    forall w :: w in rows && Eligible(w) ==> w in CollectedFrom(rows, 0, limit, now, interval)
  }

  lemma {:induction false} SomeAbandoned(rows: seq<Row>, n: nat, now: int, interval: int)
    requires 0 < n <= |rows| && Abandoned(rows[0], now, interval)
    ensures AbandonedBetween(rows, 0, n, now, interval) > 0
  {
    if n > 1 {
      SomeAbandoned(rows, n - 1, now, interval);
    }
  }

  /** An abandoned row first, and then eligible ones. */
  function OneAbandoned(n: nat, now: int, interval: int): seq<Row> {
    seq(n, i requires i >= 0 => Row(seq(i, _ => '1'), "sol-mainnet", now - 2 * interval, if i == 0 then "" else "hash"))
  }

  lemma OnePageIsCollected(rows: seq<Row>, limit: nat, now: int, interval: int)
    requires Distinct(rows) && |rows| <= limit && limit > 0
    ensures CollectsAll(rows, limit, now, interval)
  {
    forall w | w in rows && Eligible(w) ensures w in CollectedFrom(rows, 0, limit, now, interval) {
      var i :| 0 <= i < |rows| && rows[i] == w;
      EligibleBetweenMember(rows, 0, |rows|, i);
    }
  }

  lemma MorePagesMayHide(n: nat, limit: nat, now: int, interval: int) returns (rows: seq<Row>)
    requires 0 < limit < n
    ensures |rows| == n && Distinct(rows) && NewestFirst(rows) && !CollectsAll(rows, limit, now, interval)
  {
    rows := OneAbandoned(n, now, interval);
    forall i, j | 0 <= i < j < n ensures rows[i] != rows[j] {
      assert |rows[i].id| == i && |rows[j].id| == j;
    }
    assert rows[limit].txHash == "hash";
    SomeAbandoned(rows, limit, now, interval);
    FailedRowsHideTheNext(rows, limit, now, interval, 0);
    assert rows[limit] in rows && Eligible(rows[limit]);
  }

  /** A poll of n rows, whatever they are, is sure to collect the eligible ones
      if and only if one page holds them all. */
  lemma CollectsAllExactlyIfOnePage(n: nat, limit: nat, now: int, interval: int)
    requires limit > 0
    ensures (forall rows :: |rows| == n && Distinct(rows) && NewestFirst(rows) ==>
               CollectsAll(rows, limit, now, interval))
            <==> n <= limit
  {
    if n <= limit {
      forall rows | |rows| == n && Distinct(rows) ensures CollectsAll(rows, limit, now, interval) {
        OnePageIsCollected(rows, limit, now, interval);
      }
    } else {
      var rows := MorePagesMayHide(n, limit, now, interval);
    }
  }

  /** What there is to collect: every withdrawal with a hash, but for the two
      bitcoin chains'. */
  lemma OnlyBitcoinIsNotEligible(w: Row)
    ensures Eligible(w) <==> w.txHash != "" && w.chain !in {"btc-mainnet", "btc-testnet"}
  {
  }

  // ---- Exactly which lists are collected whole ----

  /** A clean poll that goes on from place `at` passes over place i. */
  predicate PassedOver(rows: seq<Row>, at: nat, limit: nat, now: int, interval: int, i: nat)
    requires limit > 0
    decreases |rows| - at
  {
    at < |rows| &&
      var end := PageEnd(rows, at, limit);
      var next := at + limit + AbandonedBetween(rows, at, end, now, interval);
      end <= i < next || PassedOver(rows, next, limit, now, interval, i)
  }

  lemma {:induction false} CollectedExactlyIfNotPassed(rows: seq<Row>, at: nat, limit: nat, now: int, interval: int,
                                                       i: nat)
    requires Distinct(rows) && limit > 0 && i < |rows|
    ensures rows[i] in CollectedFrom(rows, at, limit, now, interval)
            <==> at <= i && Eligible(rows[i]) && !PassedOver(rows, at, limit, now, interval, i)
    decreases |rows| - at
  {
    if at < |rows| {
      var end := PageEnd(rows, at, limit);
      var next := at + limit + AbandonedBetween(rows, at, end, now, interval);
      var page, rest := EligibleBetween(rows, at, end), CollectedFrom(rows, next, limit, now, interval);
      EligibleBetweenMember(rows, at, end, i);
      CollectedExactlyIfNotPassed(rows, next, limit, now, interval, i);
      InEither(page, rest, rows[i]);
      if i < next { OnlyPlacesAheadArePassed(rows, next, limit, now, interval, i); }
    }
  }

  lemma {:induction false} OnlyPlacesAheadArePassed(rows: seq<Row>, at: nat, limit: nat, now: int, interval: int,
                                                    i: nat)
    requires limit > 0 && i < at
    ensures !PassedOver(rows, at, limit, now, interval, i)
    decreases |rows| - at
  {
    if at < |rows| {
      var end := PageEnd(rows, at, limit);
      var next := at + limit + AbandonedBetween(rows, at, end, now, interval);
      OnlyPlacesAheadArePassed(rows, next, limit, now, interval, i);
    }
  }

  lemma InEither<T>(a: seq<T>, b: seq<T>, x: T)
    ensures x in a + b <==> x in a || x in b
  {
  }

  /** A clean poll collects every eligible row of a list if and only if it
      passes over none of them. */
  lemma CollectsAllExactlyIfNonePassed(rows: seq<Row>, limit: nat, now: int, interval: int)
    requires Distinct(rows) && limit > 0
    ensures CollectsAll(rows, limit, now, interval)
            <==> forall i :: 0 <= i < |rows| && Eligible(rows[i]) ==> !PassedOver(rows, 0, limit, now, interval, i)
  {
    forall i | 0 <= i < |rows|
      ensures rows[i] in CollectedFrom(rows, 0, limit, now, interval)
              <==> Eligible(rows[i]) && !PassedOver(rows, 0, limit, now, interval, i)
    {
      CollectedExactlyIfNotPassed(rows, 0, limit, now, interval, i);
    }
    if CollectsAll(rows, limit, now, interval) {
      forall i | 0 <= i < |rows| && Eligible(rows[i]) ensures !PassedOver(rows, 0, limit, now, interval, i) {
        assert rows[i] in rows;
      }
    }
  }

  // ---- A poll ----

  /** How far a poll has got. For the proof: the place it has reached in the
      rows it began with, the places it has passed over, the rows it has failed,
      and the marking writes. */
  datatype Poll = Poll(
    pending: seq<Row>, clock: int, groups: map<string, seq<Row>>, collected: seq<Row>,
    at: nat, passed: set<nat>, failed: seq<Row>, failures: nat, marked: seq<Mark>)

  /** The poll started at time `start` from the rows `rows`, after these marking
      writes, of which so many had failed. */
  datatype Origin = Origin(rows: seq<Row>, start: int, interval: int, failures: nat, marked: seq<Mark>)

  /** No time has passed, and no write has failed. */
  predicate Clean(o: Origin, p: Poll) {
    p.clock == o.start && p.failures == o.failures
  }

  /** The rows marked failed are those no longer pending. */
  ghost predicate Tracked(o: Origin, p: Poll) {
    && Distinct(p.pending) && |p.pending| + |p.failed| == |o.rows|
    && (forall w :: w in o.rows <==> w in p.pending || w in p.failed)
    && (forall w :: w in p.failed ==> Abandoned(w, p.clock, o.interval) && w !in p.pending)
  }

  /** The pending row as many places down as rows were removed. */
  function PendingAt(pending: seq<Row>, removed: nat, k: nat): Row
    requires removed <= k < |pending| + removed
  {
    pending[k - removed]
  }

  /** A marking write of the poll, of a row that was abandoned when it was made. */
  predicate Due(o: Origin, p: Poll, m: Mark) {
    m.row in o.rows && o.start <= m.time <= p.clock && Abandoned(m.row, m.time, o.interval)
  }

  /** The rows that have been failed are those of the writes that succeeded. */
  ghost predicate Logged(o: Origin, p: Poll) {
    && o.marked <= p.marked
    && (forall i :: |o.marked| <= i < |p.marked| ==> Due(o, p, p.marked[i]))
    && (forall w :: w in p.failed <==> w in Gone(p.marked, |o.marked|))
  }

  /** From the place reached on, the rows are still pending. */
  ghost predicate Ahead(o: Origin, p: Poll) {
    && |p.failed| <= p.at <= |o.rows| == |p.pending| + |p.failed|
    && (forall k {:trigger PendingAt(p.pending, |p.failed|, k)} :: p.at <= k < |o.rows| ==>
          PendingAt(p.pending, |p.failed|, k) == o.rows[k])
  }

  /** The eligible rows of the first n places, without those passed over. */
  function EligibleUpTo(rows: seq<Row>, n: nat, passed: set<nat>): seq<Row>
    requires n <= |rows|
  {
    if n == 0 then []
    else EligibleUpTo(rows, n - 1, passed) + if n - 1 !in passed && Eligible(rows[n - 1]) then [rows[n - 1]] else []
  }

  /** Everything visited that is eligible has been collected. */
  ghost predicate Collected(o: Origin, p: Poll) {
    && p.at <= |o.rows| && (forall k :: k in p.passed ==> k < p.at)
    && p.collected == EligibleUpTo(o.rows, p.at, p.passed)
    && (forall chain :: Group(p.groups, chain) == ForChain(p.collected, chain))
  }

  ghost predicate Sound(o: Origin, p: Poll) {
    Tracked(o, p) && Logged(o, p) && Ahead(o, p) && Collected(o, p)
  }

  function Skip(p: Poll): Poll {
    p.(at := p.at + 1)
  }

  function Fail(p: Poll, w: Row, ok: bool): Poll {
    var q := p.(at := p.at + 1, marked := p.marked + [Mark(w, p.clock, ok)]);
    if ok then q.(failed := p.failed + [w], pending := Without(p.pending, w)) else q.(failures := p.failures + 1)
  }

  function Collect(p: Poll, w: Row): Poll {
    p.(at := p.at + 1, collected := p.collected + [w], groups := p.groups[w.chain := Group(p.groups, w.chain) + [w]])
  }

  lemma SkipKeepsSound(o: Origin, p: Poll)
    requires Sound(o, p) && p.at < |o.rows| && !Eligible(o.rows[p.at])
    ensures Sound(o, Skip(p))
  {
  }

  lemma TickKeepsSound(o: Origin, p: Poll, now: int)
    requires Sound(o, p) && p.clock <= now
    ensures Sound(o, p.(clock := now))
  {
  }

  lemma FailKeepsLogged(o: Origin, p: Poll, ok: bool)
    requires Logged(o, p) && p.at < |o.rows| && o.start <= p.clock && Abandoned(o.rows[p.at], p.clock, o.interval)
    ensures Logged(o, Fail(p, o.rows[p.at], ok))
  {
    var w, q := o.rows[p.at], Fail(p, o.rows[p.at], ok);
    GoneOneMore(p.marked, |o.marked|, Mark(w, p.clock, ok));
    forall i | |o.marked| <= i < |q.marked| ensures Due(o, q, q.marked[i]) {
      assert i < |p.marked| ==> Due(o, p, p.marked[i]);
    }
  }

  lemma FailKeepsSound(o: Origin, p: Poll, ok: bool)
    requires Sound(o, p) && p.at < |o.rows| && o.start <= p.clock && Abandoned(o.rows[p.at], p.clock, o.interval)
    ensures Sound(o, Fail(p, o.rows[p.at], ok))
  {
    FailKeepsLogged(o, p, ok);
    if ok { FailingKeepsRows(o, p); }
  }

  lemma FailingKeepsRows(o: Origin, p: Poll)
    requires Tracked(o, p) && Ahead(o, p) && p.at < |o.rows| && Abandoned(o.rows[p.at], p.clock, o.interval)
    ensures Tracked(o, Fail(p, o.rows[p.at], true)) && Ahead(o, Fail(p, o.rows[p.at], true))
  {
    var q := Fail(p, o.rows[p.at], true);
    assert PendingAt(p.pending, |p.failed|, p.at) == o.rows[p.at];
    WithoutMembers(p.pending, o.rows[p.at]);
    WithoutAt(p.pending, p.at - |p.failed|);
    forall k | q.at <= k < |o.rows| ensures PendingAt(q.pending, |q.failed|, k) == o.rows[k] {
      assert PendingAt(p.pending, |p.failed|, k) == o.rows[k];
    }
  }

  lemma CollectKeepsSound(o: Origin, p: Poll)
    requires Sound(o, p) && p.at < |o.rows| && Eligible(o.rows[p.at])
    ensures Sound(o, Collect(p, o.rows[p.at]))
  {
    GroupOneMore(p.groups, p.collected, o.rows[p.at]);
  }

  /** What handling the next row does to the poll. */
  ghost predicate RowHandled(o: Origin, p: Poll, q: Poll)
    requires p.at < |o.rows|
  {
    && q.at == p.at + 1 && q.passed == p.passed
    && q.collected == p.collected + (if Eligible(o.rows[p.at]) then [o.rows[p.at]] else [])
    && |p.failed| <= |q.failed|
    && (Clean(o, q) ==>
          && Clean(o, p)
          && |q.failed| == |p.failed| + if Abandoned(o.rows[p.at], o.start, o.interval) then 1 else 0)
  }

  // ---- From page to page ----

  /** What a clean poll has collected and is still to collect is what it is to
      collect in all. */
  ghost predicate OnCourse(o: Origin, p: Poll, limit: nat)
    requires limit > 0
  {
    Clean(o, p) ==>
      p.collected + CollectedFrom(o.rows, p.at, limit, o.start, o.interval)
      == CollectedFrom(o.rows, 0, limit, o.start, o.interval)
  }

  /** Between two pages: the place is as many rows on as were failed. */
  ghost predicate Between(o: Origin, p: Poll, limit: nat, offset: nat)
    requires limit > 0
  {
    && p.at == Min(offset + |p.failed|, |o.rows|) && |p.passed| <= |p.failed|
    && (|o.rows| <= limit ==> p.passed == {})
    && OnCourse(o, p, limit)
  }

  /** Within a page begun at p, of which the rows up to q.at are done. */
  ghost predicate InPage(o: Origin, p: Poll, q: Poll) {
    && p.at <= q.at <= |o.rows| && q.passed == p.passed && |p.failed| <= |q.failed|
    && (Clean(o, q) ==>
          && Clean(o, p) && q.collected == p.collected + EligibleBetween(o.rows, p.at, q.at)
          && |q.failed| == |p.failed| + AbandonedBetween(o.rows, p.at, q.at, o.start, o.interval))
  }

  lemma RowDone(o: Origin, p: Poll, q: Poll, q': Poll)
    requires InPage(o, p, q) && q.at < |o.rows| && RowHandled(o, q, q')
    ensures InPage(o, p, q')
  {
  }

  lemma PageIsAhead(o: Origin, p: Poll, page: seq<Row>, limit: nat, offset: nat)
    requires limit > 0 && Ahead(o, p) && Between(o, p, limit, offset)
    requires page == Page(p.pending, limit, offset) && page != []
    ensures p.at + |page| == PageEnd(o.rows, p.at, limit) && p.at == offset + |p.failed|
    ensures forall i :: 0 <= i < |page| ==> page[i] == o.rows[p.at + i]
  {
    forall i | 0 <= i < |page| ensures page[i] == o.rows[p.at + i] {
      assert page[i] == p.pending[offset + i] == PendingAt(p.pending, |p.failed|, p.at + i);
    }
  }

  /** The places from a up to b, jumped over. */
  function Places(a: nat, b: nat): set<nat>
    requires a <= b
  {
    if a == b then {} else Places(a, b - 1) + {b - 1}
  }

  lemma {:induction false} PlacesMembers(a: nat, b: nat)
    requires a <= b
    ensures |Places(a, b)| == b - a && forall k :: k in Places(a, b) <==> a <= k < b
  {
    if a < b {
      PlacesMembers(a, b - 1);
    }
  }

  lemma {:induction false} PassedAddNothing(rows: seq<Row>, n: nat, next: nat, passed: set<nat>)
    requires n <= next <= |rows| && forall k :: k in passed ==> k < n
    ensures EligibleUpTo(rows, next, passed + Places(n, next)) == EligibleUpTo(rows, n, passed)
    decreases next
  {
    PlacesMembers(n, next);
    if n < next {
      PassedAddNothing(rows, n, next - 1, passed);
      SamePassed(rows, next - 1, passed + Places(n, next), passed + Places(n, next - 1));
    } else {
      SamePassed(rows, n, passed + Places(n, next), passed);
    }
  }

  lemma {:induction false} SamePassed(rows: seq<Row>, n: nat, a: set<nat>, b: set<nat>)
    requires n <= |rows| && forall k :: 0 <= k < n ==> (k in a <==> k in b)
    ensures EligibleUpTo(rows, n, a) == EligibleUpTo(rows, n, b)
  {
    if n > 0 {
      SamePassed(rows, n - 1, a, b);
    }
  }

  /** Jumping over rows. */
  function Jump(p: Poll, next: nat): Poll
    requires p.at <= next
  {
    p.(at := next, passed := p.passed + Places(p.at, next))
  }

  lemma JumpKeepsSound(o: Origin, p: Poll, next: nat)
    requires Sound(o, p) && p.at <= next <= |o.rows|
    ensures Sound(o, Jump(p, next)) && |Jump(p, next).passed| <= |p.passed| + next - p.at
    ensures p.at == next ==> Jump(p, next).passed == p.passed
  {
    PassedAddNothing(o.rows, p.at, next, p.passed);
    PlacesMembers(p.at, next);
    SizeOfBoth(p.passed, Places(p.at, next));
  }

  lemma SizeOfBoth<T>(a: set<T>, b: set<T>)
    ensures |a + b| <= |a| + |b|
  {
    assert |a + b| == |a| + |b| - |a * b|;
  }

  /** A page keeps a clean poll on course. */
  lemma PageCourse(o: Origin, p: Poll, q: Poll, limit: nat, next: nat)
    requires limit > 0 && p.at < |o.rows| && OnCourse(o, p, limit) && InPage(o, p, q) && Clean(o, q)
    requires q.at == PageEnd(o.rows, p.at, limit)
    requires next == Min(p.at + limit + AbandonedBetween(o.rows, p.at, q.at, o.start, o.interval), |o.rows|)
    ensures q.collected + CollectedFrom(o.rows, next, limit, o.start, o.interval)
            == CollectedFrom(o.rows, 0, limit, o.start, o.interval)
  {
    var more, rest := EligibleBetween(o.rows, p.at, q.at), CollectedFrom(o.rows, next, limit, o.start, o.interval);
    assert CollectedFrom(o.rows, p.at, limit, o.start, o.interval) == more + rest;
    assert p.collected + more + rest == p.collected + (more + rest);
  }

  /** The page done: the next one passes over as many rows as it has failed. */
  lemma PageDone(o: Origin, p: Poll, q: Poll, limit: nat, offset: nat) returns (q': Poll)
    requires limit > 0 && Sound(o, q) && Between(o, p, limit, offset) && p.at == offset + |p.failed| < |o.rows|
    requires InPage(o, p, q) && q.at == PageEnd(o.rows, p.at, limit)
    ensures q' == q.(at := q'.at, passed := q'.passed) && Sound(o, q') && Between(o, q', limit, offset + limit)
  {
    var next := Min(offset + limit + |q.failed|, |o.rows|);
    q' := Jump(q, next);
    JumpKeepsSound(o, q, next);
    if Clean(o, q) {
      PageCourse(o, p, q, limit, next);
    }
  }

  lemma PollBegins(o: Origin, p: Poll, limit: nat)
    requires limit > 0 && Distinct(o.rows) && p == Poll(o.rows, o.start, map[], [], 0, {}, [], o.failures, o.marked)
    ensures Sound(o, p) && Between(o, p, limit, 0)
  {
  }

  // ---- What a poll misses ----

  lemma {:induction false} EligibleUpToMember(rows: seq<Row>, n: nat, passed: set<nat>, k: nat)
    requires Distinct(rows) && n <= |rows| && k < |rows|
    ensures rows[k] in EligibleUpTo(rows, n, passed) <==> k < n && k !in passed && Eligible(rows[k])
  {
    if n > 0 {
      EligibleUpToMember(rows, n - 1, passed, k);
    }
  }

  lemma {:induction false} EligibleUpToDistinct(rows: seq<Row>, n: nat, passed: set<nat>)
    requires Distinct(rows) && n <= |rows|
    ensures Distinct(EligibleUpTo(rows, n, passed)) && forall w :: w in EligibleUpTo(rows, n, passed) ==>
              w in rows && Eligible(w)
  {
    if n > 0 {
      EligibleUpToDistinct(rows, n - 1, passed);
      EligibleUpToMember(rows, n - 1, passed, n - 1);
    }
  }

  lemma {:induction false} AtPlaces(rows: seq<Row>, s: set<Row>, places: set<nat>)
    requires forall w :: w in s ==> exists k :: k in places && k < |rows| && rows[k] == w
    ensures |s| <= |places|
    decreases places
  {
    if s != {} {
      var w :| w in s;
      var k :| k in places && k < |rows| && rows[k] == w;
      AtPlaces(rows, s - {w}, places - {k});
    }
  }

  /** What the end of the poll has missed. */
  lemma PollEnds(o: Origin, p: Poll, limit: nat, offset: nat)
    requires limit > 0 && Distinct(o.rows) && Sound(o, p) && Between(o, p, limit, offset) && offset >= |p.pending|
    ensures |set w | w in o.rows && Eligible(w) && w !in p.collected| <= |p.failed|
    ensures p.failed == [] || |o.rows| <= limit ==> forall w :: w in o.rows && Eligible(w) ==> w in p.collected
    ensures Clean(o, p) ==> p.collected == CollectedFrom(o.rows, 0, limit, o.start, o.interval)
  {
    var missed := set w | w in o.rows && Eligible(w) && w !in p.collected;
    forall w | w in missed ensures exists k :: k in p.passed && k < |o.rows| && o.rows[k] == w {
      var k :| 0 <= k < |o.rows| && o.rows[k] == w;
      EligibleUpToMember(o.rows, p.at, p.passed, k);
    }
    AtPlaces(o.rows, missed, p.passed);
    forall w | (p.failed == [] || |o.rows| <= limit) && w in o.rows && Eligible(w) ensures w in p.collected {
      assert w !in missed;
    }
    assert p.collected + [] == p.collected;
  }

  class Poller {
    // The rows of withdrawals with status 'pending', as the query orders them.
    var pending: seq<Row>
    var clock: int
    const interval: int

    // How many of the two calls to the store have failed, and the marking
    // writes made.
    var failedLoads: nat
    var failedWrites: nat
    var marked: seq<Mark>

    constructor (rows: seq<Row>, now: int, interval: int)
      ensures pending == rows && clock == now && this.interval == interval && failedLoads == failedWrites == 0
      ensures marked == []
    {
      pending, clock, this.interval := rows, now, interval;
      failedLoads, failedWrites, marked := 0, 0, [];
    }

    method LoadPending(limit: nat, offset: nat) returns (ok: bool, page: seq<Row>)
      modifies this`failedLoads
      ensures failedLoads == old(failedLoads) + if ok then 0 else 1
      ensures ok ==> page == Page(pending, limit, offset)
    {
      ok := *;
      if ok {
        page := Page(pending, limit, offset);
      } else {
        page := [];
        failedLoads := failedLoads + 1;
      }
    }

    method Now() returns (now: int)
      modifies this`clock
      ensures old(clock) <= clock == now
    {
      var elapsed: int :| elapsed >= 0;
      clock := clock + elapsed;
      now := clock;
    }

    method MarkFailed(w: Row) returns (ok: bool)
      modifies this`pending, this`failedWrites, this`marked
      ensures pending == if ok then Without(old(pending), w) else old(pending)
      ensures failedWrites == old(failedWrites) + if ok then 0 else 1
      ensures marked == old(marked) + [Mark(w, clock, ok)]
    {
      ok := *;
      marked := marked + [Mark(w, clock, ok)];
      if ok {
        pending := Without(pending, w);
      } else {
        failedWrites := failedWrites + 1;
      }
    }

    ghost predicate Shows(o: Origin, p: Poll)
      reads this
    {
      && p.pending == pending && p.clock == clock && p.failures == failedWrites && p.marked == marked
      && o.interval == interval && o.start <= p.clock && o.failures <= p.failures
    }

    /** One row of a page: left alone, marked failed or collected. */
    method ProcessWithdrawal(w: Row, groups: map<string, seq<Row>>, ghost o: Origin, ghost p: Poll)
      returns (groups': map<string, seq<Row>>, ghost q: Poll)
      requires Shows(o, p) && p.groups == groups && Sound(o, p) && p.at < |o.rows| && w == o.rows[p.at]
      modifies this
      ensures Shows(o, q) && q.groups == groups' && Sound(o, q)
      ensures RowHandled(o, p, q) && failedLoads == old(failedLoads)
    {
      groups', q := groups, p;
      if IsPDMChain(w.chain) {
        SkipKeepsSound(o, q);
        q := Skip(q);
        return;
      }
      if w.txHash == "" {
        var now := Now();
        TickKeepsSound(o, q, now);
        q := q.(clock := now);
        if now - w.createdAt < interval * 2 {
          SkipKeepsSound(o, q);
          q := Skip(q);
          return;
        }
        var ok := MarkFailed(w);
        FailKeepsSound(o, q, ok);
        q := Fail(q, w, ok);
        return;
      }
      CollectKeepsSound(o, q);
      groups' := groups[w.chain := Group(groups, w.chain) + [w]];
      q := Collect(q, w);
    }

    method ProcessPage(page: seq<Row>, groups: map<string, seq<Row>>, limit: nat, offset: nat, ghost o: Origin,
                       ghost p: Poll)
      returns (groups': map<string, seq<Row>>, ghost q: Poll)
      requires limit > 0 && page == Page(pending, limit, offset) && page != []
      requires Shows(o, p) && p.groups == groups && Sound(o, p) && Between(o, p, limit, offset)
      modifies this
      ensures Shows(o, q) && q.groups == groups' && Sound(o, q) && Between(o, q, limit, offset + limit)
      ensures failedLoads == old(failedLoads) && |q.pending| <= |p.pending|
    {
      PageIsAhead(o, p, page, limit, offset);
      groups', q := groups, p;
      for j := 0 to |page|
        invariant Shows(o, q) && q.groups == groups' && Sound(o, q) && failedLoads == old(failedLoads)
        invariant q.at == p.at + j && InPage(o, p, q)
      {
        ghost var before := q;
        groups', q := ProcessWithdrawal(page[j], groups', o, q);
        RowDone(o, p, before, q);
      }
      q := PageDone(o, p, q, limit, offset);
    }

    /** A marking write of one of these rows, abandoned when it was made, since
        that time. */
    predicate DueSince(rows: seq<Row>, start: int, m: Mark)
      reads this
    {
      m.row in rows && start <= m.time <= clock && Abandoned(m.row, m.time, interval)
    }

    /** Page after page, until one is empty or cannot be loaded. */
    method PageThrough(limit: nat, ghost o: Origin)
      returns (ok: bool, groups: map<string, seq<Row>>, ghost p: Poll, ghost end: nat)
      requires limit > 0 && Distinct(o.rows) && o == Origin(pending, clock, interval, failedWrites, marked)
      modifies this
      ensures Shows(o, p) && p.groups == groups && Sound(o, p)
      ensures failedLoads == old(failedLoads) + if ok then 0 else 1
      ensures ok ==> Between(o, p, limit, end) && end >= |p.pending|
    {
      var offset: nat := 0;
      groups := map[];
      p := Poll(pending, clock, groups, [], 0, {}, [], failedWrites, marked);
      PollBegins(o, p, limit);
      while true
        invariant Shows(o, p) && p.groups == groups && Sound(o, p) && Between(o, p, limit, offset)
        invariant failedLoads == old(failedLoads)
        decreases if offset < |p.pending| then |p.pending| - offset else 0
      {
        var page;
        ok, page := LoadPending(limit, offset);
        if !ok || |page| == 0 {
          break;
        }
        groups, p := ProcessPage(page, groups, limit, offset, o, p);
        offset := offset + limit;
      }
      end := offset;
    }

    /** One poll, with nothing else changing the pending rows. */
    method ProcessPendingWithdrawals(limit: nat)
      returns (ok: bool, groups: map<string, seq<Row>>, ghost collected: seq<Row>, ghost failed: seq<Row>)
      requires limit > 0 && Distinct(pending)
      modifies this
      ensures clock >= old(clock) && failedWrites >= old(failedWrites)
      ensures failedLoads == old(failedLoads) + if ok then 0 else 1
      // No row is collected twice, and the groups are the collected rows.
      ensures Distinct(collected) && forall chain :: Group(groups, chain) == ForChain(collected, chain)
      ensures forall w :: w in collected ==> w in old(pending) && Eligible(w)
      // Every marking write is of a row abandoned when it is made; the rows
      // failed are those of the writes that succeed, and the others stay.
      ensures old(marked) <= marked && forall i :: |old(marked)| <= i < |marked| ==>
                DueSince(old(pending), old(clock), marked[i])
      ensures forall w :: w in failed <==> w in Gone(marked, |old(marked)|)
      ensures forall w :: w in old(pending) <==> w in pending || w in failed
      ensures forall w :: w in failed ==> w !in pending
      ensures |failed| == |old(pending)| - |pending|
      // No more eligible rows are skipped than rows were failed, and none if
      // there was one page.
      ensures ok ==> |set w | w in old(pending) && Eligible(w) && w !in collected| <= |failed|
      ensures ok && (failed == [] || |old(pending)| <= limit) ==> forall w :: w in old(pending) && Eligible(w) ==>
                w in collected
      // With clean writes at one time, exactly which.
      ensures failedLoads == old(failedLoads) && failedWrites == old(failedWrites) && clock == old(clock) ==>
                collected == CollectedFrom(old(pending), 0, limit, clock, interval)
    {
      ghost var o := Origin(pending, clock, interval, failedWrites, marked);
      ghost var p, end;
      ok, groups, p, end := PageThrough(limit, o);
      collected, failed := p.collected, p.failed;
      EligibleUpToDistinct(o.rows, p.at, p.passed);
      if ok {
        PollEnds(o, p, limit, end);
      }
    }
  }
}
