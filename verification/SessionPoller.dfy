/** The deposit poller: pages through the pending sessions, newest first,
    expires the timed-out ones on the way and groups the others by chain. */
module SessionPoller {
  import opened Numbers
  import opened Paging

  predicate TimedOut(s: Row, now: int, timeout: int) {
    now - s.createdAt > timeout
  }

  predicate IsStale(s: Row, now: int, timeout: int) {
    TimedOut(s, now, timeout) && !IsPDMChain(s.chain)
  }

  /** The timed-out sessions that the poller is due to expire. */
  ghost function StaleRows(rows: seq<Row>, now: int, timeout: int): set<Row> {
    set s | s in rows && IsStale(s, now, timeout)
  }

  ghost function Stale(rows: seq<Row>, now: int, timeout: int): nat {
    |StaleRows(rows, now, timeout)|
  }

  lemma Smaller<T>(a: set<T>, b: set<T>)
    requires a <= b
    ensures |a| <= |b|
  {
    assert b == a + (b - a);
  }

  lemma StaleOfOneMore(rows: seq<Row>, n: nat, now: int, timeout: int)
    requires n < |rows|
    ensures StaleRows(rows[..n + 1], now, timeout)
            == StaleRows(rows[..n], now, timeout) + if IsStale(rows[n], now, timeout) then {rows[n]} else {}
  {
    assert rows[..n + 1] == rows[..n] + [rows[n]];
  }

  /** The first b rows have at most b - a more stale ones than the first a. */
  lemma {:induction false} StaleOfMore(rows: seq<Row>, a: nat, b: nat, now: int, timeout: int)
    requires a <= b <= |rows|
    ensures Stale(rows[..b], now, timeout) <= Stale(rows[..a], now, timeout) + b - a
    decreases b - a
  {
    if a < b {
      StaleOfMore(rows, a, b - 1, now, timeout);
      StaleOfOneMore(rows, b - 1, now, timeout);
      Smaller(StaleRows(rows[..b], now, timeout), StaleRows(rows[..b - 1], now, timeout) + {rows[b - 1]});
    }
  }

  lemma StaleWithout(rows: seq<Row>, x: Row, now: int, timeout: int)
    requires x in rows && IsStale(x, now, timeout)
    ensures Stale(Without(rows, x), now, timeout) == Stale(rows, now, timeout) - 1
  {
    WithoutMembers(rows, x);
    assert StaleRows(Without(rows, x), now, timeout) == StaleRows(rows, now, timeout) - {x};
  }

  /** What a completed poll dispatches, for some cut of the rows it started
      from: everything before the cut, and after it only rows timed out by the
      end of the poll. */
  ghost predicate DispatchedUpTo(rows: seq<Row>, cut: nat, groups: map<string, seq<Row>>, now: int, timeout: int) {
    && cut <= |rows|
    && (forall k :: cut <= k < |rows| ==> TimedOut(rows[k], now, timeout))
    && (forall chain :: Group(groups, chain) == ForChain(rows[..cut], chain))
  }

  /** Rows of the two bitcoin chains are left alone, and no others: every other
      chain has its rows before the cut, newest first. */
  lemma OnlyBitcoinIsLeftAlone(
    rows: seq<Row>, cut: nat, groups: map<string, seq<Row>>, now: int, timeout: int, chain: string)
    requires DispatchedUpTo(rows, cut, groups, now, timeout) && NewestFirst(rows)
    ensures NewestFirst(Group(groups, chain))
    ensures chain in {"btc-mainnet", "btc-testnet"} ==> Group(groups, chain) == []
    ensures chain !in {"btc-mainnet", "btc-testnet"} ==>
              forall s :: s in Group(groups, chain) <==> s in rows[..cut] && s.chain == chain
  {
    ForChainMembers(rows[..cut], chain);
    ForChainInOrder(rows[..cut], chain);
    if chain in {"btc-mainnet", "btc-testnet"} { NoneForPDMChain(rows[..cut], chain); }
  }

  /** How often a row occurs in a sequence. */
  function Occurrences(rows: seq<Row>, s: Row): nat {
    multiset(rows)[s]
  }

  lemma DistinctOccurrences(rows: seq<Row>, s: Row)
    requires Distinct(rows)
    ensures Occurrences(rows, s) == if s in rows then 1 else 0
  {
    if s in rows {
      var i :| 0 <= i < |rows| && rows[i] == s;
      assert rows == rows[..i] + [s] + rows[i + 1..];
      assert s !in rows[..i] && s !in rows[i + 1..];
    }
  }

  /** Every session that is still live when the poll ends, and not on a PDM
      chain, is dispatched exactly once and to its own chain's group only. */
  lemma LiveSessionsAreDispatchedOnce(
    rows: seq<Row>, cut: nat, groups: map<string, seq<Row>>, now: int, timeout: int, s: Row, chain: string)
    requires Distinct(rows) && DispatchedUpTo(rows, cut, groups, now, timeout)
    requires s in rows && now <= s.createdAt + timeout && !IsPDMChain(s.chain)
    ensures Occurrences(Group(groups, chain), s) == if chain == s.chain then 1 else 0
  {
    var k :| 0 <= k < |rows| && rows[k] == s;
    assert k < cut;
    assert rows[..cut][k] == s;
    assert Distinct(rows[..cut]);
    ForChainMembers(rows[..cut], chain);
    ForChainDistinct(rows[..cut], chain);
    DistinctOccurrences(ForChain(rows[..cut], chain), s);
  }

  /** How far a poll of `rows` has got: the rows still pending, the clock, the
      groups, and for the proof the cut (the first timed-out row met, or where
      the paging is until there is one) and the expiry writes so far. */
  datatype Poll = Poll(
    pending: seq<Row>, clock: int, groups: map<string, seq<Row>>,
    cut: nat, expiring: bool, failures: nat, marked: seq<Mark>)

  /** The poll started at time `start` from the rows `rows`, after these expiry
      writes, of which so many had failed. */
  datatype Origin = Origin(rows: seq<Row>, start: int, timeout: int, failures: nat, marked: seq<Mark>)
  {
    ghost predicate Valid() {
      Distinct(rows) && NewestFirst(rows)
    }
  }

  /** The rows left are those of the start of the poll, less expired ones. */
  ghost predicate OnlyExpired(o: Origin, p: Poll) {
    && o.start <= p.clock
    && Distinct(p.pending) && NewestFirst(p.pending)
    && (forall s :: s in p.pending ==> s in o.rows)
    && (forall s :: s in o.rows && s !in p.pending ==> TimedOut(s, p.clock, o.timeout) && !IsPDMChain(s.chain))
  }

  /** An expiry write of the poll, of a row that was timed out when it was made. */
  predicate Due(o: Origin, p: Poll, m: Mark) {
    && m.row in o.rows && o.start <= m.time <= p.clock
    && TimedOut(m.row, m.time, o.timeout) && !IsPDMChain(m.row.chain)
  }

  /** The rows that have left are those of the writes that succeeded. */
  ghost predicate Logged(o: Origin, p: Poll) {
    && o.marked <= p.marked
    && (forall i :: |o.marked| <= i < |p.marked| ==> Due(o, p, p.marked[i]))
    && (forall s :: s in o.rows ==> (s !in p.pending <==> s in Gone(p.marked, |o.marked|)))
  }

  /** While no time passes, every row removed is one that was stale. */
  ghost predicate Counted(o: Origin, p: Poll) {
    && |p.pending| <= |o.rows| && o.failures <= p.failures
    && (p.clock == o.start ==>
          Stale(p.pending, o.start, o.timeout) + |o.rows| - |p.pending| == Stale(o.rows, o.start, o.timeout))
  }

  /** No time has passed, and no expiry write has failed. */
  predicate Clean(o: Origin, p: Poll) {
    p.clock == o.start && p.failures == o.failures
  }

  /** Of the first rows, no more are still stale than the paging has passed over:
      as many as it had removed. */
  ghost predicate Swept(o: Origin, p: Poll, at: nat, removed: nat) {
    at <= |p.pending| && (Clean(o, p) ==> Stale(p.pending[..at], o.start, o.timeout) <= removed)
  }

  /** The rows before the cut were grouped by chain, none of them timed out
      when the poll started unless it was skipped for its chain. */
  ghost predicate Grouped(o: Origin, p: Poll) {
    && p.cut <= |o.rows|
    && (forall chain :: Group(p.groups, chain) == ForChain(o.rows[..p.cut], chain))
    && (forall k :: 0 <= k < p.cut ==> !TimedOut(o.rows[k], o.start, o.timeout) || IsPDMChain(o.rows[k].chain))
  }

  /** A row from the cut on: not before it, and no newer than the one there. */
  ghost predicate Late(s: Row, rows: seq<Row>, cut: nat)
    requires cut < |rows|
  {
    s !in rows[..cut] && s.createdAt <= rows[cut].createdAt
  }

  /** Nothing is removed until a timed-out row is met; then that row is the cut,
      and the rows left beyond it are no newer. */
  ghost predicate Cut(o: Origin, p: Poll) {
    && (!p.expiring ==> p.pending == o.rows)
    && (p.expiring ==>
         && p.cut < |o.rows| && p.cut <= |p.pending|
         && p.pending[..p.cut] == o.rows[..p.cut]
         && TimedOut(o.rows[p.cut], p.clock, o.timeout)
         && (forall k :: p.cut <= k < |p.pending| ==> Late(p.pending[k], o.rows, p.cut)))
  }

  ghost predicate Sound(o: Origin, p: Poll) {
    o.Valid() && OnlyExpired(o, p) && Logged(o, p) && Counted(o, p) && Grouped(o, p) && Cut(o, p)
  }

  /** The next row is the one at the cut, or beyond it once rows expire. */
  ghost predicate Next(o: Origin, p: Poll, s: Row) {
    && s in p.pending
    && p.cut < |o.rows|
    && if p.expiring then Late(s, o.rows, p.cut) else s == o.rows[p.cut]
  }

  lemma TickKeepsSound(o: Origin, p: Poll, now: int)
    requires Sound(o, p) && p.clock <= now
    ensures Sound(o, p.(clock := now))
  {
  }

  lemma SkipKeepsSound(o: Origin, p: Poll, s: Row)
    requires Sound(o, p) && Next(o, p, s) && IsPDMChain(s.chain) && !p.expiring
    ensures Sound(o, p.(cut := p.cut + 1))
  {
    assert o.rows[..p.cut + 1] == o.rows[..p.cut] + [s];
    GroupOneMore(p.groups, o.rows[..p.cut], s);
  }

  lemma DispatchKeepsSound(o: Origin, p: Poll, s: Row)
    requires Sound(o, p) && Next(o, p, s) && !IsPDMChain(s.chain) && !TimedOut(s, p.clock, o.timeout)
    ensures !p.expiring
    ensures Sound(o, Dispatch(p, s))
  {
    assert o.rows[..p.cut + 1] == o.rows[..p.cut] + [s];
    GroupOneMore(p.groups, o.rows[..p.cut], s);
  }

  /** The poll after the expiry write of s, which may have failed. */
  function Expired(p: Poll, s: Row, ok: bool): Poll {
    p.(pending := if ok then Without(p.pending, s) else p.pending,
       expiring := true, failures := p.failures + (if ok then 0 else 1), marked := p.marked + [Mark(s, p.clock, ok)])
  }

  lemma RowsBeyondAreLate(o: Origin, cut: nat, k: nat)
    requires o.Valid() && cut <= k < |o.rows|
    ensures Late(o.rows[k], o.rows, cut)
  {
  }

  lemma CutIsLate(o: Origin, p: Poll, s: Row)
    requires o.Valid() && Cut(o, p) && Next(o, p, s) && TimedOut(s, p.clock, o.timeout)
    ensures Cut(o, Expired(p, s, false))
  {
    if !p.expiring {
      forall k | p.cut <= k < |p.pending| ensures Late(p.pending[k], o.rows, p.cut) {
        RowsBeyondAreLate(o, p.cut, k);
      }
    }
  }

  lemma ExpireKeepsCut(o: Origin, p: Poll, s: Row)
    requires Cut(o, p) && Next(o, p, s) && p.expiring
    ensures Cut(o, Expired(p, s, true))
  {
    var q := Expired(p, s, true);
    WithoutKeepsPrefix(p.pending, s, p.cut);
    WithoutMembers(p.pending[p.cut..], s);
    forall k | p.cut <= k < |q.pending| ensures Late(q.pending[k], o.rows, p.cut) {
      assert q.pending[k] in Without(p.pending[p.cut..], s);
      assert q.pending[k] in p.pending[p.cut..];
    }
  }

  lemma ExpireKeepsRows(o: Origin, p: Poll, s: Row)
    requires OnlyExpired(o, p) && Counted(o, p)
    requires s in p.pending && !IsPDMChain(s.chain) && TimedOut(s, p.clock, o.timeout)
    ensures OnlyExpired(o, Expired(p, s, true)) && Counted(o, Expired(p, s, true))
  {
    WithoutMembers(p.pending, s);
    WithoutNewestFirst(p.pending, s);
    if p.clock == o.start { StaleWithout(p.pending, s, o.start, o.timeout); }
  }

  lemma ExpireKeepsLogged(o: Origin, p: Poll, s: Row, ok: bool)
    requires OnlyExpired(o, p) && Logged(o, p)
    requires s in p.pending && !IsPDMChain(s.chain) && TimedOut(s, p.clock, o.timeout)
    ensures Logged(o, Expired(p, s, ok))
  {
    var q := Expired(p, s, ok);
    WithoutMembers(p.pending, s);
    GoneOneMore(p.marked, |o.marked|, Mark(s, p.clock, ok));
    forall i | |o.marked| <= i < |q.marked| ensures Due(o, q, q.marked[i]) {
      assert i < |p.marked| ==> Due(o, p, p.marked[i]);
    }
  }

  lemma ExpireKeepsSound(o: Origin, p: Poll, s: Row, ok: bool)
    requires Sound(o, p) && Next(o, p, s) && !IsPDMChain(s.chain) && TimedOut(s, p.clock, o.timeout)
    ensures Sound(o, Expired(p, s, ok))
  {
    CutIsLate(o, p, s);
    ExpireKeepsLogged(o, p, s, ok);
    if ok {
      ExpireKeepsRows(o, p, s);
      ExpireKeepsCut(o, Expired(p, s, false), s);
      assert Expired(p, s, true).pending == Expired(Expired(p, s, false), s, true).pending;
    }
  }

  /** Between two pages. */
  ghost predicate At(o: Origin, p: Poll, offset: nat) {
    if p.expiring then p.cut < offset else p.cut == if offset <= |o.rows| then offset else |o.rows|
  }

  /** Within a page, whose rows from j on are still to be visited. */
  ghost predicate Within(o: Origin, p: Poll, page: seq<Row>, j: nat, limit: nat, offset: nat) {
    && (if p.expiring then p.cut < offset + limit else p.cut == offset + j && page == Page(o.rows, limit, offset))
    && (forall i :: j <= i < |page| ==> page[i] in p.pending)
    && (p.expiring ==> p.cut < |o.rows| && forall i :: j <= i < |page| ==> Late(page[i], o.rows, p.cut))
  }

  lemma StartPage(o: Origin, p: Poll, page: seq<Row>, limit: nat, offset: nat)
    requires Sound(o, p) && At(o, p, offset) && page == Page(p.pending, limit, offset) && page != []
    ensures Distinct(page) && Within(o, p, page, 0, limit, offset)
  {
    assert forall i :: 0 <= i < |page| ==> page[i] == p.pending[offset + i];
  }

  lemma RowIsNext(o: Origin, p: Poll, page: seq<Row>, j: nat, limit: nat, offset: nat)
    requires Sound(o, p) && j < |page| && Within(o, p, page, j, limit, offset)
    ensures Next(o, p, page[j])
  {
    assert page[j] in p.pending;
    assert !p.expiring ==> page[j] == o.rows[offset + j];
  }

  lemma EndPage(o: Origin, p: Poll, page: seq<Row>, limit: nat, offset: nat)
    requires Sound(o, p) && Within(o, p, page, |page|, limit, offset) && page != []
    ensures At(o, p, offset + limit)
  {
  }

  lemma NextRow(o: Origin, p: Poll, q: Poll, page: seq<Row>, j: nat, limit: nat, offset: nat)
    requires o.Valid() && j < |page| && Distinct(page) && Within(o, p, page, j, limit, offset)
    requires q.pending == p.pending || q.pending == Without(p.pending, page[j])
    requires p.expiring ==> q.expiring
    requires q.cut == if q.expiring then p.cut else p.cut + 1
    ensures Within(o, q, page, j + 1, limit, offset)
  {
    WithoutMembers(p.pending, page[j]);
    forall i | j + 1 <= i < |page|
      ensures page[i] in q.pending
      ensures q.expiring ==> p.cut < |o.rows| && Late(page[i], o.rows, p.cut)
    {
      assert page[i] != page[j];
      if !p.expiring {
        assert page[i] == o.rows[offset + i];
        RowsBeyondAreLate(o, p.cut, offset + i);
      }
    }
    if !p.expiring {
      assert page[j] == o.rows[p.cut];
    }
  }

  // ---- How many stale rows a poll leaves ----

  /** The rest of a page, at its place among the pending rows. */
  ghost predicate Ahead(o: Origin, p: Poll, at: nat, rest: seq<Row>, removed: nat) {
    Swept(o, p, at, removed) && at + |rest| <= |p.pending| && rest == p.pending[at..at + |rest|]
  }

  lemma SweepRow(o: Origin, p: Poll, q: Poll, at: nat, rest: seq<Row>, removed: nat) returns (next: nat)
    requires Distinct(p.pending) && Ahead(o, p, at, rest, removed) && rest != []
    requires q.pending == p.pending || q.pending == Without(p.pending, rest[0])
    requires Clean(o, q) ==> Clean(o, p)
    requires Clean(o, q) && q.pending == p.pending ==> !IsStale(rest[0], o.start, o.timeout)
    ensures Ahead(o, q, next, rest[1..], removed)
    ensures next + |p.pending| == at + 1 + |q.pending| && |q.pending| <= |p.pending|
  {
    var s := p.pending[at];
    WithoutMembers(p.pending, s);
    forall i | 0 <= i < |rest| - 1 ensures rest[1..][i] == p.pending[at + 1 + i] {
      assert rest[1..][i] == rest[i + 1];
    }
    if q.pending == p.pending {
      next := at + 1;
      if Clean(o, q) { StaleOfOneMore(p.pending, at, o.start, o.timeout); }
    } else {
      next := at;
      WithoutAt(p.pending, at);
      assert q.pending[..at] == p.pending[..at];
    }
  }

  /** Between two pages, where the paging and the sweep are. */
  ghost predicate Between(o: Origin, p: Poll, offset: nat) {
    && At(o, p, offset) && |p.pending| <= |o.rows|
    && Swept(o, p, Min(offset, |p.pending|), |o.rows| - |p.pending|)
  }

  /** Within a page: so many rows were pending at its start. */
  ghost predicate InPage(o: Origin, p: Poll, page: seq<Row>, j: nat, at: nat, limit: nat, offset: nat, first: nat) {
    && j <= |page| && Within(o, p, page, j, limit, offset)
    && |p.pending| <= first <= |o.rows|
    && Ahead(o, p, at, page[j..], |o.rows| - first) && at + first == offset + j + |p.pending|
    && |page| <= limit && (|page| == limit || offset + |page| == first)
  }

  lemma PageStarts(o: Origin, p: Poll, page: seq<Row>, limit: nat, offset: nat)
    requires Sound(o, p) && Between(o, p, offset) && page == Page(p.pending, limit, offset) && page != []
    ensures Distinct(page) && InPage(o, p, page, 0, offset, limit, offset, |p.pending|)
  {
    StartPage(o, p, page, limit, offset);
    assert page[0..] == page;
  }

  lemma RowDone(o: Origin, p: Poll, q: Poll, page: seq<Row>, j: nat, at: nat, limit: nat, offset: nat, first: nat)
    returns (next: nat)
    requires o.Valid() && Distinct(p.pending) && j < |page| && Distinct(page)
    requires InPage(o, p, page, j, at, limit, offset, first)
    requires RowHandled(o, p, q, page[j])
    ensures InPage(o, q, page, j + 1, next, limit, offset, first)
  {
    NextRow(o, p, q, page, j, limit, offset);
    assert page[j..][0] == page[j] && page[j..][1..] == page[j + 1..];
    next := SweepRow(o, p, q, at, page[j..], |o.rows| - first);
  }

  lemma PageEnds(o: Origin, p: Poll, page: seq<Row>, at: nat, limit: nat, offset: nat, first: nat)
    requires Sound(o, p) && page != [] && InPage(o, p, page, |page|, at, limit, offset, first)
    ensures Between(o, p, offset + limit)
  {
    EndPage(o, p, page, limit, offset);
    EndSweep(o, p, at, page, limit, offset, first);
  }

  /** What handling one row does to the poll. */
  ghost predicate RowHandled(o: Origin, p: Poll, q: Poll, s: Row) {
    && (if q.expiring then q.cut == p.cut else !p.expiring && q.cut == p.cut + 1)
    && (q.pending == p.pending || q.pending == Without(p.pending, s))
    && (Clean(o, q) ==> Clean(o, p))
    && (Clean(o, q) && q.pending == p.pending ==> !IsStale(s, o.start, o.timeout))
  }

  lemma EndSweep(o: Origin, q: Poll, at: nat, page: seq<Row>, limit: nat, offset: nat, first: nat)
    requires |q.pending| <= first <= |o.rows| && Ahead(o, q, at, [], |o.rows| - first)
    requires at + first == offset + |page| + |q.pending| && (|page| == limit || offset + |page| == first)
    requires |page| <= limit
    ensures Swept(o, q, Min(offset + limit, |q.pending|), |o.rows| - |q.pending|)
  {
    var end := Min(offset + limit, |q.pending|);
    assert at <= end && end - at <= first - |q.pending|;
    StaleOfMore(q.pending, at, end, o.start, o.timeout);
  }

  /** At least as many stale rows are removed as are left. */
  lemma SweptHalves(o: Origin, p: Poll, offset: nat)
    requires Counted(o, p) && Between(o, p, offset) && offset >= |p.pending|
    ensures Clean(o, p) ==> 2 * Stale(p.pending, o.start, o.timeout) <= Stale(o.rows, o.start, o.timeout)
  {
    assert p.pending[..|p.pending|] == p.pending;
  }

  lemma GroupedAreLive(o: Origin, p: Poll)
    requires Grouped(o, p)
    ensures forall chain, s :: s in Group(p.groups, chain) ==> !TimedOut(s, o.start, o.timeout)
  {
    forall chain, s | s in Group(p.groups, chain) ensures !TimedOut(s, o.start, o.timeout) {
      ForChainMembers(o.rows[..p.cut], chain);
    }
  }

  // ---- The three ways to handle a row ----

  function Skip(p: Poll): Poll {
    if p.expiring then p else p.(cut := p.cut + 1)
  }

  function Dispatch(p: Poll, s: Row): Poll {
    p.(cut := p.cut + 1, groups := p.groups[s.chain := Group(p.groups, s.chain) + [s]])
  }

  lemma SkipHandles(o: Origin, p: Poll, s: Row)
    requires Sound(o, p) && Next(o, p, s) && IsPDMChain(s.chain)
    ensures Sound(o, Skip(p)) && RowHandled(o, p, Skip(p), s)
  {
    if !p.expiring { SkipKeepsSound(o, p, s); }
  }

  lemma ExpireHandles(o: Origin, p: Poll, now: int, s: Row, ok: bool)
    requires Sound(o, p) && p.clock <= now && Next(o, p, s) && !IsPDMChain(s.chain) && TimedOut(s, now, o.timeout)
    ensures var q := Expired(p.(clock := now), s, ok); Sound(o, q) && RowHandled(o, p, q, s)
  {
    TickKeepsSound(o, p, now);
    ExpireKeepsSound(o, p.(clock := now), s, ok);
    WithoutMembers(p.pending, s);
  }

  lemma DispatchHandles(o: Origin, p: Poll, now: int, s: Row)
    requires Sound(o, p) && p.clock <= now && Next(o, p, s) && !IsPDMChain(s.chain) && !TimedOut(s, now, o.timeout)
    ensures var q := Dispatch(p.(clock := now), s); Sound(o, q) && RowHandled(o, p, q, s)
  {
    TickKeepsSound(o, p, now);
    DispatchKeepsSound(o, p.(clock := now), s);
  }

  function Begun(o: Origin): Poll {
    Poll(o.rows, o.start, map[], 0, false, o.failures, o.marked)
  }

  lemma PollBegins(o: Origin)
    requires o.Valid()
    ensures Sound(o, Begun(o)) && Between(o, Begun(o), 0)
  {
  }

  lemma PollEnds(o: Origin, p: Poll, offset: nat)
    requires Sound(o, p) && Between(o, p, offset) && offset >= |p.pending|
    ensures DispatchedUpTo(o.rows, p.cut, p.groups, p.clock, o.timeout)
    ensures Clean(o, p) ==> 2 * Stale(p.pending, o.start, o.timeout) <= Stale(o.rows, o.start, o.timeout)
  {
    SweptHalves(o, p, offset);
    if p.expiring {
      forall k | p.cut <= k < |o.rows| ensures TimedOut(o.rows[k], p.clock, o.timeout) {
        RowsBeyondAreLate(o, p.cut, k);
      }
    }
  }

  class Poller {
    // The rows of deposit_sessions with status 'pending', as the query orders them.
    var pending: seq<Row>
    var clock: int
    const timeout: int

    // How many of the two calls to the store have failed, and the expiry
    // writes made.
    var failedLoads: nat
    var failedWrites: nat
    var marked: seq<Mark>

    constructor (rows: seq<Row>, now: int, timeout: int)
      ensures pending == rows && clock == now && this.timeout == timeout && failedLoads == failedWrites == 0
      ensures marked == []
    {
      pending, clock, this.timeout := rows, now, timeout;
      failedLoads, failedWrites, marked := 0, 0, [];
    }

    method LoadPending(limit: nat, offset: nat) returns (ok: bool, page: seq<Row>)
      modifies this`failedLoads
      ensures failedLoads == old(failedLoads) + if ok then 0 else 1
      ensures ok ==> page == Page(pending, limit, offset)
    {
      ok := *;
      if ok {
        page := Page(pending, limit, offset);
      } else {
        page := [];
        failedLoads := failedLoads + 1;
      }
    }

    method Now() returns (now: int)
      modifies this`clock
      ensures old(clock) <= clock == now
    {
      var elapsed: int :| elapsed >= 0;
      clock := clock + elapsed;
      now := clock;
    }

    method MarkExpired(s: Row) returns (ok: bool)
      modifies this`pending, this`failedWrites, this`marked
      ensures pending == if ok then Without(old(pending), s) else old(pending)
      ensures failedWrites == old(failedWrites) + if ok then 0 else 1
      ensures marked == old(marked) + [Mark(s, clock, ok)]
    {
      ok := *;
      marked := marked + [Mark(s, clock, ok)];
      if ok {
        pending := Without(pending, s);
      } else {
        failedWrites := failedWrites + 1;
      }
    }

    /** The poll p describes this object. */
    ghost predicate Shows(o: Origin, p: Poll)
      reads this
    {
      && p.pending == pending && p.clock == clock && p.failures == failedWrites && p.marked == marked
      && o.timeout == timeout
    }

    /** One row of a page: skipped, expired or dispatched. */
    method ProcessSession(session: Row, groups: map<string, seq<Row>>, ghost o: Origin, ghost p: Poll)
      returns (groups': map<string, seq<Row>>, ghost q: Poll)
      requires Shows(o, p) && p.groups == groups && Sound(o, p) && Next(o, p, session)
      modifies this
      ensures Shows(o, q) && q.groups == groups' && Sound(o, q)
      ensures RowHandled(o, p, q, session) && failedLoads == old(failedLoads)
    {
      groups' := groups;
      if IsPDMChain(session.chain) {
        SkipHandles(o, p, session);
        q := Skip(p);
        return;
      }
      var now := Now();
      if now - session.createdAt > timeout {
        var ok := MarkExpired(session);
        ExpireHandles(o, p, now, session, ok);
        q := Expired(p.(clock := now), session, ok);
        return;
      }
      DispatchHandles(o, p, now, session);
      groups' := groups[session.chain := Group(groups, session.chain) + [session]];
      q := Dispatch(p.(clock := now), session);
    }

    /** The rows of one page, in order. */
    method ProcessPage(page: seq<Row>, groups: map<string, seq<Row>>, limit: nat, offset: nat,
                       ghost o: Origin, ghost p: Poll)
      returns (groups': map<string, seq<Row>>, ghost q: Poll)
      requires Shows(o, p) && p.groups == groups && Sound(o, p) && Between(o, p, offset)
      requires limit > 0 && page == Page(pending, limit, offset) && page != []
      modifies this
      ensures Shows(o, q) && q.groups == groups' && Sound(o, q) && Between(o, q, offset + limit)
      ensures failedLoads == old(failedLoads) && |q.pending| <= |p.pending|
    {
      groups', q := groups, p;
      PageStarts(o, p, page, limit, offset);
      ghost var at: nat := offset;
      for j := 0 to |page|
        invariant Shows(o, q) && q.groups == groups' && Sound(o, q) && failedLoads == old(failedLoads)
        invariant InPage(o, q, page, j, at, limit, offset, |p.pending|)
      {
        ghost var before := q;
        RowIsNext(o, q, page, j, limit, offset);
        groups', q := ProcessSession(page[j], groups', o, q);
        at := RowDone(o, before, q, page, j, at, limit, offset, |p.pending|);
      }
      PageEnds(o, q, page, at, limit, offset, |p.pending|);
    }

    /** An expiry write of one of these rows, timed out when it was made, since
        that time. */
    predicate DueSince(rows: seq<Row>, start: int, m: Mark)
      reads this
    {
      m.row in rows && start <= m.time <= clock && TimedOut(m.row, m.time, timeout) && !IsPDMChain(m.row.chain)
    }

    /** Page after page, until one is empty or cannot be loaded. */
    method PageThrough(limit: nat, ghost o: Origin)
      returns (ok: bool, groups: map<string, seq<Row>>, ghost p: Poll, ghost end: nat)
      requires limit > 0 && o.Valid() && o == Origin(pending, clock, timeout, failedWrites, marked)
      modifies this
      ensures Shows(o, p) && p.groups == groups && Sound(o, p)
      ensures failedLoads == old(failedLoads) + if ok then 0 else 1
      ensures ok ==> Between(o, p, end) && end >= |p.pending|
    {
      var offset: nat := 0;
      groups := map[];
      p := Begun(o);
      PollBegins(o);
      while true
        invariant Shows(o, p) && p.groups == groups && Sound(o, p) && Between(o, p, offset)
        invariant failedLoads == old(failedLoads)
        decreases if offset < |p.pending| then |p.pending| - offset else 0
      {
        var page;
        ok, page := LoadPending(limit, offset);
        if !ok || |page| == 0 {
          break;
        }
        groups, p := ProcessPage(page, groups, limit, offset, o, p);
        offset := offset + limit;
      }
      end := offset;
    }

    /** One poll, with nothing else changing the pending rows. */
    method ProcessPendingSessions(limit: nat) returns (ok: bool, groups: map<string, seq<Row>>, ghost cut: nat)
      requires limit > 0 && Distinct(pending) && NewestFirst(pending)
      modifies this
      ensures clock >= old(clock) && failedWrites >= old(failedWrites)
      ensures failedLoads == old(failedLoads) + if ok then 0 else 1
      ensures ok ==> DispatchedUpTo(old(pending), cut, groups, clock, timeout)
      ensures forall chain, s :: s in Group(groups, chain) ==> !TimedOut(s, old(clock), timeout)
      ensures Distinct(pending) && NewestFirst(pending) && forall s :: s in pending ==> s in old(pending)
      // Every expiry write is of a row timed out when it is made, and the rows
      // that leave are those of the writes that succeed.
      ensures old(marked) <= marked && forall i :: |old(marked)| <= i < |marked| ==>
                DueSince(old(pending), old(clock), marked[i])
      ensures forall s :: s in old(pending) ==> (s !in pending <==> s in Gone(marked, |old(marked)|))
      ensures clock == old(clock) ==> Stale(pending, clock, timeout) <= Stale(old(pending), clock, timeout)
      // With clean writes at one time, at least half of the stale rows go.
      ensures failedLoads == old(failedLoads) && failedWrites == old(failedWrites) && clock == old(clock) ==>
                2 * Stale(pending, clock, timeout) <= Stale(old(pending), clock, timeout)
    {
      ghost var o := Origin(pending, clock, timeout, failedWrites, marked);
      ghost var p, end;
      ok, groups, p, end := PageThrough(limit, o);
      cut := p.cut;
      GroupedAreLive(o, p);
      if ok {
        PollEnds(o, p, end);
      }
    }

    /** Poll after poll, as the ticker fires. Polls that complete, write
        everything and see one time halve the stale sessions each: none is left
        once there are more rounds than the number has binary digits. */
    method RunPolls(limit: nat, rounds: nat)
      requires limit > 0 && Distinct(pending) && NewestFirst(pending)
      modifies this
      ensures clock >= old(clock) && failedLoads >= old(failedLoads) && failedWrites >= old(failedWrites)
      ensures old(marked) <= marked && forall i :: |old(marked)| <= i < |marked| ==>
                DueSince(old(pending), old(clock), marked[i])
      ensures forall s :: s in old(pending) ==> (s !in pending <==> s in Gone(marked, |old(marked)|))
      ensures failedLoads == old(failedLoads) && failedWrites == old(failedWrites) && clock == old(clock) ==>
                && Stale(pending, clock, timeout) * Pow2(rounds) <= Stale(old(pending), clock, timeout)
                && (Stale(old(pending), clock, timeout) < Pow2(rounds) ==>
                      forall s :: s in pending ==> !IsStale(s, clock, timeout))
    {
      for round := 0 to rounds
        invariant Distinct(pending) && NewestFirst(pending) && forall s :: s in pending ==> s in old(pending)
        invariant clock >= old(clock) && failedLoads >= old(failedLoads) && failedWrites >= old(failedWrites)
        invariant old(marked) <= marked
        invariant forall i :: |old(marked)| <= i < |marked| ==> DueSince(old(pending), old(clock), marked[i])
        invariant forall s :: s in old(pending) ==> (s !in pending <==> s in Gone(marked, |old(marked)|))
        invariant failedLoads == old(failedLoads) && failedWrites == old(failedWrites) && clock == old(clock) ==>
            Stale(pending, clock, timeout) * Pow2(round) <= Stale(old(pending), clock, timeout)
      {
        ghost var before, rows, time, log := Stale(pending, old(clock), timeout), pending, clock, marked;
        ghost var cut;
        var ok, groups;
        ok, groups, cut := ProcessPendingSessions(limit);
        Halved(before, Stale(pending, old(clock), timeout), Pow2(round));
        OneMorePoll(old(pending), rows, pending, old(marked), log, marked);
        forall i | |old(marked)| <= i < |marked| ensures DueSince(old(pending), old(clock), marked[i]) {
          assert i < |log| ==> marked[i] == log[i];
          assert i >= |log| ==> DueSince(rows, time, marked[i]);
        }
      }
      NoneLeft(Stale(pending, clock, timeout), Pow2(rounds));
      assert Stale(pending, clock, timeout) == 0 ==> StaleRows(pending, clock, timeout) == {};
      assert forall s :: s in pending && IsStale(s, clock, timeout) ==> s in StaleRows(pending, clock, timeout);
    }

    /** What has left after one poll more. */
    static lemma OneMorePoll(rows: seq<Row>, mid: seq<Row>, pending: seq<Row>, first: seq<Mark>, log: seq<Mark>,
                             marked: seq<Mark>)
      requires first <= log <= marked
      requires forall s :: s in rows ==> (s !in mid <==> s in Gone(log, |first|))
      requires forall s :: s in mid ==> s in rows && (s !in pending <==> s in Gone(marked, |log|))
      requires forall s :: s in pending ==> s in mid
      ensures forall s :: s in rows ==> (s !in pending <==> s in Gone(marked, |first|))
    {
      assert marked[..|log|] == log;
      GoneOfBoth(marked, |log|, |first|);
    }

    static lemma Halved(before: nat, after: nat, p: nat)
      ensures 2 * after <= before ==> after * (2 * p) <= before * p
    {
      if 2 * after <= before {
        assert after * (2 * p) == (2 * after) * p;
      }
    }

    static lemma NoneLeft(stale: nat, p: nat)
      ensures stale * p < p ==> stale == 0
    {
    }
  }
}
