/** Offset paging over a sequence of rows that loses rows while it is paged. */
module Paging {

  /** LIMIT limit OFFSET offset. */
  function Page<T>(rows: seq<T>, limit: nat, offset: nat): seq<T> {
    if offset >= |rows| then []
    else if offset + limit >= |rows| then rows[offset..]
    else rows[offset..offset + limit]
  }

  ghost predicate Distinct<T>(rows: seq<T>) {
    forall i, j :: 0 <= i < j < |rows| ==> rows[i] != rows[j]
  }

  /** The rows that remain once x no longer meets the query's condition. */
  function Without<T(==)>(rows: seq<T>, x: T): seq<T> {
    if rows == [] then []
    else if rows[0] == x then Without(rows[1..], x)
    else [rows[0]] + Without(rows[1..], x)
  }

  lemma {:induction false} WithoutMembers<T>(rows: seq<T>, x: T)
    ensures forall y :: y in Without(rows, x) <==> y in rows && y != x
    ensures |Without(rows, x)| <= |rows|
    ensures x in rows ==> |Without(rows, x)| < |rows|
    ensures x !in rows ==> Without(rows, x) == rows
    ensures Distinct(rows) ==> Distinct(Without(rows, x))
    ensures Distinct(rows) && x in rows ==> |Without(rows, x)| == |rows| - 1
  {
    if rows != [] {
      WithoutMembers(rows[1..], x);
      assert rows == [rows[0]] + rows[1..];
      if Distinct(rows) {
        assert rows[0] !in rows[1..];
        assert Distinct(rows[1..]) by {
          forall i, j | 0 <= i < j < |rows[1..]| ensures rows[1..][i] != rows[1..][j] {
            assert rows[i + 1] != rows[j + 1];
          }
        }
      }
    }
  }

  lemma {:induction false} WithoutIsSubset<T>(rows: seq<T>, x: T)
    ensures forall y :: y in Without(rows, x) ==> y in rows
  {
    if rows != [] {
      WithoutIsSubset(rows[1..], x);
    }
  }

  /** Removing a row leaves the rows before it where they were. */
  lemma {:induction false} WithoutKeepsPrefix<T>(rows: seq<T>, x: T, m: nat)
    requires m <= |rows| && x !in rows[..m]
    ensures Without(rows, x) == rows[..m] + Without(rows[m..], x)
    decreases m
  {
    if m == 0 {
      assert rows[0..] == rows;
    } else {
      assert rows[0] == rows[..m][0];
      assert rows[1..][..m - 1] == rows[..m][1..];
      WithoutKeepsPrefix(rows[1..], x, m - 1);
      assert rows[1..][m - 1..] == rows[m..];
    }
  }

  /** Where the row was, and what is left without it. */
  lemma WithoutAt<T>(rows: seq<T>, i: nat)
    requires Distinct(rows) && i < |rows|
    ensures Without(rows, rows[i]) == rows[..i] + rows[i + 1..]
  {
    WithoutKeepsPrefix(rows, rows[i], i);
    WithoutMembers(rows[i + 1..], rows[i]);
    assert rows[i..][1..] == rows[i + 1..];
  }

  /** A pending row of deposit_sessions or withdrawals, as the pollers use it;
      a session has no transaction hash. */
  datatype Row = Row(id: string, chain: string, createdAt: int, txHash: string)

  predicate IsPDMChain(chain: string) {
    chain == "btc-mainnet" || chain == "btc-testnet"
  }

  /** ORDER BY created_at DESC */
  ghost predicate NewestFirst(rows: seq<Row>) {
    forall i, j :: 0 <= i < j < |rows| ==> rows[i].createdAt >= rows[j].createdAt
  }

  lemma {:induction false} WithoutNewestFirst(rows: seq<Row>, x: Row)
    requires NewestFirst(rows)
    ensures NewestFirst(Without(rows, x))
  {
    if rows != [] {
      WithoutNewestFirst(rows[1..], x);
      WithoutIsSubset(rows[1..], x);
      forall k | 0 <= k < |Without(rows[1..], x)| ensures rows[0].createdAt >= Without(rows[1..], x)[k].createdAt {
        assert Without(rows[1..], x)[k] in rows[1..];
      }
    }
  }

  /** The rows of one chain that are there to be dispatched, in order. */
  function ForChain(rows: seq<Row>, chain: string): seq<Row> {
    if rows == [] then []
    else
      var last := rows[|rows| - 1];
      ForChain(rows[..|rows| - 1], chain) + if last.chain == chain && !IsPDMChain(chain) then [last] else []
  }

  function Group(groups: map<string, seq<Row>>, chain: string): seq<Row> {
    if chain in groups then groups[chain] else []
  }

  lemma {:induction false} ForChainMembers(rows: seq<Row>, chain: string)
    ensures forall s :: s in ForChain(rows, chain) <==> s in rows && s.chain == chain && !IsPDMChain(chain)
  {
    if rows != [] {
      ForChainMembers(rows[..|rows| - 1], chain);
      assert rows == rows[..|rows| - 1] + [rows[|rows| - 1]];
    }
  }

  /** A chain's rows are in the order they were read in. */
  lemma {:induction false} ForChainInOrder(rows: seq<Row>, chain: string)
    requires NewestFirst(rows)
    ensures NewestFirst(ForChain(rows, chain))
  {
    if rows != [] {
      var front, last := rows[..|rows| - 1], rows[|rows| - 1];
      ForChainInOrder(front, chain);
      ForChainMembers(front, chain);
      forall k | 0 <= k < |ForChain(front, chain)| ensures ForChain(front, chain)[k].createdAt >= last.createdAt {
        assert ForChain(front, chain)[k] in front;
      }
    }
  }

  lemma {:induction false} NoneForPDMChain(rows: seq<Row>, chain: string)
    requires IsPDMChain(chain)
    ensures ForChain(rows, chain) == []
  {
    if rows != [] {
      NoneForPDMChain(rows[..|rows| - 1], chain);
    }
  }

  lemma {:induction false} ForChainDistinct(rows: seq<Row>, chain: string)
    requires Distinct(rows)
    ensures Distinct(ForChain(rows, chain))
  {
    if rows != [] {
      var front, last := rows[..|rows| - 1], rows[|rows| - 1];
      ForChainDistinct(front, chain);
      ForChainMembers(front, chain);
      assert last !in front;
    }
  }

  lemma GroupOneMore(groups: map<string, seq<Row>>, rows: seq<Row>, s: Row)
    requires forall chain :: Group(groups, chain) == ForChain(rows, chain)
    ensures IsPDMChain(s.chain) ==> forall chain :: Group(groups, chain) == ForChain(rows + [s], chain)
    ensures !IsPDMChain(s.chain) ==>
              var more := groups[s.chain := Group(groups, s.chain) + [s]];
              forall chain :: Group(more, chain) == ForChain(rows + [s], chain)
  {
    assert (rows + [s])[..|rows|] == rows;
  }

  /** A status write of a row, when it was made, and how it came out. */
  datatype Mark = Mark(row: Row, time: int, ok: bool)

  /** The rows whose write succeeded, from write n on. */
  function Gone(marked: seq<Mark>, n: nat): set<Row> {
    if |marked| <= n then {}
    else
      var last := marked[|marked| - 1];
      Gone(marked[..|marked| - 1], n) + if last.ok then {last.row} else {}
  }

  lemma GoneOneMore(marked: seq<Mark>, n: nat, m: Mark)
    requires n <= |marked|
    ensures Gone(marked + [m], n) == Gone(marked, n) + if m.ok then {m.row} else {}
  {
    assert (marked + [m])[..|marked|] == marked;
  }

  lemma {:induction false} GoneOfBoth(marked: seq<Mark>, mid: nat, n: nat)
    requires n <= mid <= |marked|
    ensures Gone(marked, n) == Gone(marked[..mid], n) + Gone(marked, mid)
  {
    if mid < |marked| {
      var front := marked[..|marked| - 1];
      assert front[..mid] == marked[..mid];
      GoneOfBoth(front, mid, n);
    } else {
      assert marked[..mid] == marked;
    }
  }
}
