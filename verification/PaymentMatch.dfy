/** The settlement's own scan of the transactions the client returned, and how
    it compares with the client's: one works in token units, the other in the
    token's smallest unit. */
module PaymentMatch {
  import opened Helius
  import opened Wrappers

  /** What a session asks for, with its token's mint and decimals looked up. */
  datatype Terms = Terms(wallet: string, required: real, token: TokenType, mint: string, decimals: nat)

  /** Go's int64(x): truncation toward zero. */
  function Truncate(x: real): int {
    if x >= 0.0 then x.Floor else -((-x).Floor)
  }

  lemma TruncateIsTowardZero(x: real)
    ensures x >= 0.0 ==> Truncate(x) as real <= x < Truncate(x) as real + 1.0
    ensures x <= 0.0 ==> Truncate(x) as real - 1.0 < x <= Truncate(x) as real
  {
  }

  /** The amount the client is asked to look for. */
  function ClientAmount(terms: Terms): int {
    Truncate(terms.required * Pow10(terms.decimals) as real)
  }

  predicate Client(txs: seq<Transaction>, terms: Terms) {
    ClientAccepts(txs, terms.wallet, ClientAmount(terms), terms.token, terms.mint, terms.decimals)
  }

  function NativeUnits(t: NativeTransfer, decimals: nat): real {
    t.amount as real / Pow10(decimals) as real
  }

  predicate NativeSettles(t: NativeTransfer, terms: Terms) {
    t.to == terms.wallet && NativeUnits(t, terms.decimals) >= terms.required
  }

  predicate TokenSettles(t: TokenTransfer, terms: Terms) {
    t.to == terms.wallet && t.mint == terms.mint && t.amount >= terms.required
  }

  /** Transfer j of this transaction settles the session, and amounts to `amount`. */
  predicate SettlesAt(tx: Transaction, terms: Terms, j: nat, amount: real) {
    && tx.IsTransfer()
    && if terms.token == SOL then
         && j < |tx.nativeTransfers|
         && NativeSettles(tx.nativeTransfers[j], terms)
         && amount == NativeUnits(tx.nativeTransfers[j], terms.decimals)
       else
         && j < |tx.tokenTransfers|
         && TokenSettles(tx.tokenTransfers[j], terms)
         && amount == tx.tokenTransfers[j].amount
  }

  /** One transfer of a transaction. */
  datatype Payment = Payment(tx: Transaction, native: bool, place: nat)

  /** What the transfer amounts to, in token units. */
  function Amount(p: Payment, decimals: nat): real {
    if p.native then
      if p.place < |p.tx.nativeTransfers| then NativeUnits(p.tx.nativeTransfers[p.place], decimals) else 0.0
    else
      if p.place < |p.tx.tokenTransfers| then p.tx.tokenTransfers[p.place].amount else 0.0
  }

  /** The settlement takes this transfer for the session. */
  predicate Pays(p: Payment, terms: Terms) {
    && p.tx.signature != ""
    && p.native == (terms.token == SOL)
    && SettlesAt(p.tx, terms, p.place, Amount(p, terms.decimals))
  }

  ghost predicate Settles(tx: Transaction, terms: Terms) {
    exists j: nat, amount: real :: SettlesAt(tx, terms, j, amount)
  }

  ghost predicate Settlement(txs: seq<Transaction>, terms: Terms) {
    exists i :: 0 <= i < |txs| && Settles(txs[i], terms) && txs[i].signature != ""
  }

  datatype Match = Matched(tx: Transaction, amount: real) | NoMatch | NoMint

  /** The scan loop of processVerifiedDeposit. A match in a transaction without
      a signature does not stop it, and is overwritten by a later one. */
  method FindPayment(txs: seq<Transaction>, mints: MintAddresses, cluster: Cluster, terms: Terms)
    returns (r: Match, ghost i: nat, ghost j: nat)
    requires TargetMint(mints, cluster, terms.token).Some? ==>
               terms.mint == TargetMint(mints, cluster, terms.token).value
    ensures r.NoMint? <==>
            TargetMint(mints, cluster, terms.token).None? && exists k :: 0 <= k < |txs| && txs[k].IsTransfer()
    ensures TargetMint(mints, cluster, terms.token).Some? ==> (r.Matched? <==> Settlement(txs, terms))
    ensures r.Matched? ==>
              && i < |txs| && r.tx == txs[i] && r.tx.signature != ""
              && SettlesAt(txs[i], terms, j, r.amount)
              && r.amount >= terms.required
              && Pays(Payment(r.tx, terms.token == SOL, j), terms)
              && r.amount == Amount(Payment(r.tx, terms.token == SOL, j), terms.decimals)
              && (forall k :: 0 <= k < i ==> !Settles(txs[k], terms) || txs[k].signature == "")
              && (forall k: nat, a: real :: k < j ==> !SettlesAt(txs[i], terms, k, a))
  {
    var matchedTx := Transaction("", "", [], []);
    var txAmount := 0.0;
    i, j := 0, 0;
    for n := 0 to |txs|
      invariant matchedTx.signature == ""
      invariant TargetMint(mints, cluster, terms.token).None? ==> forall k :: 0 <= k < n ==> !txs[k].IsTransfer()
      invariant forall k :: 0 <= k < n ==> !Settles(txs[k], terms) || txs[k].signature == ""
    {
      var tx := txs[n];
      if tx.kind == "TRANSFER" {
        var hit := false;
        if terms.token == SOL {
          for m := 0 to |tx.nativeTransfers|
            invariant !hit
            invariant forall k: nat :: k < m ==> !NativeSettles(tx.nativeTransfers[k], terms)
          {
            var adjusted := NativeUnits(tx.nativeTransfers[m], terms.decimals);
            if tx.nativeTransfers[m].to == terms.wallet && adjusted >= terms.required {
              matchedTx, txAmount, hit := tx, adjusted, true;
              i, j := n, m;
              assert SettlesAt(tx, terms, m, adjusted);
              break;
            }
          }
        } else {
          var targetMint := GetMintAddress(mints, cluster, terms.token);
          if targetMint.None? {
            return NoMint, i, j;
          }
          for m := 0 to |tx.tokenTransfers|
            invariant !hit
            invariant forall k: nat :: k < m ==> !TokenSettles(tx.tokenTransfers[k], terms)
          {
            var transfer := tx.tokenTransfers[m];
            if transfer.to == terms.wallet && transfer.mint == targetMint.value && transfer.amount >= terms.required {
              matchedTx, txAmount, hit := tx, transfer.amount, true;
              i, j := n, m;
              assert SettlesAt(tx, terms, m, transfer.amount);
              break;
            }
          }
        }
        if matchedTx.signature != "" {
          return Matched(matchedTx, txAmount), i, j;
        }
      }
    }
    r := NoMatch;
  }

  // ---- The two scans compared ----

  predicate Integral(x: real) {
    x == x.Floor as real
  }

  /** The session's amount is a whole number of the token's smallest unit. */
  predicate WholeUnits(terms: Terms) {
    Integral(terms.required * Pow10(terms.decimals) as real)
  }

  predicate AllSigned(txs: seq<Transaction>) {
    forall i :: 0 <= i < |txs| ==> txs[i].signature != ""
  }

  lemma Scale(x: real, p: real, r: real)
    requires p > 0.0
    ensures x / p >= r <==> x >= r * p
    ensures x / p <= r <==> x <= r * p
  {
    var d := x / p - r;
    assert x - r * p == d * p;
    assert d > 0.0 ==> d * p > 0.0;
    assert d < 0.0 ==> d * p < 0.0;
  }

  lemma TruncatedIsCovered(required: real, p: real, amount: real)
    requires 0.0 <= required <= amount && p > 0.0
    ensures Truncate(required * p) as real / p <= amount
  {
    assert required * p >= 0.0;
    Scale(Truncate(required * p) as real, p, required);
  }

  lemma TruncatedNativeIsCovered(required: real, p: real, amount: int)
    requires 0.0 <= required && p > 0.0 && amount as real / p >= required
    ensures amount >= Truncate(required * p)
  {
    assert required * p >= 0.0;
    Scale(amount as real, p, required);
  }

  lemma SettledTransferMatches(tx: Transaction, terms: Terms, j: nat, amount: real)
    requires terms.required >= 0.0 && SettlesAt(tx, terms, j, amount)
    ensures ClientMatches(tx, terms.wallet, ClientAmount(terms), terms.token, terms.mint, terms.decimals)
  {
    if terms.token == SOL {
      TruncatedNativeIsCovered(terms.required, Pow10(terms.decimals) as real, tx.nativeTransfers[j].amount);
      assert NativeDeposit(tx.nativeTransfers[j], terms.wallet, ClientAmount(terms));
    } else {
      TruncatedIsCovered(terms.required, Pow10(terms.decimals) as real, amount);
      assert TokenDeposit(tx.tokenTransfers[j], terms.wallet, terms.mint, ClientAmount(terms), terms.decimals);
    }
  }

  /** A payment the settlement takes is one the client takes. */
  lemma SettlementImpliesClient(txs: seq<Transaction>, terms: Terms)
    requires terms.required >= 0.0
    ensures Settlement(txs, terms) ==> Client(txs, terms)
  {
    if Settlement(txs, terms) {
      var i :| 0 <= i < |txs| && Settles(txs[i], terms) && txs[i].signature != "";
      var j: nat, amount: real :| SettlesAt(txs[i], terms, j, amount);
      SettledTransferMatches(txs[i], terms, j, amount);
    }
  }

  /** On whole units and signed transactions the client takes nothing more. */
  lemma ClientImpliesSettlement(txs: seq<Transaction>, terms: Terms)
    requires terms.required >= 0.0 && WholeUnits(terms) && AllSigned(txs)
    ensures Client(txs, terms) ==> Settlement(txs, terms)
  {
    var p := Pow10(terms.decimals) as real;
    var n := ClientAmount(terms);
    assert terms.required * p >= 0.0;
    assert n as real == terms.required * p;
    if Client(txs, terms) {
      var i :| 0 <= i < |txs| && ClientMatches(txs[i], terms.wallet, n, terms.token, terms.mint, terms.decimals);
      var tx := txs[i];
      if terms.token == SOL {
        var j :| 0 <= j < |tx.nativeTransfers| && NativeDeposit(tx.nativeTransfers[j], terms.wallet, n);
        Scale(tx.nativeTransfers[j].amount as real, p, terms.required);
        assert SettlesAt(tx, terms, j, NativeUnits(tx.nativeTransfers[j], terms.decimals));
      } else {
        var j :| 0 <= j < |tx.tokenTransfers|
              && TokenDeposit(tx.tokenTransfers[j], terms.wallet, terms.mint, n, terms.decimals);
        Scale(n as real, p, terms.required);
        assert SettlesAt(tx, terms, j, tx.tokenTransfers[j].amount);
      }
      assert Settles(tx, terms);
    }
  }

  /** The smallest payment the client takes. */
  function LeastPayment(terms: Terms): Transaction {
    var n := ClientAmount(terms);
    if terms.token == SOL then
      Transaction("TRANSFER", "sig", [NativeTransfer(terms.wallet, n)], [])
    else
      var amount := n as real / Pow10(terms.decimals) as real;
      Transaction("TRANSFER", "sig", [], [TokenTransfer(terms.wallet, terms.mint, amount)])
  }

  /** Off the whole units, the least payment the client takes is refused by the
      settlement: the session is verified and then reset for want of a match. */
  lemma LeastPaymentSplitsTheScans(terms: Terms)
    requires terms.required >= 0.0 && !WholeUnits(terms)
    ensures Client([LeastPayment(terms)], terms) && !Settlement([LeastPayment(terms)], terms)
  {
    var p := Pow10(terms.decimals) as real;
    var n := ClientAmount(terms);
    var tx := LeastPayment(terms);
    assert terms.required * p >= 0.0;
    assert (n as real) < terms.required * p;
    Scale(n as real, p, terms.required);
    if terms.token == SOL {
      assert NativeDeposit(tx.nativeTransfers[0], terms.wallet, n);
    } else {
      assert TokenDeposit(tx.tokenTransfers[0], terms.wallet, terms.mint, n, terms.decimals);
    }
    assert [tx][0] == tx;
    assert ClientMatches([tx][0], terms.wallet, n, terms.token, terms.mint, terms.decimals);
    if Settlement([tx], terms) {
      assert false;
    }
  }

  /** The two scans agree on every signed list of transactions exactly when the
      required amount is a whole number of the token's smallest unit. */
  lemma ScansAgreeExactlyOnWholeUnits(terms: Terms)
    requires terms.required >= 0.0
    ensures (forall txs | AllSigned(txs) :: Client(txs, terms) <==> Settlement(txs, terms)) <==> WholeUnits(terms)
  {
    if WholeUnits(terms) {
      forall txs | AllSigned(txs) ensures Client(txs, terms) <==> Settlement(txs, terms) {
        SettlementImpliesClient(txs, terms);
        ClientImpliesSettlement(txs, terms);
      }
    } else {
      LeastPaymentSplitsTheScans(terms);
      assert AllSigned([LeastPayment(terms)]);
    }
  }

  // ---- Deposits and withdrawals in the same units ----

  lemma PowersOfTen()
    ensures Pow10(6) == 1_000_000 && Pow10(9) == 1_000_000_000
  {
    assert Pow10(3) == 1_000;
    assert Pow10(6) == 1_000_000;
  }

  /** A native transfer is worth the same to a deposit, with the decimals the
      client gives, as to a withdrawal. */
  lemma NativeUnitsAgree(cluster: Cluster, t: NativeTransfer, to: string, amount: real)
    ensures GetDecimals(cluster, SOL).Some?
    ensures NativeWithdrawal(t, to, amount)
            <==> t.to == to && NativeUnits(t, GetDecimals(cluster, SOL).value) >= amount
  {
    PowersOfTen();
  }

  /** One transaction pays a deposit of so many lamports exactly if it pays a
      withdrawal of as many billionths. */
  lemma NativeDepositsAreWithdrawals(tx: Transaction, to: string, lamports: int, decimals: nat)
    ensures ClientAccepts([tx], to, lamports, SOL, "", decimals)
            <==> PaysWithdrawal(tx, to, lamports as real / 1_000_000_000.0, SOL, "")
  {
    assert [tx][0] == tx;
    assert ClientAccepts([tx], to, lamports, SOL, "", decimals) <==> ClientMatches(tx, to, lamports, SOL, "", decimals);
    forall j | 0 <= j < |tx.nativeTransfers|
      ensures NativeDeposit(tx.nativeTransfers[j], to, lamports)
              <==> NativeWithdrawal(tx.nativeTransfers[j], to, lamports as real / 1_000_000_000.0)
    {
    }
  }

  /** The two checks of the client, on the same answer of the chain. */
  method CheckBothWays(tx: Transaction, mints: MintAddresses, to: string, lamports: int, cluster: Cluster)
    returns (deposit: bool, withdrawal: bool)
    ensures deposit == withdrawal
  {
    var error;
    deposit, error := VerifyDeposit(Fetched([tx]), mints, to, lamports, SOL, cluster);
    withdrawal, error := VerifyWithdrawal(Fetched([tx]), mints, to, lamports as real / 1_000_000_000.0, SOL, cluster);
    NativeDepositsAreWithdrawals(tx, to, lamports, GetDecimals(cluster, SOL).value);
  }

  /** The client is asked for whole lamports of the required SOL. */
  lemma NativeAmountAsked(cluster: Cluster, terms: Terms)
    requires terms.token == SOL && Some(terms.decimals) == GetDecimals(cluster, SOL) && terms.required >= 0.0
    ensures ClientAmount(terms) as real <= terms.required * 1_000_000_000.0 < ClientAmount(terms) as real + 1.0
  {
    PowersOfTen();
    TruncateIsTowardZero(terms.required * 1_000_000_000.0);
  }

  /** The least amount of a token that the client takes, cluster by cluster. */
  lemma LeastTokenAmount(token: TokenType, t: TokenTransfer, to: string, mint: string, required: int)
    requires token != SOL
    ensures GetDecimals(Mainnet, token).Some? && GetDecimals(Testnet, token).Some? && GetDecimals(Devnet, token).None?
    ensures TokenDeposit(t, to, mint, required, GetDecimals(Mainnet, token).value)
            <==> t.to == to && t.mint == mint && t.amount >= required as real / 1_000_000.0
    ensures TokenDeposit(t, to, mint, required, GetDecimals(Testnet, token).value)
            <==> t.to == to && t.mint == mint && t.amount >= required as real / 1_000_000_000.0
  {
    PowersOfTen();
  }

  /** The mint of a token is the one configured for it on its cluster, and
      there is none if none is. */
  lemma MintIsTheConfiguredOne(mints: MintAddresses, cluster: Cluster, token: TokenType, mint: string)
    requires token != SOL
    ensures TargetMint(mints, cluster, token) == Some(mint)
            <==> cluster in mints && token in mints[cluster] && mints[cluster][token] == mint
  {
  }

  // ---- One transfer for two sessions ----

  /** The sessions wait for the same kind of transfer to the same wallet. */
  predicate Alike(a: Terms, b: Terms) {
    && a.wallet == b.wallet
    && (a.token == SOL <==> b.token == SOL)
    && (a.token == SOL || a.mint == b.mint)
  }

  function Max(x: real, y: real): real {
    if x >= y then x else y
  }

  /** A native amount that is at least so much. */
  function Covering(required: real, decimals: nat): int {
    (Max(required, 0.0) * Pow10(decimals) as real).Floor + 1
  }

  lemma CoveringCovers(required: real, decimals: nat, n: int)
    requires n >= Covering(required, decimals)
    ensures n >= 0 && n as real / Pow10(decimals) as real >= Max(required, 0.0)
  {
    var p := Pow10(decimals) as real;
    assert Max(required, 0.0) * p >= 0.0;
    Scale(n as real, p, Max(required, 0.0));
  }

  /** A transfer that is enough for both. */
  function CommonPayment(a: Terms, b: Terms): Payment {
    if a.token == SOL then
      var n, m := Covering(a.required, a.decimals), Covering(b.required, b.decimals);
      var transfer := NativeTransfer(a.wallet, if n >= m then n else m);
      Payment(Transaction("TRANSFER", "sig", [transfer], []), true, 0)
    else
      var transfer := TokenTransfer(a.wallet, a.mint, Max(Max(a.required, b.required), 0.0));
      Payment(Transaction("TRANSFER", "sig", [], [transfer]), false, 0)
  }

  lemma CommonPaymentPaysBoth(a: Terms, b: Terms)
    requires Alike(a, b)
    ensures var p := CommonPayment(a, b);
            && Pays(p, a) && Amount(p, a.decimals) >= 0.0
            && Pays(p, b) && Amount(p, b.decimals) >= 0.0
  {
    if a.token == SOL {
      var n := CommonPayment(a, b).tx.nativeTransfers[0].amount;
      CoveringCovers(a.required, a.decimals, n);
      CoveringCovers(b.required, b.decimals, n);
    }
  }

  /** Some transfer is taken for both sessions if and only if they wait for the
      same kind of transfer to the same wallet, whatever their amounts. */
  lemma OneTransferPaysBothExactlyIfAlike(a: Terms, b: Terms)
    ensures (exists p :: Pays(p, a) && Pays(p, b)) <==> Alike(a, b)
  {
    if Alike(a, b) {
      CommonPaymentPaysBoth(a, b);
    }
  }

  /** A session's two scans run one after the other, on the same transactions. */
  method VerifyThenMatch(fetch: Fetch, mints: MintAddresses, cluster: Cluster, terms: Terms)
    returns (verified: bool, r: Match)
    requires terms.required >= 0.0
    requires GetDecimals(cluster, terms.token).Some? ==> terms.decimals == GetDecimals(cluster, terms.token).value
    requires TargetMint(mints, cluster, terms.token).Some? ==>
               terms.mint == TargetMint(mints, cluster, terms.token).value
    ensures verified ==> fetch.Fetched?
    ensures r.Matched? ==> verified && r.amount >= terms.required && r.tx.signature != "" && r.tx in fetch.transactions
    ensures verified && WholeUnits(terms) && AllSigned(fetch.transactions) ==> r.Matched?
  {
    var error;
    verified, error := VerifyDeposit(fetch, mints, terms.wallet, ClientAmount(terms), terms.token, cluster);
    r := NoMatch;
    if verified {
      ghost var i, j;
      r, i, j := FindPayment(fetch.transactions, mints, cluster, terms);
      if WholeUnits(terms) && AllSigned(fetch.transactions) {
        ClientImpliesSettlement(fetch.transactions, terms);
      }
    }
  }
}
