/** The Helius client: how it decides, from the transactions the chain reports,
    that a deposit or a withdrawal was paid. The HTTP exchange is an input. */
module Helius {

  import opened Wrappers

  datatype TokenType = SOL | USDC | USDT

  datatype Cluster = Mainnet | Testnet | Devnet

  datatype NativeTransfer = NativeTransfer(to: string, amount: int)

  datatype TokenTransfer = TokenTransfer(to: string, mint: string, amount: real)

  datatype Transaction = Transaction(
    kind: string, signature: string,
    nativeTransfers: seq<NativeTransfer>, tokenTransfers: seq<TokenTransfer>)
  {
    predicate IsTransfer() {
      kind == "TRANSFER"
    }
  }

  /** What the HTTP request came back with: parsed transactions, or any failure
      on the way (no base URL, transport, status code, body, JSON). */
  datatype Fetch = Fetched(transactions: seq<Transaction>) | FetchFailed

  datatype Error = NotFetched | UnsupportedCluster | NoMintAddress | NotFound | NotATransfer | NoPayment

  type MintAddresses = map<Cluster, map<TokenType, string>>

  function GetMintAddress(mints: MintAddresses, cluster: Cluster, token: TokenType): Option<string> {
    if cluster in mints && token in mints[cluster] then Some(mints[cluster][token]) else None
  }

  function GetDecimals(cluster: Cluster, token: TokenType): Option<nat> {
    if token == SOL then Some(9)
    else match cluster
      case Mainnet => Some(6)
      case Testnet => Some(9)
      case Devnet => None
  }

  function Pow10(n: nat): (p: int)
    ensures p >= 1
  {
    if n == 0 then 1 else 10 * Pow10(n - 1)
  }

  /** The mint the token transfers are compared with; native SOL has none. */
  function TargetMint(mints: MintAddresses, cluster: Cluster, token: TokenType): Option<string> {
    if token == SOL then Some("") else GetMintAddress(mints, cluster, token)
  }

  // ---- Deposits: the required amount is in the token's smallest unit ----

  predicate NativeDeposit(t: NativeTransfer, address: string, required: int) {
    t.to == address && t.amount >= required
  }

  predicate TokenDeposit(t: TokenTransfer, address: string, mint: string, required: int, decimals: nat) {
    t.to == address && t.mint == mint && t.amount >= required as real / Pow10(decimals) as real
  }

  /** Some transfer of this transaction pays the deposit, as the client sees it. */
  predicate ClientMatches(tx: Transaction, address: string, required: int, token: TokenType, mint: string,
                          decimals: nat) {
    && tx.IsTransfer()
    && if token == SOL then
         exists j :: 0 <= j < |tx.nativeTransfers| && NativeDeposit(tx.nativeTransfers[j], address, required)
       else
         exists j :: 0 <= j < |tx.tokenTransfers| &&
           TokenDeposit(tx.tokenTransfers[j], address, mint, required, decimals)
  }

  predicate ClientAccepts(txs: seq<Transaction>, address: string, required: int, token: TokenType, mint: string,
                          decimals: nat) {
    exists i :: 0 <= i < |txs| && ClientMatches(txs[i], address, required, token, mint, decimals)
  }

  method VerifyDeposit(fetch: Fetch, mints: MintAddresses, address: string, required: int, token: TokenType,
                       cluster: Cluster)
    returns (verified: bool, error: Option<Error>)
    ensures verified <==> error.None?
    ensures verified <==>
            && fetch.Fetched?
            && GetDecimals(cluster, token).Some?
            && TargetMint(mints, cluster, token).Some?
            && ClientAccepts(fetch.transactions, address, required, token,
                             TargetMint(mints, cluster, token).value, GetDecimals(cluster, token).value)
    ensures error == Some(NotFetched) <==> fetch.FetchFailed?
    ensures error == Some(UnsupportedCluster) <==> fetch.Fetched? && token != SOL && cluster == Devnet
    ensures error == Some(NoMintAddress) <==>
            fetch.Fetched? && token != SOL && cluster != Devnet && GetMintAddress(mints, cluster, token).None?
    ensures error.Some? ==> !error.value.NotFound? && !error.value.NotATransfer?
  {
    if fetch.FetchFailed? {
      return false, Some(NotFetched);
    }
    var decimals := GetDecimals(cluster, token);
    if decimals.None? {
      return false, Some(UnsupportedCluster);
    }
    var targetMint := "";
    if token != SOL {
      var mint := GetMintAddress(mints, cluster, token);
      if mint.None? {
        return false, Some(NoMintAddress);
      }
      targetMint := mint.value;
    }
    var txs := fetch.transactions;
    for i := 0 to |txs|
      invariant forall k :: 0 <= k < i ==> !ClientMatches(txs[k], address, required, token, targetMint, decimals.value)
    {
      var tx := txs[i];
      if tx.kind == "TRANSFER" {
        if token == SOL {
          for j := 0 to |tx.nativeTransfers|
            invariant forall k :: 0 <= k < j ==> !NativeDeposit(tx.nativeTransfers[k], address, required)
          {
            var transfer := tx.nativeTransfers[j];
            if transfer.to == address && transfer.amount >= required {
              assert ClientMatches(txs[i], address, required, token, targetMint, decimals.value);
              return true, None;
            }
          }
        } else {
          for j := 0 to |tx.tokenTransfers|
            invariant forall k :: 0 <= k < j ==>
                        !TokenDeposit(tx.tokenTransfers[k], address, targetMint, required, decimals.value)
          {
            var transfer := tx.tokenTransfers[j];
            var requiredUnits := required as real / Pow10(decimals.value) as real;
            if transfer.to == address && transfer.mint == targetMint && transfer.amount >= requiredUnits {
              assert ClientMatches(txs[i], address, required, token, targetMint, decimals.value);
              return true, None;
            }
          }
        }
      }
    }
    return false, Some(NoPayment);
  }

  // ---- Withdrawals: one transaction, looked up by its hash ----

  predicate NativeWithdrawal(t: NativeTransfer, to: string, amount: real) {
    t.to == to && t.amount as real / 1_000_000_000.0 >= amount
  }

  predicate TokenWithdrawal(t: TokenTransfer, to: string, mint: string, amount: real) {
    t.to == to && t.mint == mint && t.amount >= amount
  }

  predicate PaysWithdrawal(tx: Transaction, to: string, amount: real, token: TokenType, mint: string) {
    && tx.IsTransfer()
    && if token == SOL then
         exists j :: 0 <= j < |tx.nativeTransfers| && NativeWithdrawal(tx.nativeTransfers[j], to, amount)
       else
         exists j :: 0 <= j < |tx.tokenTransfers| && TokenWithdrawal(tx.tokenTransfers[j], to, mint, amount)
  }

  /** An answer of either check: verified exactly when there is no error. */
  predicate PossibleAnswer(verified: bool, failed: bool) {
    verified <==> !failed
  }

  method VerifyWithdrawal(fetch: Fetch, mints: MintAddresses, to: string, amount: real, token: TokenType,
                          cluster: Cluster)
    returns (verified: bool, error: Option<Error>)
    ensures PossibleAnswer(verified, error.Some?)
    ensures verified <==>
            && fetch.Fetched?
            && fetch.transactions != []
            && TargetMint(mints, cluster, token).Some?
            && PaysWithdrawal(fetch.transactions[0], to, amount, token, TargetMint(mints, cluster, token).value)
    ensures error == Some(NotFetched) <==> fetch.FetchFailed?
    ensures error == Some(NotFound) <==> fetch == Fetched([])
    ensures error == Some(NotATransfer) <==>
            fetch.Fetched? && fetch.transactions != [] && fetch.transactions[0].kind != "TRANSFER"
    ensures error == Some(NoMintAddress) <==>
            && fetch.Fetched? && fetch.transactions != [] && fetch.transactions[0].kind == "TRANSFER"
            && token != SOL && GetMintAddress(mints, cluster, token).None?
    ensures error != Some(UnsupportedCluster)
  {
    if fetch.FetchFailed? {
      return false, Some(NotFetched);
    }
    if |fetch.transactions| == 0 {
      return false, Some(NotFound);
    }
    var tx := fetch.transactions[0];
    if tx.kind != "TRANSFER" {
      return false, Some(NotATransfer);
    }
    var targetMint := "";
    if token != SOL {
      var mint := GetMintAddress(mints, cluster, token);
      if mint.None? {
        return false, Some(NoMintAddress);
      }
      targetMint := mint.value;
    }
    if token == SOL {
      for j := 0 to |tx.nativeTransfers|
        invariant forall k :: 0 <= k < j ==> !NativeWithdrawal(tx.nativeTransfers[k], to, amount)
      {
        var transfer := tx.nativeTransfers[j];
        if transfer.to == to && transfer.amount as real / 1_000_000_000.0 >= amount {
          return true, None;
        }
      }
    } else {
      for j := 0 to |tx.tokenTransfers|
        invariant forall k :: 0 <= k < j ==> !TokenWithdrawal(tx.tokenTransfers[k], to, targetMint, amount)
      {
        var transfer := tx.tokenTransfers[j];
        if transfer.to == to && transfer.mint == targetMint && transfer.amount >= amount {
          return true, None;
        }
      }
    }
    return false, Some(NoPayment);
  }
}
