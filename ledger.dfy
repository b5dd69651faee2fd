/**
 * The transaction verifier: a handle on one transaction signature that
 * fetches the transaction record through the provider, decides whether the
 * transaction succeeded, derives the amount it moved from the balance
 * snapshots, and compares that amount with an expected one.
 *
 * Each fetch is a call to the provider's `getTransaction`; its answer, the
 * decoded record or `None` when the node knows no such transaction, is an
 * input of the method that fetches.
 */
module Ledger {
  import opened Wrappers
  import opened Fixed
  import Rpc

  /** Native amounts are lamports; one coin is 10^9 lamports. */
  const LamportDecimals: nat := 9

  datatype UiTokenAmount = UiTokenAmount(uiAmount: real, decimals: nat)

  datatype TokenBalance = TokenBalance(accountIndex: nat, uiTokenAmount: UiTokenAmount)

  /**
   * The `meta` member of a transaction record. `err` is `None` when the
   * member is absent and `Some(JNull)` when it is JSON null; PHP's `is_null`
   * holds for both.
   */
  datatype Meta = Meta(
    err: Option<Rpc.Json>,
    preBalances: seq<nat>,
    postBalances: seq<nat>,
    preTokenBalances: Option<seq<TokenBalance>>,
    postTokenBalances: Option<seq<TokenBalance>>)

  /** A fetched transaction record; `meta` is `None` when it is null or absent. */
  datatype TransactionRecord = TransactionRecord(meta: Option<Meta>)

  /** How reading a record fails when an entry the code indexes is not there. */
  datatype Fault = RecordMissing | Malformed

  /** What the caller of `verifyTransferWithData` passes. */
  datatype TransferConfig = TransferConfig(amount: real, tokenAddress: Option<string>)

  /** A token-balance list; an absent list reads like an empty one everywhere. */
  function Entries(list: Option<seq<TokenBalance>>): seq<TokenBalance> {
    list.GetOr([])
  }

  /** `is_null` of a member that may be absent. */
  predicate IsNull(v: Option<Rpc.Json>) {
    v.None? || v.value == Rpc.JNull
  }

  /**
   * `validate`: the record exists and its `meta.err` is null. A record
   * without `meta` reads `meta.err` as null too, so it passes.
   */
  predicate Succeeded(data: Option<TransactionRecord>) {
    data.Some? && (data.value.meta.None? || IsNull(data.value.meta.value.err))
  }

  predicate HasMeta(data: Option<TransactionRecord>) {
    data.Some? && data.value.meta.Some?
  }

  function MetaOf(data: Option<TransactionRecord>): Meta
    requires HasMeta(data)
  {
    data.value.meta.value
  }

  /** The lamport change of account `i`. */
  function Lamports(m: Meta, i: nat): int
    requires i < |m.preBalances| && i < |m.postBalances|
  {
    m.postBalances[i] as int - m.preBalances[i] as int
  }

  /** The change of account `i`, in coins. */
  function NetChange(m: Meta, i: nat): real
    requires i < |m.preBalances| && i < |m.postBalances|
  {
    ToDec(Lamports(m, i), LamportDecimals)
  }

  predicate HasNativeEntry(m: Meta, i: nat) {
    i < |m.preBalances| && i < |m.postBalances|
  }

  /** A before/after pair of token amounts and the decimals to read them at. */
  datatype TokenPair = TokenPair(before: real, after: real, decimals: nat)

  function Outflow(p: TokenPair): real {
    p.before - p.after
  }

  function UiAmount(b: TokenBalance): real {
    b.uiTokenAmount.uiAmount
  }

  /**
   * The pair `getTransactionAmount` settles on: with no second pre-balance,
   * the first pre-balance against the second post-balance; with one, the
   * second account if the first one's amount went up; else the first account.
   */
  function AmountPair(pre: seq<TokenBalance>, post: seq<TokenBalance>): Result<TokenPair, Fault>
    requires |pre| > 0
  {
    if |post| == 0 then Err(Malformed)
    else if |pre| == 1 then
      if |post| < 2 then Err(Malformed)
      else Ok(TokenPair(UiAmount(pre[0]), UiAmount(post[1]), pre[0].uiTokenAmount.decimals))
    else if UiAmount(pre[0]) - UiAmount(post[0]) < 0.0 then
      if |post| < 2 then Err(Malformed)
      else Ok(TokenPair(UiAmount(pre[1]), UiAmount(post[1]), pre[1].uiTokenAmount.decimals))
    else Ok(TokenPair(UiAmount(pre[0]), UiAmount(post[0]), pre[0].uiTokenAmount.decimals))
  }

  /** The token amount reported for a pair: its outflow, or the magnitude rounded to its decimals. */
  function TokenAmount(p: TokenPair): real {
    if Outflow(p) < 0.0 then Quantize(Abs(Outflow(p)), p.decimals) else Outflow(p)
  }

  predicate IsTokenTransfer(m: Meta) {
    |Entries(m.preTokenBalances)| > 0
  }

  /** What `getTransactionAmount` returns for a fetched record. */
  function DerivedAmount(data: Option<TransactionRecord>): Result<real, Fault> {
    if data.None? then Err(RecordMissing)
    else if data.value.meta.None? then Err(Malformed)
    else
      var m := data.value.meta.value;
      if IsTokenTransfer(m) then
        match AmountPair(Entries(m.preTokenBalances), Entries(m.postTokenBalances))
        case Err(f) => Err(f)
        case Ok(p) => Ok(TokenAmount(p))
      else if !HasNativeEntry(m, 0) then Err(Malformed)
      else if Lamports(m, 0) >= 0 then Ok(NetChange(m, 0))
      else if !HasNativeEntry(m, 1) then Err(Malformed)
      else Ok(NetChange(m, 1))
  }

  /**
   * What `verifyCoinTransferWithData(amount)` answers: true when the first
   * account's change is the amount, otherwise whether the second account's
   * change prints like the amount at nine decimals.
   */
  function CoinVerdict(data: Option<TransactionRecord>, amount: real): Result<bool, Fault> {
    if !Succeeded(data) then Ok(false)
    else if data.value.meta.None? then Err(Malformed)
    else
      var m := data.value.meta.value;
      if !HasNativeEntry(m, 0) then Err(Malformed)
      else if NetChange(m, 0) == amount then Ok(true)
      else if !HasNativeEntry(m, 1) then Err(Malformed)
      else Ok(Lamports(m, 1) == RoundUnits(amount, LamportDecimals))
  }

  /**
   * What `verifyTokenTransferWithData(amount)` answers. With a second
   * pre-balance, a first-account outflow equal to the amount is accepted at
   * once; otherwise the pair is the first pre-balance against the second
   * post-balance (no second pre-balance) or the second account, and the
   * amount is accepted when it equals the pair's outflow or prints like the
   * outflow's magnitude at the pair's decimals.
   */
  function TokenVerdict(data: Option<TransactionRecord>, amount: real): Result<bool, Fault> {
    if !Succeeded(data) then Ok(false)
    else if data.value.meta.None? then Err(Malformed)
    else
      var pre := Entries(data.value.meta.value.preTokenBalances);
      var post := Entries(data.value.meta.value.postTokenBalances);
      if |pre| == 0 || |post| == 0 then Err(Malformed)
      else if |pre| > 1 && UiAmount(pre[0]) - UiAmount(post[0]) == amount then Ok(true)
      else if |post| < 2 then Err(Malformed)
      else
        var p := if |pre| == 1 then TokenPair(UiAmount(pre[0]), UiAmount(post[1]), pre[0].uiTokenAmount.decimals)
                 else TokenPair(UiAmount(pre[1]), UiAmount(post[1]), pre[1].uiTokenAmount.decimals);
        Ok(Outflow(p) == amount || SameAt(Abs(Outflow(p)), amount, p.decimals))
  }

  /** `getUrl`: the explorer page of the transaction, with the cluster named off mainnet. */
  function ExplorerUrl(network: Rpc.Network, hash: string): (url: string)
    ensures network.explorer + "tx/" + hash <= url
    ensures network.node == "mainnet-beta" <==> |url| == |network.explorer + "tx/" + hash|
    ensures network.node != "mainnet-beta" ==> url[|network.explorer + "tx/" + hash|..] == "?cluster=" + network.node
  {
    var page := network.explorer + "tx/" + hash;
    page + (if network.node != "mainnet-beta" then "?cluster=" + network.node else "")
  }

  /** Native payment: the first account gained 0.1 coin, which is the amount reported and verified. */
  lemma NativeScenario()
    ensures var m := Meta(None, [1000000000, 500000000], [1100000000, 400000000], None, None);
            DerivedAmount(Some(TransactionRecord(Some(m)))) == Ok(0.1) &&
            CoinVerdict(Some(TransactionRecord(Some(m))), 0.1) == Ok(true)
  {
  }

  /** The same payment with the accounts listed the other way round: index 1 is used. */
  lemma InvertedNativeScenario()
    ensures var m := Meta(None, [500000000, 1000000000], [400000000, 1100000000], None, None);
            DerivedAmount(Some(TransactionRecord(Some(m)))) == Ok(0.1) &&
            CoinVerdict(Some(TransactionRecord(Some(m))), 0.1) == Ok(true)
  {
  }

  /**
   * Token payment to an account created by the transaction: there is no
   * second pre-balance, so 50 before is set against 55 after.
   */
  lemma TokenScenario()
    ensures var m := Meta(None, [], [],
                          Some([TokenBalance(0, UiTokenAmount(50.0, 6))]),
                          Some([TokenBalance(0, UiTokenAmount(45.0, 6)), TokenBalance(1, UiTokenAmount(55.0, 6))]));
            AmountPair(Entries(m.preTokenBalances), Entries(m.postTokenBalances)) == Ok(TokenPair(50.0, 55.0, 6)) &&
            DerivedAmount(Some(TransactionRecord(Some(m)))) == Ok(5.0) &&
            TokenVerdict(Some(TransactionRecord(Some(m))), 5.0) == Ok(true)
  {
  }

  /** The native amount is negative only when both of the first two accounts lost lamports. */
  lemma NativeAmountSign(data: Option<TransactionRecord>, x: real)
    requires HasMeta(data) && !IsTokenTransfer(MetaOf(data))
    requires DerivedAmount(data) == Ok(x)
    ensures x < 0.0 <==> Lamports(MetaOf(data), 0) < 0 && Lamports(MetaOf(data), 1) < 0
    ensures Lamports(MetaOf(data), 0) >= 0 ==> x == NetChange(MetaOf(data), 0)
    ensures Lamports(MetaOf(data), 0) < 0 ==> x == NetChange(MetaOf(data), 1)
  {
  }

  /** The fallback to index 1 does not make the native amount non-negative. */
  lemma NativeFallbackCanBeNegative()
    ensures var m := Meta(None, [10, 10], [5, 4], None, None);
            DerivedAmount(Some(TransactionRecord(Some(m)))) == Ok(ToDec(-6, LamportDecimals)) &&
            ToDec(-6, LamportDecimals) < 0.0
  {
  }

  /**
   * A token amount is never negative, and it always prints like the
   * magnitude of the chosen pair's outflow at that pair's decimals.
   */
  lemma TokenAmountIsMagnitude(data: Option<TransactionRecord>, x: real)
    requires HasMeta(data) && IsTokenTransfer(MetaOf(data))
    requires DerivedAmount(data) == Ok(x)
    ensures var p := AmountPair(Entries(MetaOf(data).preTokenBalances), Entries(MetaOf(data).postTokenBalances));
            p.Ok? && x >= 0.0 && SameAt(x, Abs(Outflow(p.value)), p.value.decimals) &&
            (Outflow(p.value) >= 0.0 ==> x == Outflow(p.value))
  {
  }

  /**
   * For an amount with at most nine decimals, the coin check accepts exactly
   * the change of the first account or the change of the second.
   */
  lemma CoinVerdictExact(data: Option<TransactionRecord>, k: int)
    requires Succeeded(data) && HasMeta(data) && HasNativeEntry(MetaOf(data), 1) && HasNativeEntry(MetaOf(data), 0)
    ensures var m := MetaOf(data);
            var amount := ToDec(k, LamportDecimals);
            CoinVerdict(data, amount) == Ok(amount == NetChange(m, 0) || amount == NetChange(m, 1))
  {
    var m := MetaOf(data);
    RoundUnitsOfToDec(k, LamportDecimals);
    SameAtExact(Lamports(m, 1), k, LamportDecimals);
  }

  /**
   * For a pair and an amount that both have at most `decimals` places, the
   * final token comparison accepts the outflow or its magnitude, and nothing else.
   */
  lemma PairComparisonExact(p: TokenPair, j: int, k: int)
    requires Outflow(p) == ToDec(j, p.decimals)
    ensures var amount := ToDec(k, p.decimals);
            (Outflow(p) == amount || SameAt(Abs(Outflow(p)), amount, p.decimals)) <==> (j == k || (if j < 0 then -j else j) == k)
  {
  }

  /**
   * A record without `meta` passes validation, but every amount or balance
   * read from it is a missing entry.
   */
  lemma RecordWithoutMeta(amount: real)
    ensures var data := Some(TransactionRecord(None));
            Succeeded(data) && DerivedAmount(data) == Err(Malformed) &&
            CoinVerdict(data, amount) == Err(Malformed) && TokenVerdict(data, amount) == Err(Malformed)
  {
  }

  /** A record that is missing or failed on chain verifies as false on both paths. */
  lemma FailedRecordNeverVerifies(data: Option<TransactionRecord>, amount: real)
    requires !Succeeded(data)
    ensures CoinVerdict(data, amount) == Ok(false) && TokenVerdict(data, amount) == Ok(false)
  {
  }

  /**
   * The amount and the coin check pick the account differently: here the
   * first account gained 0.1 coin, which is the amount reported, yet 0.2,
   * the second account's change, is also accepted.
   */
  lemma FallbackRulesDiffer()
    ensures var m := Meta(None, [1000000000, 500000000], [1100000000, 700000000], None, None);
            DerivedAmount(Some(TransactionRecord(Some(m)))) == Ok(0.1) &&
            CoinVerdict(Some(TransactionRecord(Some(m))), 0.2) == Ok(true)
  {
  }

  /** The request a fetch sends: `getTransaction` is allow-listed, so the envelope goes to the host. */
  lemma FetchSendsEnvelope(provider: Rpc.Provider, hash: string, server: Rpc.Post -> Rpc.Reply)
    ensures provider.Invoke("getTransaction", [Rpc.JStr(hash)], server).sent ==
            [Rpc.Post(provider.network.host, provider.BuildRpc("getTransaction", [Rpc.JStr(hash)]))]
  {
  }

  /** The explorer link names the cluster for devnet only, and never depends on the RPC host. */
  lemma ExplorerUrlOfPresets(hash: string, host: string)
    ensures ExplorerUrl(Rpc.Mainnet, hash) == "https://solscan.io/tx/" + hash
    ensures ExplorerUrl(Rpc.Mainnet.(host := host), hash) == ExplorerUrl(Rpc.Mainnet, hash)
    ensures ExplorerUrl(Rpc.Devnet, hash) == "https://solscan.io/tx/" + hash + "?cluster=devnet"
  {
  }

  class Transaction {
    const hash: string
    const provider: Rpc.Provider
    /** The record of the latest fetch. */
    var data: Option<TransactionRecord>
    /** How many times the record has been fetched. */
    ghost var fetches: nat

    constructor (hash: string, provider: Rpc.Provider)
      ensures this.hash == hash && this.provider == provider
      ensures data.None? && fetches == 0
    {
      this.hash := hash;
      this.provider := provider;
      data := None;
      fetches := 0;
    }

    /** `getHash`: the signature the handle was opened on. */
    function GetHash(): (h: string)
      ensures h == hash
    {
      hash
    }

    /** `getData`: fetch the record again and keep it, whatever was kept before. */
    method GetData(fetched: Option<TransactionRecord>) returns (d: Option<TransactionRecord>)
      modifies this
      ensures d == fetched && data == fetched
      ensures fetches == old(fetches) + 1
    {
      data := fetched;
      fetches := fetches + 1;
      d := data;
    }

    /** `validate`: false for a missing record, true exactly when `meta` or its `err` is null. */
    method Validate(fetched: Option<TransactionRecord>) returns (valid: bool)
      modifies this
      ensures data == fetched && fetches == old(fetches) + 1
      ensures valid <==>
                fetched.Some? &&
                (fetched.value.meta.None? || fetched.value.meta.value.err.None? || fetched.value.meta.value.err == Some(Rpc.JNull))
    {
      var d := GetData(fetched);
      if data.None? {
        valid := false;
      } else if data.value.meta.None? || IsNull(data.value.meta.value.err) {
        valid := true;
      } else {
        valid := false;
      }
    }

    /** `getTransactionAmount`. */
    method GetTransactionAmount(fetched: Option<TransactionRecord>) returns (r: Result<real, Fault>)
      modifies this
      ensures data == fetched && fetches == old(fetches) + 1
      ensures r == DerivedAmount(fetched)
    {
      var d := GetData(fetched);
      if data.None? {
        return Err(RecordMissing);
      }
      if data.value.meta.None? {
        return Err(Malformed);
      }
      var meta := data.value.meta.value;
      var pre := Entries(meta.preTokenBalances);
      var post := Entries(meta.postTokenBalances);
      var diff: real;
      if |pre| > 0 {
        if |post| == 0 {
          return Err(Malformed);
        }
        var decimals := pre[0].uiTokenAmount.decimals;
        var beforeBalance := UiAmount(pre[0]);
        var afterBalance := UiAmount(post[0]);
        diff := beforeBalance - afterBalance;
        if |pre| < 2 {
          if |post| < 2 {
            return Err(Malformed);
          }
          beforeBalance := UiAmount(pre[0]);
          afterBalance := UiAmount(post[1]);
          diff := beforeBalance - afterBalance;
        } else if diff < 0.0 {
          if |post| < 2 {
            return Err(Malformed);
          }
          decimals := pre[1].uiTokenAmount.decimals;
          beforeBalance := UiAmount(pre[1]);
          afterBalance := UiAmount(post[1]);
          diff := beforeBalance - afterBalance;
        }
        if diff < 0.0 {
          diff := Quantize(Abs(beforeBalance - afterBalance), decimals);
        }
      } else {
        if |meta.preBalances| == 0 || |meta.postBalances| == 0 {
          return Err(Malformed);
        }
        var beforeBalance: int := meta.preBalances[0];
        var afterBalance: int := meta.postBalances[0];
        var change := afterBalance - beforeBalance;
        if change < 0 {
          if |meta.preBalances| < 2 || |meta.postBalances| < 2 {
            return Err(Malformed);
          }
          beforeBalance := meta.preBalances[1];
          afterBalance := meta.postBalances[1];
          diff := ToDec(afterBalance - beforeBalance, LamportDecimals);
        } else {
          diff := ToDec(afterBalance - beforeBalance, LamportDecimals);
        }
      }
      r := Ok(diff);
    }

    /** `verifyTokenTransferWithData`. */
    method VerifyTokenTransferWithData(fetched: Option<TransactionRecord>, amount: real) returns (r: Result<bool, Fault>)
      modifies this
      ensures data == fetched && fetches == old(fetches) + 1
      ensures r == TokenVerdict(fetched, amount)
    {
      var valid := Validate(fetched);
      if !valid {
        return Ok(false);
      }
      if data.value.meta.None? {
        return Err(Malformed);
      }
      var pre := Entries(data.value.meta.value.preTokenBalances);
      var post := Entries(data.value.meta.value.postTokenBalances);
      if |pre| == 0 || |post| == 0 {
        return Err(Malformed);
      }
      var expected := amount;
      var decimals := pre[0].uiTokenAmount.decimals;
      var beforeBalance := UiAmount(pre[0]);
      var afterBalance := UiAmount(post[0]);
      var diff := beforeBalance - afterBalance;
      if |pre| < 2 {
        if |post| < 2 {
          return Err(Malformed);
        }
        beforeBalance := UiAmount(pre[0]);
        afterBalance := UiAmount(post[1]);
        diff := beforeBalance - afterBalance;
      } else if diff != expected {
        if |post| < 2 {
          return Err(Malformed);
        }
        decimals := pre[1].uiTokenAmount.decimals;
        beforeBalance := UiAmount(pre[1]);
        afterBalance := UiAmount(post[1]);
        diff := beforeBalance - afterBalance;
      }
      if diff != expected {
        diff := Quantize(Abs(beforeBalance - afterBalance), decimals);
      }
      if diff != expected {
        expected := Quantize(expected, decimals);
      }
      r := Ok(SameAt(diff, expected, decimals));
    }

    /** `verifyCoinTransferWithData`. */
    method VerifyCoinTransferWithData(fetched: Option<TransactionRecord>, amount: real) returns (r: Result<bool, Fault>)
      modifies this
      ensures data == fetched && fetches == old(fetches) + 1
      ensures r == CoinVerdict(fetched, amount)
    {
      var valid := Validate(fetched);
      if !valid {
        return Ok(false);
      }
      if data.value.meta.None? {
        return Err(Malformed);
      }
      var meta := data.value.meta.value;
      if |meta.preBalances| == 0 || |meta.postBalances| == 0 {
        return Err(Malformed);
      }
      var beforeBalance: int := meta.preBalances[0];
      var afterBalance: int := meta.postBalances[0];
      var diff := ToDec(afterBalance - beforeBalance, LamportDecimals);
      if diff != amount {
        if |meta.preBalances| < 2 || |meta.postBalances| < 2 {
          return Err(Malformed);
        }
        beforeBalance := meta.preBalances[1];
        afterBalance := meta.postBalances[1];
        diff := ToDec(afterBalance - beforeBalance, LamportDecimals);
        RoundUnitsOfToDec(afterBalance - beforeBalance, LamportDecimals);
      }
      r := Ok(SameAt(diff, amount, LamportDecimals));
    }

    /** `verifyTransferWithData`: the token check when a token address is given, else the coin check. */
    method VerifyTransferWithData(fetched: Option<TransactionRecord>, config: TransferConfig) returns (r: Result<bool, Fault>)
      modifies this
      ensures data == fetched && fetches == old(fetches) + 1
      ensures config.tokenAddress.Some? ==> r == TokenVerdict(fetched, config.amount)
      ensures config.tokenAddress.None? ==> r == CoinVerdict(fetched, config.amount)
    {
      if config.tokenAddress.Some? {
        r := VerifyTokenTransferWithData(fetched, config.amount);
      } else {
        r := VerifyCoinTransferWithData(fetched, config.amount);
      }
    }

    /** `getUrl`: the explorer page of this transaction on the provider's current network. */
    function GetUrl(): (url: string)
      reads provider
      ensures var page := provider.network.explorer + "tx/" + hash;
              page <= url &&
              (provider.network.node == "mainnet-beta" <==> url == page) &&
              (provider.network.node != "mainnet-beta" ==> url == page + "?cluster=" + provider.network.node)
    {
      ExplorerUrl(provider.network, hash)
    }
  }

  /** `Provider::Transaction`: a fresh handle on `hash` bound to `provider`, nothing fetched yet. */
  method OpenTransaction(provider: Rpc.Provider, hash: string) returns (t: Transaction)
    ensures fresh(t) && t.hash == hash && t.provider == provider
    ensures t.data.None? && t.fetches == 0
  {
    t := new Transaction(hash, provider);
  }

  /** Validating twice fetches twice; the answers agree when the node answered alike. */
  method RevalidateFetchesAgain(t: Transaction, first: Option<TransactionRecord>, second: Option<TransactionRecord>)
    returns (a: bool, b: bool)
    modifies t
    ensures t.fetches == old(t.fetches) + 2 && t.data == second
    ensures first == second ==> a == b
  {
    a := t.Validate(first);
    b := t.Validate(second);
  }
}
