/**
 * The JSON-RPC client of the Solana provider: network selection at
 * construction, the two-stage method-name gate, the JSON-RPC 2.0 envelope
 * and the checks made on every reply. The HTTPS exchange is a parameter
 * `server` that maps the request posted to a host to the decoded reply.
 */
module Rpc {
  import opened Wrappers

  /** A JSON value, as produced by `json_decode` and consumed by `json_encode`. */
  datatype Json =
    | JNull
    | JBool(b: bool)
    | JInt(i: int)
    | JStr(s: string)
    | JArr(items: seq<Json>)
    | JObj(members: seq<(string, Json)>)

  /** One entry of the network presets. */
  datatype Network = Network(node: string, name: string, host: string, explorer: string)

  const Mainnet := Network("mainnet-beta", "Mainnet", "https://api.mainnet-beta.solana.com/", "https://solscan.io/")
  const Testnet := Network("testnet", "Testnet", "https://api.testnet.solana.com", "https://solscan.io/")
  const Devnet := Network("devnet", "Devnet", "https://api.devnet.solana.com", "https://solscan.io/")

  const Networks: map<string, Network> := map["mainnet" := Mainnet, "testnet" := Testnet, "devnet" := Devnet]

  /** The standard JSON-RPC 2.0 error codes the client knows by name. */
  const ErrorCodes: map<string, int> := map[
    "parse-error" := -32700,
    "invalid-request" := -32600,
    "method-not-found" := -32601,
    "invalid-parameters" := -32602,
    "internal-error" := -32603]

  /**
   * The closed list of RPC methods the client forwards, in the order the
   * client lists them. It is written in parts only so that the characters of
   * each part's names can be checked in a proof of their own.
   */
  const AllowedMethods: seq<string> :=
    AllowedPart1
    + AllowedPart2
    + AllowedPart3
    + AllowedPart4
    + AllowedPart5
    + AllowedPart6
    + AllowedPart7
    + AllowedPart8
    + AllowedPart9
    + AllowedPart10
    + AllowedPart11

  const AllowedPart1: seq<string> := ["getAccountInfo", "getBalance", "getBlock", "getBlockHeight", "getBlockProduction", "getBlockCommitment", "getBlocks"]
  const AllowedPart2: seq<string> := ["getBlocksWithLimit", "getBlockTime", "getClusterNodes", "getEpochInfo", "getEpochSchedule", "getFeeForMessage"]
  const AllowedPart3: seq<string> := ["getFirstAvailableBlock", "getGenesisHash", "getHealth", "getHighestSnapshotSlot", "getIdentity", "getInflationGovernor"]
  const AllowedPart4: seq<string> := ["getInflationRate", "getInflationReward", "getLargestAccounts", "getLatestBlockhash", "getLeaderSchedule"]
  const AllowedPart5: seq<string> := ["getMaxRetransmitSlot", "getMaxShredInsertSlot", "getMinimumBalanceForRentExemption", "getMultipleAccounts"]
  const AllowedPart6: seq<string> := ["getProgramAccounts", "getRecentPerformanceSamples", "getSignaturesForAddress", "getSignatureStatuses", "getSlot"]
  const AllowedPart7: seq<string> := ["getSlotLeader", "getSlotLeaders", "getStakeActivation", "getSupply", "getTokenAccountBalance"]
  const AllowedPart8: seq<string> := ["getTokenAccountsByDelegate", "getTokenAccountsByOwner", "getTokenLargestAccounts", "getTokenSupply", "getTransaction"]
  const AllowedPart9: seq<string> := ["getTransactionCount", "getVersion", "getVoteAccounts", "isBlockhashValid", "minimumLedgerSlot", "requestAirdrop"]
  const AllowedPart10: seq<string> := ["sendTransaction", "simulateTransaction", "accountSubscribe", "accountUnsubscribe", "logsSubscribe", "logsUnsubscribe"]
  const AllowedPart11: seq<string> := ["programSubscribe", "programUnsubscribe", "signatureSubscribe", "signatureUnsubscribe", "slotSubscribe", "slotUnsubscribe"]

  /** The range `random_int(0, 99999999)` draws the correlation id from. */
  type Key = k: int | 0 <= k <= 99999999

  /** A JSON-RPC 2.0 request: the record behind the envelope. */
  datatype Request = Request(jsonrpc: string, id: int, methodName: string, params: seq<Json>)

  /** The `error` member of a reply. */
  datatype ServerError = ServerError(code: int, message: string)

  /**
   * A decoded reply. `id` is `None` when the member is missing or is not an
   * integer, since neither is identical (`!==`) to the stored key. `error` is
   * `None` when the member is absent or null, since `isset` is false for both;
   * `result` is `None` in the same cases.
   */
  datatype Reply = Reply(id: Option<int>, result: Option<Json>, error: Option<ServerError>)

  /** One HTTP POST: the endpoint and the JSON body. */
  datatype Post = Post(host: string, body: Json)

  /** The exceptions the client throws. */
  datatype Failure =
    | InvalidMethodName
    | UnallowedMethod(name: string)
    | InvalidResponse
    | MethodNotFound(name: string)
    | ApiError(message: string)

  /**
   * The message of the exception thrown for each failure. A server error's
   * message is passed on as it is; the client's own messages name the method
   * where they concern one.
   */
  function Message(f: Failure): (msg: string)
    ensures f.ApiError? ==> msg == f.message
    ensures f.UnallowedMethod? ==> |msg| == 18 + |f.name| && msg[18..] == f.name
    ensures f.MethodNotFound? ==> |msg| == 29 + |f.name| && msg[18..18 + |f.name|] == f.name
  {
    match f
    case InvalidMethodName => "Invalid method name"
    case UnallowedMethod(m) => "Unallowed method: " + m
    case InvalidResponse => "Invalid response"
    case MethodNotFound(m) => "API Error: Method " + m + " not found."
    case ApiError(msg) => msg
  }

  /** What one invocation did: the posts it sent, in order, and what it returned or threw. */
  datatype Exchange = Exchange(sent: seq<Post>, outcome: Result<Json, Failure>)

  predicate IsAlnumChar(c: char) {
    'a' <= c <= 'z' || 'A' <= c <= 'Z' || '0' <= c <= '9'
  }

  predicate IsAlnum(s: string) {
    |s| > 0 && forall c | c in s :: IsAlnumChar(c)
  }

  /**
   * `preg_match('/^[a-zA-Z0-9]+$/', s) === 1`. Without the `D` modifier PCRE's
   * `$` also matches just before a newline that ends the subject, so one
   * trailing "\n" passes this stage.
   */
  predicate MatchesMethodPattern(s: string) {
    IsAlnum(s) || (|s| > 1 && s[|s| - 1] == '\n' && IsAlnum(s[..|s| - 1]))
  }

  /** PHP's truthiness of a string: everything except "" and "0". */
  predicate Truthy(s: string) {
    s != "" && s != "0"
  }

  /** The first member named `key` of a JSON object. */
  function Field(members: seq<(string, Json)>, key: string): (v: Option<Json>)
    ensures v.Some? <==> exists i | 0 <= i < |members| :: members[i].0 == key
  {
    if |members| == 0 then None
    else if members[0].0 == key then Some(members[0].1)
    else
      assert forall i | 1 <= i < |members| :: members[i] == members[1..][i - 1];
      Field(members[1..], key)
  }

  /** The JSON object an envelope is written as. */
  function Encode(r: Request): Json {
    JObj([("jsonrpc", JStr(r.jsonrpc)), ("id", JInt(r.id)), ("method", JStr(r.methodName)), ("params", JArr(r.params))])
  }

  /** Reads a request back from a JSON object, as a server would. */
  function Decode(j: Json): Option<Request> {
    match j
    case JObj(ms) =>
      (match (Field(ms, "jsonrpc"), Field(ms, "id"), Field(ms, "method"), Field(ms, "params"))
       case (Some(JStr(v)), Some(JInt(id)), Some(JStr(m)), Some(JArr(ps))) => Some(Request(v, id, m, ps))
       case _ => None)
    case _ => None
  }

  /** Every allow-listed name already passes the pattern stage. */
  lemma AllowedMethodsMatchPattern()
    ensures forall m | m in AllowedMethods :: IsAlnum(m)
  {
    AllowedPart1Matches(); AllowedPart2Matches(); AllowedPart3Matches(); AllowedPart4Matches(); AllowedPart5Matches(); AllowedPart6Matches(); AllowedPart7Matches(); AllowedPart8Matches(); AllowedPart9Matches(); AllowedPart10Matches(); AllowedPart11Matches();
  }

  lemma AllowedPart1Matches() ensures forall m | m in AllowedPart1 :: IsAlnum(m) {}
  lemma AllowedPart2Matches() ensures forall m | m in AllowedPart2 :: IsAlnum(m) {}
  lemma AllowedPart3Matches() ensures forall m | m in AllowedPart3 :: IsAlnum(m) {}
  lemma AllowedPart4Matches() ensures forall m | m in AllowedPart4 :: IsAlnum(m) {}
  lemma AllowedPart5Matches() ensures forall m | m in AllowedPart5 :: IsAlnum(m) {}
  lemma AllowedPart6Matches() ensures forall m | m in AllowedPart6 :: IsAlnum(m) {}
  lemma AllowedPart7Matches() ensures forall m | m in AllowedPart7 :: IsAlnum(m) {}
  lemma AllowedPart8Matches() ensures forall m | m in AllowedPart8 :: IsAlnum(m) {}
  lemma AllowedPart9Matches() ensures forall m | m in AllowedPart9 :: IsAlnum(m) {}
  lemma AllowedPart10Matches() ensures forall m | m in AllowedPart10 :: IsAlnum(m) {}
  lemma AllowedPart11Matches() ensures forall m | m in AllowedPart11 :: IsAlnum(m) {}

  /** Reading an envelope back gives the request it was written from. */
  lemma DecodeEncode(r: Request)
    ensures Decode(Encode(r)) == Some(r)
  {
    var ms := [("jsonrpc", JStr(r.jsonrpc)), ("id", JInt(r.id)), ("method", JStr(r.methodName)), ("params", JArr(r.params))];
    assert "jsonrpc" != "id" && "jsonrpc" != "method" && "jsonrpc" != "params";
    assert "id" != "method" && "id" != "params" && "method" != "params";
    assert ms[1..] == [("id", JInt(r.id)), ("method", JStr(r.methodName)), ("params", JArr(r.params))];
    assert ms[1..][1..] == [("method", JStr(r.methodName)), ("params", JArr(r.params))];
    assert ms[1..][1..][1..] == [("params", JArr(r.params))];
    assert Field(ms, "id") == Some(JInt(r.id));
    assert Field(ms, "method") == Field(ms[1..][1..], "method") == Some(JStr(r.methodName));
    assert Field(ms[1..], "params") == Field(ms[1..][1..], "params") == Field(ms[1..][1..][1..], "params");
    assert Field(ms, "params") == Some(JArr(r.params));
  }

  /** The method name can be read back from the message of an exception about it. */
  lemma MessageIdentifiesFailure(a: string, b: string)
    ensures Message(UnallowedMethod(a)) == Message(UnallowedMethod(b)) ==> a == b
    ensures Message(MethodNotFound(a)) == Message(MethodNotFound(b)) ==> a == b
    ensures Message(InvalidMethodName) != Message(InvalidResponse)
  {
  }

  /**
   * A name that is empty, or holds a character outside `[a-zA-Z0-9]` other
   * than one final newline, is refused by the pattern stage and sends nothing.
   */
  lemma MalformedNamesRejected(p: Provider, name: string, params: seq<Json>, server: Post -> Reply)
    requires name == "" || exists i | 0 <= i < |name| :: !IsAlnumChar(name[i]) && !(i == |name| - 1 && name[i] == '\n')
    ensures p.Invoke(name, params, server) == Exchange([], Err(InvalidMethodName))
  {
    if name != "" {
      var i :| 0 <= i < |name| && !IsAlnumChar(name[i]) && !(i == |name| - 1 && name[i] == '\n');
      assert name[i] in name;
      if |name| > 1 && name[|name| - 1] == '\n' {
        assert i < |name| - 1;
        assert name[..|name| - 1][i] == name[i];
        assert name[i] in name[..|name| - 1];
      }
    }
  }

  /**
   * A well-formed name followed by one newline, such as any listed name with
   * a newline appended, passes the pattern stage, since PCRE's `$` matches
   * before it, and is refused by the allow-list instead.
   */
  lemma NearMissNamesUnallowed(p: Provider, m: string, params: seq<Json>, server: Post -> Reply)
    requires IsAlnum(m)
    ensures p.Invoke(m + "\n", params, server) == Exchange([], Err(UnallowedMethod(m + "\n")))
  {
    AllowedMethodsMatchPattern();
    var n := m + "\n";
    assert n[..|n| - 1] == m;
    assert n[|n| - 1] in n;
    assert !IsAlnum(n);
  }

  /** The allow-list is case-sensitive: a listed name with one letter lowered is refused. */
  lemma CaseSensitiveAllowList(p: Provider, params: seq<Json>, server: Post -> Reply)
    ensures p.Invoke("getbalance", params, server) == Exchange([], Err(UnallowedMethod("getbalance")))
  {
    assert "getbalance" !in AllowedPart1;
    assert "getbalance" !in AllowedPart2;
    assert "getbalance" !in AllowedPart3;
    assert "getbalance" !in AllowedPart4;
    assert "getbalance" !in AllowedPart5;
    assert "getbalance" !in AllowedPart6;
    assert "getbalance" !in AllowedPart7;
    assert "getbalance" !in AllowedPart8;
    assert "getbalance" !in AllowedPart9;
    assert "getbalance" !in AllowedPart10;
    assert "getbalance" !in AllowedPart11;
  }

  class Provider {
    var network: Network
    const randomKey: Key

    /**
     * `testnet` is the truthiness of the `testnet` option (false when it is
     * not set). It selects the devnet preset; otherwise the mainnet preset is
     * used, with its host replaced by a truthy `customRpc`. `key` stands for
     * the value of `random_int(0, 99999999)`.
     */
    constructor (testnet: bool, customRpc: Option<string>, key: Key)
      ensures var preset := if testnet then Devnet else Mainnet;
              network.node == preset.node && network.name == preset.name && network.explorer == preset.explorer
      ensures testnet ==> network == Devnet
      ensures !testnet && customRpc.Some? && Truthy(customRpc.value) ==> network == Mainnet.(host := customRpc.value)
      ensures !testnet && (customRpc.None? || !Truthy(customRpc.value)) ==> network == Mainnet
      ensures randomKey == key
    {
      network := Networks[if testnet then "devnet" else "mainnet"];
      randomKey := key;
      new;
      if !testnet && customRpc.Some? && Truthy(customRpc.value) {
        network := network.(host := customRpc.value);
      }
    }

    /** `getRandomKey`: the correlation id drawn at construction, the same on every call. */
    function GetRandomKey(): (k: int)
      ensures 0 <= k <= 99999999
      ensures k == randomKey as int
    {
      randomKey
    }

    /** The JSON-RPC 2.0 envelope for one call; its id is the key fixed at construction. */
    function BuildRpc(name: string, params: seq<Json>): (j: Json)
      ensures Decode(j) == Some(Request("2.0", GetRandomKey(), name, params))
    {
      DecodeEncode(Request("2.0", randomKey, name, params));
      Encode(Request("2.0", randomKey, name, params))
    }

    /** The checks every reply goes through: first the id, then the error member. */
    function ValidateResponse(reply: Reply, name: string): (r: Result<(), Failure>)
      ensures r.Ok? <==> reply.id == Some(randomKey as int) && reply.error.None?
      ensures reply.id != Some(randomKey as int) ==> r == Err(InvalidResponse)
      ensures reply.id == Some(randomKey as int) && reply.error.Some? && reply.error.value.code == -32601
              ==> r == Err(MethodNotFound(name))
      ensures reply.id == Some(randomKey as int) && reply.error.Some? && reply.error.value.code != -32601
              ==> r == Err(ApiError(reply.error.value.message))
    {
      if reply.id != Some(randomKey as int) then Err(InvalidResponse)
      else if reply.error.Some? then
        if reply.error.value.code == ErrorCodes["method-not-found"] then Err(MethodNotFound(name))
        else Err(ApiError(reply.error.value.message))
      else Ok(())
    }

    /** `call`: one POST of the envelope to the configured host, then the reply checks. */
    function Call(name: string, params: seq<Json>, server: Post -> Reply): (x: Exchange)
      reads this
      ensures x.sent == [Post(network.host, BuildRpc(name, params))]
      ensures var reply := server(x.sent[0]);
              (x.outcome.Ok? <==> reply.id == Some(randomKey as int) && reply.error.None?) &&
              (reply.id != Some(randomKey as int) ==> x.outcome == Err(InvalidResponse)) &&
              (x.outcome.Ok? ==> x.outcome.value == reply.result.GetOr(JNull)) &&
              (x.outcome.Err? ==> Err(x.outcome.error) == ValidateResponse(reply, name))
    {
      var post := Post(network.host, BuildRpc(name, params));
      var reply := server(post);
      match ValidateResponse(reply, name)
      case Err(e) => Exchange([post], Err(e))
      case Ok(_) => Exchange([post], Ok(reply.result.GetOr(JNull)))
    }

    /**
     * `__call`: the name must match the pattern, then be allow-listed; only
     * then is the request built and sent, with the parameters as given.
     */
    function Invoke(name: string, params: seq<Json>, server: Post -> Reply): (x: Exchange)
      reads this
      ensures !MatchesMethodPattern(name) ==> x == Exchange([], Err(InvalidMethodName))
      ensures MatchesMethodPattern(name) && name !in AllowedMethods ==> x == Exchange([], Err(UnallowedMethod(name)))
      ensures name in AllowedMethods ==> x == Call(name, params, server)
      ensures x.sent != [] <==> name in AllowedMethods
    {
      AllowedMethodsMatchPattern();
      if MatchesMethodPattern(name) then
        if name !in AllowedMethods then Exchange([], Err(UnallowedMethod(name)))
        else Call(name, params, server)
      else Exchange([], Err(InvalidMethodName))
    }
  }
}
