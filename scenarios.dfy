/** Worked requests against a scripted chain client, as a caller of the
    handler sees them: what is signed, what is submitted and what is returned. */
module Scenarios {
  import opened Outcomes
  import opened Units
  import opened Transaction
  import opened Chain
  import opened SendEthServer

  /** A client whose node reports `count` for every address, signs every
      transaction into `raw`, and answers a submission with `sendResult`. */
  function ScriptedEnvironment(count: nat, raw: Bytes, sendResult: Result<Bytes>): Environment {
    Environment(
      (h: seq<Event>, a: Address) => Success(count),
      (h: seq<Event>, s: GasPriceStrategy) => Failure(ChainError("no gas price")),
      (h: seq<Event>, tx: Tx, key: PrivateKey) => Success(SignedTransaction(raw, [0xAB])),
      (h: seq<Event>, b: Bytes) => sendResult)
  }

  function TestnetConfig(): Config {
    Config(General(true), Parameters("wss://mainnet", "wss://testnet"))
  }

  /** Sending 1.0 ether from 0xA to 0xB on the test network when the node
      reports nonce 5: the signed transaction is {nonce: 5, to: 0xB,
      value: 10^18, gas: 200000, gasPrice: 50 gwei}, the signed bytes are what
      is submitted, and the handler returns True. */
  method TestnetTransfer() returns (r: Result<bool>, signedTx: Tx, submitted: Bytes)
    ensures r == Success(true)
    ensures signedTx == map[NonceKey := Number(5), ToKey := Text("0xB"),
                            ValueKey := Number(1000000000000000000),
                            GasKey := Number(200000), GasPriceKey := Number(50000000000)]
    ensures submitted == [1, 2, 3]
  {
    var w3 := new Client(ScriptedEnvironment(5, [1, 2, 3], Success([0xAB])));
    var req := SendEthRequest("0xA", "0xB", Decimal(10, 1), "k");
    ScaledByPowerOfTen(req.sum, Ether);
    WeiPerUnit();
    assert Pow10(18) == 10 * Pow10(17);
    r := HandleSendEth(req, w3, TestnetConfig());
    assert |w3.trace| == 3;
    signedTx := if w3.trace[1].TxSigned? then w3.trace[1].tx else map[];
    submitted := if w3.trace[2].RawTxSent? then w3.trace[2].raw else [];
  }

  /** The same transfer when the node refuses the submission: the handler
      fails after the calls nonce, sign and send, making exactly one
      submission and no retry. */
  method TestnetSubmissionRefused() returns (r: Result<bool>, calls: seq<CallKind>)
    ensures r.Failure?
    ensures calls == [NonceCall, SignCall, SendCall]
  {
    var env := ScriptedEnvironment(5, [1, 2, 3], Failure(ChainError("node error")));
    var w3 := new Client(env);
    var req := SendEthRequest("0xA", "0xB", Decimal(10, 1), "k");
    r := HandleSendEth(req, w3, TestnetConfig());
    var tx := Update(BaseTx(5, "0xB", ToWei(req.sum, Ether).value), FeeFields(TestnetGas, TestnetGasPrice()));
    assert HandleSpec(req, true, env, [], NoStrategy)
        == SignAndSend(req, env, [], [NonceFetched("0xA", Success(5))], NoStrategy, tx);
    SignAndSendKinds(req, env, [], [NonceFetched("0xA", Success(5))], NoStrategy, tx);
    assert Kinds([NonceFetched("0xA", Success(5))]) == [NonceCall];
    calls := Kinds(w3.trace);
  }

  /** A node that reports nonce 7 to a fresh client and 9 once anything has
      been asked of it (another wallet with the same key has submitted in the
      meantime); it signs every transaction into [4] and accepts every
      submission. */
  function MovingNonceEnvironment(): Environment {
    Environment(
      (h: seq<Event>, a: Address) => Success(if h == [] then 7 else 9),
      (h: seq<Event>, s: GasPriceStrategy) => Failure(ChainError("no gas price")),
      (h: seq<Event>, tx: Tx, key: PrivateKey) => Success(SignedTransaction([4], [0xAB])),
      (h: seq<Event>, b: Bytes) => Success([0xAB]))
  }

  /** Two requests on one client whose node reports nonce 7 and then 9: the
      transactions carry 7 and 9. The handler asks the node on every request;
      it neither reuses the first nonce (7, 7) nor counts up itself (7, 8). */
  method NonceFetchedPerRequest() returns (first: TxValue, second: TxValue)
    ensures first == Number(7) && second == Number(9)
  {
    var env := MovingNonceEnvironment();
    var w3 := new Client(env);
    var req := SendEthRequest("0xA", "0xB", Decimal(2, 0), "k");
    var value := ToWei(req.sum, Ether).value;
    var tx1 := Update(BaseTx(7, "0xB", value), FeeFields(TestnetGas, TestnetGasPrice()));
    var fetched1 := [NonceFetched("0xA", Success(7))];
    var r1 := HandleSendEth(req, w3, TestnetConfig());
    assert HandleSpec(req, true, env, [], NoStrategy)
        == SignAndSend(req, env, [], fetched1, NoStrategy, tx1);
    SignAndSendTx(req, env, [], fetched1, NoStrategy, tx1);
    ghost var history := w3.trace;
    assert history != [];
    var tx2 := Update(BaseTx(9, "0xB", value), FeeFields(TestnetGas, TestnetGasPrice()));
    var fetched2 := [NonceFetched("0xA", Success(9))];
    var r2 := HandleSendEth(req, w3, TestnetConfig());
    assert HandleSpec(req, true, env, history, NoStrategy)
        == SignAndSend(req, env, history, fetched2, NoStrategy, tx2);
    SignAndSendTx(req, env, history, fetched2, NoStrategy, tx2);
    FeeUpdateKeepsBase(7, "0xB", value, TestnetGas, TestnetGasPrice());
    FeeUpdateKeepsBase(9, "0xB", value, TestnetGas, TestnetGasPrice());
    first := if w3.trace[1].TxSigned? && NonceKey in w3.trace[1].tx then w3.trace[1].tx[NonceKey] else Text("");
    second := if w3.trace[4].TxSigned? && NonceKey in w3.trace[4].tx then w3.trace[4].tx[NonceKey] else Text("");
  }
}
