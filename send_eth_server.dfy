/** The send-ETH service: choosing the node endpoint from the configuration,
    and handling one request by fetching the nonce, choosing the fee, building
    the transaction, signing it and sending it. */
module SendEthServer {
  import opened Outcomes
  import opened Units
  import opened Transaction
  import opened Chain

  /** A request of the `send_eth` service. `sum` is in ether. */
  datatype SendEthRequest = SendEthRequest(
    sourceAddress: Address,
    targetAddress: Address,
    sum: Decimal,
    privateKey: PrivateKey)

  /** The parts of the configuration file the service reads. */
  datatype General = General(testnet: bool)
  datatype Parameters = Parameters(provider: string, providerTestnet: string)
  datatype Config = Config(general: General, parameters: Parameters)

  /** The node endpoint the server connects to: the test network's endpoint
      in test network mode, the main network's otherwise. */
  function SelectProvider(config: Config): (provider: string)
    ensures config.general.testnet ==> provider == config.parameters.providerTestnet
    ensures !config.general.testnet ==> provider == config.parameters.provider
  {
    if config.general.testnet then config.parameters.providerTestnet
    else config.parameters.provider
  }

  /** The endpoint of the mode not selected is never consulted. */
  lemma ProviderIgnoresOtherEndpoint(config: Config, other: string)
    ensures var p := config.parameters;
      && SelectProvider(config.(parameters := p.(provider := other)))
         == (if config.general.testnet then SelectProvider(config) else other)
      && SelectProvider(config.(parameters := p.(providerTestnet := other)))
         == (if config.general.testnet then other else SelectProvider(config))
  {
  }

  /** What one request does: the handler's result, the calls it makes on the
      client (in order, with their outcomes) and the strategy left installed. */
  datatype Run = Run(result: Result<bool>, steps: seq<Event>, strategy: GasPriceStrategy)

  /** The request handler as a function of the environment's answers, given
      the client's earlier trace `history` and its installed `strategy`. */
  function HandleSpec(req: SendEthRequest, testnet: bool, env: Environment,
                      history: seq<Event>, strategy: GasPriceStrategy): Run
  {
    var count := env.transactionCount(history, req.sourceAddress);
    var fetched := [NonceFetched(req.sourceAddress, count)];
    if count.Failure? then Run(Failure(count.error), fetched, strategy)
    else
      var value := ToWei(req.sum, Ether);
      if value.Failure? then Run(Failure(value.error), fetched, strategy)
      else
        var tx := BaseTx(count.value, req.targetAddress, value.value);
        if testnet then
          SignAndSend(req, env, history, fetched, strategy,
                      Update(tx, FeeFields(TestnetGas, TestnetGasPrice())))
        else
          var installed := fetched + [StrategySet(MediumTimeBased)];
          var price := env.gasPrice(history + installed, MediumTimeBased);
          var priced := installed + [GasPriceGenerated(price)];
          if price.Failure? then Run(Failure(price.error), priced, MediumTimeBased)
          else
            SignAndSend(req, env, history, priced, MediumTimeBased,
                        Update(tx, FeeFields(MainnetGas, price.value)))
  }

  /** The last two steps of the handler, after `done` has been called. */
  function SignAndSend(req: SendEthRequest, env: Environment, history: seq<Event>,
                       done: seq<Event>, strategy: GasPriceStrategy, tx: Tx): Run
  {
    var signed := env.sign(history + done, tx, req.privateKey);
    var afterSign := done + [TxSigned(tx, req.privateKey, signed)];
    if signed.Failure? then Run(Failure(signed.error), afterSign, strategy)
    else
      var raw := signed.value.rawTransaction;
      var txHash := env.send(history + afterSign, raw);
      var afterSend := afterSign + [RawTxSent(raw, txHash)];
      if txHash.Failure? then Run(Failure(txHash.error), afterSend, strategy)
      else Run(Success(true), afterSend, strategy)
  }

  /** `handle_send_eth(req, w3, config)`. A raised exception is returned as a
      Failure and, as in the service, nothing after it runs. */
  method HandleSendEth(req: SendEthRequest, w3: Client, config: Config) returns (r: Result<bool>)
    modifies w3
    ensures var run := HandleSpec(req, config.general.testnet, w3.env, old(w3.trace), old(w3.strategy));
      && r == run.result
      && w3.trace == old(w3.trace) + run.steps
      && w3.strategy == run.strategy
  {
    ghost var history, testnet := w3.trace, config.general.testnet;
    var nonce :- w3.GetTransactionCount(req.sourceAddress);
    ghost var fetched := [NonceFetched(req.sourceAddress, Success(nonce))];
    var value :- ToWei(req.sum, Ether);
    var tx := BaseTx(nonce, req.targetAddress, value);
    ghost var done := fetched;
    if config.general.testnet {
      tx := Update(tx, FeeFields(TestnetGas, TestnetGasPrice()));
    } else {
      w3.SetGasPriceStrategy(MediumTimeBased);
      ghost var installed := fetched + [StrategySet(MediumTimeBased)];
      assert w3.trace == history + installed;
      var gasPrice :- w3.GenerateGasPrice();
      done := installed + [GasPriceGenerated(Success(gasPrice))];
      tx := Update(tx, FeeFields(MainnetGas, gasPrice));
    }
    assert w3.trace == history + done;
    assert HandleSpec(req, testnet, w3.env, history, old(w3.strategy))
        == SignAndSend(req, w3.env, history, done, w3.strategy, tx);
    var signed :- w3.SignTransaction(tx, req.privateKey);
    assert w3.trace == history + (done + [TxSigned(tx, req.privateKey, Success(signed))]);
    var txHash :- w3.SendRawTransaction(signed.rawTransaction);
    return Success(true);
  }

  /** The calls a request makes when none of them fails. */
  function ExpectedCalls(testnet: bool): seq<CallKind> {
    if testnet then [NonceCall, SignCall, SendCall]
    else [NonceCall, StrategyCall, GasPriceCall, SignCall, SendCall]
  }

  /** The calls are made in the fixed order nonce, (strategy, gas price,) sign,
      send: what a request calls is always a prefix of that order, and all of
      it when the request succeeds. */
  lemma CallOrder(req: SendEthRequest, testnet: bool, env: Environment,
                  history: seq<Event>, strategy: GasPriceStrategy)
    ensures var run := HandleSpec(req, testnet, env, history, strategy);
      && 1 <= |run.steps|
      && Kinds(run.steps) <= ExpectedCalls(testnet)
      && (run.result.Success? ==> Kinds(run.steps) == ExpectedCalls(testnet))
  {
    var run := HandleSpec(req, testnet, env, history, strategy);
    var count := env.transactionCount(history, req.sourceAddress);
    var fetched := [NonceFetched(req.sourceAddress, count)];
    assert Kinds(fetched) == [NonceCall];
    if count.Failure? || ToWei(req.sum, Ether).Failure? {
      assert run.steps == fetched;
    } else {
      var tx := BaseTx(count.value, req.targetAddress, ToWei(req.sum, Ether).value);
      if testnet {
        var signing := Update(tx, FeeFields(TestnetGas, TestnetGasPrice()));
        assert run == SignAndSend(req, env, history, fetched, strategy, signing);
        SignAndSendKinds(req, env, history, fetched, strategy, signing);
      } else {
        var installed := fetched + [StrategySet(MediumTimeBased)];
        var price := env.gasPrice(history + installed, MediumTimeBased);
        var priced := installed + [GasPriceGenerated(price)];
        assert Kinds(priced) == [NonceCall, StrategyCall, GasPriceCall];
        if price.Success? {
          var signing := Update(tx, FeeFields(MainnetGas, price.value));
          assert run == SignAndSend(req, env, history, priced, MediumTimeBased, signing);
          SignAndSendKinds(req, env, history, priced, MediumTimeBased, signing);
        } else {
          assert run.steps == priced;
        }
      }
    }
  }

  /** The calls the last two steps add: a signing call, then a submission
      exactly when signing succeeded; success needs both. */
  lemma SignAndSendKinds(req: SendEthRequest, env: Environment, history: seq<Event>,
                         done: seq<Event>, strategy: GasPriceStrategy, tx: Tx)
    ensures var run := SignAndSend(req, env, history, done, strategy, tx);
      var signed := env.sign(history + done, tx, req.privateKey);
      && Kinds(run.steps) == Kinds(done) + (if signed.Success? then [SignCall, SendCall] else [SignCall])
      && (run.result.Success? ==> signed.Success?)
  {
    var run := SignAndSend(req, env, history, done, strategy, tx);
    var signed := env.sign(history + done, tx, req.privateKey);
    var signing := done + [TxSigned(tx, req.privateKey, signed)];
    SignAndSendSteps(req, env, history, done, strategy, tx);
    KindsAppend(done, [TxSigned(tx, req.privateKey, signed)]);
    if signed.Success? {
      var raw := signed.value.rawTransaction;
      KindsAppend(signing, [RawTxSent(raw, env.send(history + signing, raw))]);
    }
  }

  /** A request submits at most once and, when it succeeds, exactly once;
      the test network never asks for a gas price, the main network at most
      once. */
  lemma AtMostOneSubmission(req: SendEthRequest, testnet: bool, env: Environment,
                            history: seq<Event>, strategy: GasPriceStrategy)
    ensures var run := HandleSpec(req, testnet, env, history, strategy);
      && multiset(Kinds(run.steps))[SendCall] <= 1
      && (run.result.Success? ==> multiset(Kinds(run.steps))[SendCall] == 1)
      && (testnet ==> multiset(Kinds(run.steps))[GasPriceCall] == 0)
      && (!testnet ==> multiset(Kinds(run.steps))[GasPriceCall] <= 1)
  {
    var run := HandleSpec(req, testnet, env, history, strategy);
    var k, e := Kinds(run.steps), ExpectedCalls(testnet);
    CallOrder(req, testnet, env, history, strategy);
    PrefixCount(k, e, SendCall);
    PrefixCount(k, e, GasPriceCall);
    assert multiset(e)[SendCall] == 1;
    assert testnet ==> multiset(e)[GasPriceCall] == 0;
    assert !testnet ==> multiset(e)[GasPriceCall] == 1;
  }

  /** A prefix holds each element at most as often as the whole sequence. */
  lemma PrefixCount(k: seq<CallKind>, e: seq<CallKind>, x: CallKind)
    requires k <= e
    ensures multiset(k)[x] <= multiset(e)[x]
  {
    assert e == k + e[|k|..];
    assert multiset(e) == multiset(k) + multiset(e[|k|..]);
  }

  /** The steps the last two calls add: signing `tx` with the request's key,
      then, only when that succeeded, submitting the signed raw bytes. */
  lemma SignAndSendSteps(req: SendEthRequest, env: Environment, history: seq<Event>,
                         done: seq<Event>, strategy: GasPriceStrategy, tx: Tx)
    ensures var run := SignAndSend(req, env, history, done, strategy, tx);
      var signed := env.sign(history + done, tx, req.privateKey);
      var signing := done + [TxSigned(tx, req.privateKey, signed)];
      && run.strategy == strategy
      && (signed.Failure? ==> run.steps == signing && run.result.Failure?)
      && (signed.Success? ==>
            var raw := signed.value.rawTransaction;
            var txHash := env.send(history + signing, raw);
            && run.steps == signing + [RawTxSent(raw, txHash)]
            && (run.result.Success? <==> txHash.Success?)
            && (run.result.Success? ==> run.result.value))
  {
  }

  /** The payload submitted is the raw bytes the signing call just returned,
      and a successful signing is always followed by a submission. */
  lemma SubmitsSignedPayload(req: SendEthRequest, testnet: bool, env: Environment,
                             history: seq<Event>, strategy: GasPriceStrategy)
    ensures var steps := HandleSpec(req, testnet, env, history, strategy).steps;
      && (forall i :: 0 <= i < |steps| && steps[i].RawTxSent? ==>
            0 < i && steps[i - 1].TxSigned? && steps[i - 1].signed.Success?
            && steps[i].raw == steps[i - 1].signed.value.rawTransaction)
      && (forall i :: 0 <= i < |steps| && steps[i].TxSigned? && steps[i].signed.Success? ==>
            i + 1 < |steps| && steps[i + 1].RawTxSent?)
  {
    var count := env.transactionCount(history, req.sourceAddress);
    var fetched := [NonceFetched(req.sourceAddress, count)];
    if count.Success? && ToWei(req.sum, Ether).Success? {
      var tx := BaseTx(count.value, req.targetAddress, ToWei(req.sum, Ether).value);
      if testnet {
        SignAndSendPayload(req, env, history, fetched, strategy,
                           Update(tx, FeeFields(TestnetGas, TestnetGasPrice())));
      } else {
        var installed := fetched + [StrategySet(MediumTimeBased)];
        var price := env.gasPrice(history + installed, MediumTimeBased);
        var priced := installed + [GasPriceGenerated(price)];
        if price.Success? {
          SignAndSendPayload(req, env, history, priced, MediumTimeBased,
                             Update(tx, FeeFields(MainnetGas, price.value)));
        }
      }
    }
  }

  /** When `done` neither signs nor sends, the last two steps submit exactly
      the bytes their own signing produced. */
  lemma SignAndSendPayload(req: SendEthRequest, env: Environment, history: seq<Event>,
                           done: seq<Event>, strategy: GasPriceStrategy, tx: Tx)
    requires forall i :: 0 <= i < |done| ==> !done[i].TxSigned? && !done[i].RawTxSent?
    ensures var steps := SignAndSend(req, env, history, done, strategy, tx).steps;
      && (forall i :: 0 <= i < |steps| && steps[i].RawTxSent? ==>
            0 < i && steps[i - 1].TxSigned? && steps[i - 1].signed.Success?
            && steps[i].raw == steps[i - 1].signed.value.rawTransaction)
      && (forall i :: 0 <= i < |steps| && steps[i].TxSigned? && steps[i].signed.Success? ==>
            i + 1 < |steps| && steps[i + 1].RawTxSent?)
  {
    var steps := SignAndSend(req, env, history, done, strategy, tx).steps;
    SignAndSendSteps(req, env, history, done, strategy, tx);
    assert forall i :: 0 <= i < |done| ==> steps[i] == done[i];
  }

  /** A call that raises is the last call of the request and the request
      fails; the request returns True exactly when the amount converts and no
      call raises. */
  lemma FailureStopsLaterCalls(req: SendEthRequest, testnet: bool, env: Environment,
                               history: seq<Event>, strategy: GasPriceStrategy)
    ensures var run := HandleSpec(req, testnet, env, history, strategy);
      && (forall i :: 0 <= i < |run.steps| && Raised(run.steps[i]) ==>
            i == |run.steps| - 1 && run.result.Failure?)
      && (run.result == Success(true) <==>
            WholeWei(req.sum, Ether) && forall i :: 0 <= i < |run.steps| ==> !Raised(run.steps[i]))
      && (!WholeWei(req.sum, Ether) ==>
            && run.steps == [NonceFetched(req.sourceAddress, env.transactionCount(history, req.sourceAddress))]
            && run.result.Failure?
            && run.strategy == strategy)
  {
    var run := HandleSpec(req, testnet, env, history, strategy);
    var count := env.transactionCount(history, req.sourceAddress);
    var fetched := [NonceFetched(req.sourceAddress, count)];
    if count.Failure? {
      assert Raised(run.steps[0]);
    } else if ToWei(req.sum, Ether).Success? {
      var tx := BaseTx(count.value, req.targetAddress, ToWei(req.sum, Ether).value);
      if testnet {
        SignAndSendFailures(req, env, history, fetched, strategy,
                            Update(tx, FeeFields(TestnetGas, TestnetGasPrice())));
      } else {
        var installed := fetched + [StrategySet(MediumTimeBased)];
        var price := env.gasPrice(history + installed, MediumTimeBased);
        var priced := installed + [GasPriceGenerated(price)];
        if price.Success? {
          SignAndSendFailures(req, env, history, priced, MediumTimeBased,
                              Update(tx, FeeFields(MainnetGas, price.value)));
        } else {
          assert Raised(run.steps[2]);
        }
      }
    }
  }

  /** When nothing in `done` raised, the last two steps keep the property:
      only the final call may raise, and success means none did. */
  lemma SignAndSendFailures(req: SendEthRequest, env: Environment, history: seq<Event>,
                            done: seq<Event>, strategy: GasPriceStrategy, tx: Tx)
    requires forall i :: 0 <= i < |done| ==> !Raised(done[i])
    ensures var run := SignAndSend(req, env, history, done, strategy, tx);
      && (forall i :: 0 <= i < |run.steps| && Raised(run.steps[i]) ==>
            i == |run.steps| - 1 && run.result.Failure?)
      && (run.result == Success(true) <==>
            forall i :: 0 <= i < |run.steps| ==> !Raised(run.steps[i]))
  {
    var run := SignAndSend(req, env, history, done, strategy, tx);
    SignAndSendSteps(req, env, history, done, strategy, tx);
    assert forall i :: 0 <= i < |done| ==> run.steps[i] == done[i];
    var n := |done|;
    assert !Raised(run.steps[n]) <==> env.sign(history + done, tx, req.privateKey).Success?;
    if |run.steps| == n + 2 {
      assert run.result.Success? <==> !Raised(run.steps[n + 1]);
    }
  }

  /** The transaction handed to signing has exactly the fields nonce, to,
      value, gas and gasPrice; its nonce is what the first call of this very
      request, `getTransactionCount(source)`, returned; `to` is the target
      and `value` is the sum in wei; it is signed with the request's key. */
  lemma SignedTransactionFields(req: SendEthRequest, testnet: bool, env: Environment,
                                history: seq<Event>, strategy: GasPriceStrategy)
    ensures var steps := HandleSpec(req, testnet, env, history, strategy).steps;
      && 1 <= |steps|
      && steps[0] == NonceFetched(req.sourceAddress, env.transactionCount(history, req.sourceAddress))
      && forall i :: 0 <= i < |steps| && steps[i].TxSigned? ==>
           && steps[i].tx.Keys == TxKeys()
           && steps[0].count.Success?
           && steps[i].tx[NonceKey] == Number(steps[0].count.value)
           && steps[i].tx[ToKey] == Text(req.targetAddress)
           && ToWei(req.sum, Ether).Success?
           && steps[i].tx[ValueKey] == Number(ToWei(req.sum, Ether).value)
           && steps[i].privateKey == req.privateKey
  {
    var run := HandleSpec(req, testnet, env, history, strategy);
    var count := env.transactionCount(history, req.sourceAddress);
    var fetched := [NonceFetched(req.sourceAddress, count)];
    if count.Success? && ToWei(req.sum, Ether).Success? {
      var value := ToWei(req.sum, Ether).value;
      var base := BaseTx(count.value, req.targetAddress, value);
      if testnet {
        var tx := Update(base, FeeFields(TestnetGas, TestnetGasPrice()));
        assert run == SignAndSend(req, env, history, fetched, strategy, tx);
        FeeUpdateKeepsBase(count.value, req.targetAddress, value, TestnetGas, TestnetGasPrice());
        SignAndSendTx(req, env, history, fetched, strategy, tx);
      } else {
        var installed := fetched + [StrategySet(MediumTimeBased)];
        var price := env.gasPrice(history + installed, MediumTimeBased);
        var priced := installed + [GasPriceGenerated(price)];
        if price.Success? {
          var tx := Update(base, FeeFields(MainnetGas, price.value));
          assert run == SignAndSend(req, env, history, priced, MediumTimeBased, tx);
          FeeUpdateKeepsBase(count.value, req.targetAddress, value, MainnetGas, price.value);
          SignAndSendTx(req, env, history, priced, MediumTimeBased, tx);
        } else {
          assert run.steps == priced;
        }
      }
    } else {
      assert run.steps == fetched;
    }
  }

  /** The last two steps leave the calls already made in place, add one
      signing call, which signs `tx` itself with the request's key, and at most
      one submission after it. */
  lemma SignAndSendTx(req: SendEthRequest, env: Environment, history: seq<Event>,
                      done: seq<Event>, strategy: GasPriceStrategy, tx: Tx)
    requires forall i :: 0 <= i < |done| ==> !done[i].TxSigned?
    ensures var steps := SignAndSend(req, env, history, done, strategy, tx).steps;
      && |done| < |steps| <= |done| + 2
      && (forall i :: 0 <= i < |done| ==> steps[i] == done[i])
      && (forall i :: |done| <= i < |steps| ==>
            (steps[i].TxSigned? <==> i == |done|) && (steps[i].TxSigned? || steps[i].RawTxSent?))
      && forall i :: 0 <= i < |steps| && steps[i].TxSigned? ==>
           steps[i].tx == tx && steps[i].privateKey == req.privateKey
  {
    SignAndSendSteps(req, env, history, done, strategy, tx);
  }

  /** In test network mode the fee is fixed: gas 200000 and gas price 50 gwei
      whatever the request and the nonce, with no strategy installed and no
      estimate asked for. */
  lemma TestnetFees(req: SendEthRequest, env: Environment,
                    history: seq<Event>, strategy: GasPriceStrategy)
    ensures var run := HandleSpec(req, true, env, history, strategy);
      && run.strategy == strategy
      && forall i :: 0 <= i < |run.steps| ==>
           && !run.steps[i].StrategySet?
           && !run.steps[i].GasPriceGenerated?
           && (run.steps[i].TxSigned? ==>
                 && GasKey in run.steps[i].tx && run.steps[i].tx[GasKey] == Number(200000)
                 && GasPriceKey in run.steps[i].tx
                 && run.steps[i].tx[GasPriceKey] == Number(50 * 1000000000))
  {
    var run := HandleSpec(req, true, env, history, strategy);
    var count := env.transactionCount(history, req.sourceAddress);
    var fetched := [NonceFetched(req.sourceAddress, count)];
    if count.Success? && ToWei(req.sum, Ether).Success? {
      var value := ToWei(req.sum, Ether).value;
      var tx := Update(BaseTx(count.value, req.targetAddress, value),
                       FeeFields(TestnetGas, TestnetGasPrice()));
      assert run == SignAndSend(req, env, history, fetched, strategy, tx);
      FeeUpdateKeepsBase(count.value, req.targetAddress, value, TestnetGas, TestnetGasPrice());
      SignAndSendTx(req, env, history, fetched, strategy, tx);
    } else {
      assert run.steps == fetched;
    }
  }

  /** On the main network the gas limit is 21000 and the gas price is the
      value returned by the gas-price call made, under the medium time-based
      strategy, just before signing. */
  lemma MainnetFees(req: SendEthRequest, env: Environment,
                    history: seq<Event>, strategy: GasPriceStrategy)
    ensures var run := HandleSpec(req, false, env, history, strategy);
      && (1 < |run.steps| ==> run.strategy == MediumTimeBased)
      && forall i :: 0 <= i < |run.steps| && run.steps[i].TxSigned? ==>
           && i == 3
           && run.steps[1] == StrategySet(MediumTimeBased)
           && GasKey in run.steps[i].tx && run.steps[i].tx[GasKey] == Number(21000)
           && GasPriceKey in run.steps[i].tx && run.steps[i].tx[GasPriceKey].Number?
           && run.steps[2] == GasPriceGenerated(Success(run.steps[i].tx[GasPriceKey].n))
  {
    var run := HandleSpec(req, false, env, history, strategy);
    var count := env.transactionCount(history, req.sourceAddress);
    var fetched := [NonceFetched(req.sourceAddress, count)];
    if count.Success? && ToWei(req.sum, Ether).Success? {
      var value := ToWei(req.sum, Ether).value;
      var installed := fetched + [StrategySet(MediumTimeBased)];
      var price := env.gasPrice(history + installed, MediumTimeBased);
      var priced := installed + [GasPriceGenerated(price)];
      if price.Success? {
        var tx := Update(BaseTx(count.value, req.targetAddress, value),
                         FeeFields(MainnetGas, price.value));
        assert run == SignAndSend(req, env, history, priced, MediumTimeBased, tx);
        FeeUpdateKeepsBase(count.value, req.targetAddress, value, MainnetGas, price.value);
        SignAndSendTx(req, env, history, priced, MediumTimeBased, tx);
      } else {
        assert run.steps == priced;
      }
    } else {
      assert run.steps == fetched;
    }
  }
}
