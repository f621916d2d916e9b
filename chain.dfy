/** The web3 chain client as the handler sees it: four hooks whose answers the
    environment chooses, plus the gas-price-strategy setting. Every call is
    recorded, with its outcome, in the client's trace. */
module Chain {
  import opened Outcomes
  import opened Transaction

  type Bytes = seq<bv8>

  /** What `signTransaction` returns: the raw signed payload and its hash. */
  datatype SignedTransaction = SignedTransaction(rawTransaction: Bytes, hash: Bytes)

  /** The gas-price strategy installed on `w3.eth`; the handler installs the
      time-based medium one before it asks for a gas price. */
  datatype GasPriceStrategy = NoStrategy | MediumTimeBased

  /** One call made on the client, with what it returned or raised. */
  datatype Event =
    | NonceFetched(address: Address, count: Result<nat>)
    | StrategySet(strategy: GasPriceStrategy)
    | GasPriceGenerated(gasPrice: Result<nat>)
    | TxSigned(tx: Tx, privateKey: PrivateKey, signed: Result<SignedTransaction>)
    | RawTxSent(raw: Bytes, txHash: Result<Bytes>)

  datatype CallKind = NonceCall | StrategyCall | GasPriceCall | SignCall | SendCall

  function KindOf(e: Event): CallKind {
    match e
    case NonceFetched(_, _) => NonceCall
    case StrategySet(_) => StrategyCall
    case GasPriceGenerated(_) => GasPriceCall
    case TxSigned(_, _, _) => SignCall
    case RawTxSent(_, _) => SendCall
  }

  /** The kinds of the calls in a trace, in order. */
  function Kinds(trace: seq<Event>): (kinds: seq<CallKind>)
    ensures |kinds| == |trace|
    ensures forall i :: 0 <= i < |trace| ==> kinds[i] == KindOf(trace[i])
  {
    if trace == [] then [] else [KindOf(trace[0])] + Kinds(trace[1..])
  }

  lemma KindsAppend(a: seq<Event>, b: seq<Event>)
    ensures Kinds(a + b) == Kinds(a) + Kinds(b)
  {
  }

  /** True when the call raised. */
  predicate Raised(e: Event) {
    match e
    case NonceFetched(_, count) => count.Failure?
    case StrategySet(_) => false
    case GasPriceGenerated(gasPrice) => gasPrice.Failure?
    case TxSigned(_, _, signed) => signed.Failure?
    case RawTxSent(_, txHash) => txHash.Failure?
  }

  /** The node, the fee estimator and the signer, as the environment answers
      them. Each answer may depend on everything the client was asked before
      (the history) and on the call's arguments, and each may be a failure. */
  datatype Environment = Environment(
    transactionCount: (seq<Event>, Address) -> Result<nat>,
    gasPrice: (seq<Event>, GasPriceStrategy) -> Result<nat>,
    sign: (seq<Event>, Tx, PrivateKey) -> Result<SignedTransaction>,
    send: (seq<Event>, Bytes) -> Result<Bytes>)

  /** The `w3` object: its answers come from `env`; `trace` records every call
      made on it and `strategy` is the installed gas-price strategy. */
  class Client {
    const env: Environment
    var strategy: GasPriceStrategy
    var trace: seq<Event>

    constructor (env: Environment)
      ensures this.env == env && strategy == NoStrategy && trace == []
    {
      this.env := env;
      strategy := NoStrategy;
      trace := [];
    }

    /** `w3.eth.getTransactionCount(address)`. */
    method GetTransactionCount(address: Address) returns (r: Result<nat>)
      modifies this
      ensures r == env.transactionCount(old(trace), address)
      ensures trace == old(trace) + [NonceFetched(address, r)]
      ensures strategy == old(strategy)
    {
      r := env.transactionCount(trace, address);
      trace := trace + [NonceFetched(address, r)];
    }

    /** `w3.eth.setGasPriceStrategy(s)`: local, it cannot fail. */
    method SetGasPriceStrategy(s: GasPriceStrategy)
      modifies this
      ensures strategy == s
      ensures trace == old(trace) + [StrategySet(s)]
    {
      strategy := s;
      trace := trace + [StrategySet(s)];
    }

    /** `w3.eth.generateGasPrice()`, under the installed strategy. */
    method GenerateGasPrice() returns (r: Result<nat>)
      modifies this
      ensures r == env.gasPrice(old(trace), strategy)
      ensures trace == old(trace) + [GasPriceGenerated(r)]
      ensures strategy == old(strategy)
    {
      r := env.gasPrice(trace, strategy);
      trace := trace + [GasPriceGenerated(r)];
    }

    /** `w3.eth.account.signTransaction(tx, key)`. */
    method SignTransaction(tx: Tx, key: PrivateKey) returns (r: Result<SignedTransaction>)
      modifies this
      ensures r == env.sign(old(trace), tx, key)
      ensures trace == old(trace) + [TxSigned(tx, key, r)]
      ensures strategy == old(strategy)
    {
      r := env.sign(trace, tx, key);
      trace := trace + [TxSigned(tx, key, r)];
    }

    /** `w3.eth.sendRawTransaction(raw)`; returns the transaction hash. */
    method SendRawTransaction(raw: Bytes) returns (r: Result<Bytes>)
      modifies this
      ensures r == env.send(old(trace), raw)
      ensures trace == old(trace) + [RawTxSent(raw, r)]
      ensures strategy == old(strategy)
    {
      r := env.send(trace, raw);
      trace := trace + [RawTxSent(raw, r)];
    }
  }
}
