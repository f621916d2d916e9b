/** The unsigned transaction as the handler builds it: a dictionary from field
    names to values, first holding `nonce`, `to` and `value`, then extended in
    place with the two fee fields `gas` and `gasPrice`. */
module Transaction {
  import opened Outcomes
  import opened Units

  type Address = string
  type PrivateKey = string

  /** A dictionary value: an integer quantity or an address. */
  datatype TxValue = Number(n: nat) | Text(s: string)

  /** The dictionary keys the handler uses. */
  datatype Key = NonceKey | ToKey | ValueKey | GasKey | GasPriceKey {
    /** The key as it is spelled in the dictionary. */
    function Name(): string {
      match this
      case NonceKey => "nonce"
      case ToKey => "to"
      case ValueKey => "value"
      case GasKey => "gas"
      case GasPriceKey => "gasPrice"
    }
  }

  /** Distinct keys are spelled differently, so a map indexed by `Key` has
      the same entries as the dictionary indexed by the spelled names. */
  lemma KeyNamesDistinct(k1: Key, k2: Key)
    ensures k1.Name() == k2.Name() <==> k1 == k2
  {
  }

  type Tx = map<Key, TxValue>

  /** The five fields a transaction handed to signing carries. */
  function TxKeys(): set<Key> {
    {NonceKey, ToKey, ValueKey, GasKey, GasPriceKey}
  }

  /** Gas limit of the fixed test-network policy. */
  const TestnetGas: nat := 200000
  /** Gas limit on the main network: the cost of a plain value transfer. */
  const MainnetGas: nat := 21000

  /** The fixed test-network gas price, `toWei('50', 'gwei')`. */
  function TestnetGasPrice(): (price: nat)
    ensures price == 50 * 1000000000
  {
    var fifty := Decimal(50, 0);
    ToWeiExact(fifty, Gwei);
    assert Pow10(0) == 1;
    ToWei(fifty, Gwei).value
  }

  /** Python's `d.update(e)`: every key of `e` takes its value from `e`, every
      other key of `d` keeps its value, and no other key appears. */
  function Update(d: Tx, e: Tx): (r: Tx)
    ensures r.Keys == d.Keys + e.Keys
    ensures forall k :: k in e ==> r[k] == e[k]
    ensures forall k :: k in d && k !in e ==> r[k] == d[k]
  {
    d + e
  }

  /** The dictionary literal `{'nonce': ..., 'to': ..., 'value': ...}`. */
  function BaseTx(nonce: nat, to: Address, value: nat): Tx {
    map[NonceKey := Number(nonce), ToKey := Text(to), ValueKey := Number(value)]
  }

  /** The dictionary literal `{'gas': ..., 'gasPrice': ...}` that is merged in. */
  function FeeFields(gas: nat, gasPrice: nat): Tx {
    map[GasKey := Number(gas), GasPriceKey := Number(gasPrice)]
  }

  /** Merging the fee fields into the base dictionary yields exactly the five
      transaction fields, leaves `nonce`, `to` and `value` as they were, and
      sets `gas` and `gasPrice` to the fee values. */
  lemma FeeUpdateKeepsBase(nonce: nat, to: Address, value: nat, gas: nat, gasPrice: nat)
    ensures var tx := Update(BaseTx(nonce, to, value), FeeFields(gas, gasPrice));
      && tx.Keys == TxKeys()
      && tx[NonceKey] == Number(nonce)
      && tx[ToKey] == Text(to)
      && tx[ValueKey] == Number(value)
      && tx[GasKey] == Number(gas)
      && tx[GasPriceKey] == Number(gasPrice)
  {
  }
}
