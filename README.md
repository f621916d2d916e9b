# send_eth ROS service — a Dafny model of its request handler

The `send_eth` service receives a request to move `sum` ether from
`source_address` to `target_address`. It signs the transfer with the caller's
`private_key` and broadcasts it through a web3 client connected to an Ethereum
node. This project models the handler `handle_send_eth` and the server's
choice of node endpoint, and proves what they promise.

A request is handled in a fixed order:
1. Fetch the nonce of the source address from the node.
2. Convert the sum from ether to wei.
3. Build the transaction dictionary `{nonce, to, value}`.
4. Merge in the fee fields `{gas, gasPrice}`. The test network uses a fixed
   200000 gas at 50 gwei. The main network uses 21000 gas at the price that the
   medium time-based strategy estimates.
5. Sign the transaction, submit the raw bytes once, and return `True`.

Modules:

- `Outcomes` (outcomes.dfy): `Result` and `Error`. A Python exception becomes
  a `Failure`, and `:-` propagates it, so nothing after it runs.
- `Units` (units.dfy): an amount is an exact `Decimal` (a mantissa and a number
  of fractional digits). `ToWei` converts it to wei exactly.
- `Transaction` (transaction.dfy): the transaction is a dictionary,
  `map<Key, TxValue>`. Its five keys form a datatype, and `Key.Name` gives each
  key's spelling (`nonce`, `to`, `value`, `gas`, `gasPrice`). `Update` is
  Python's `dict.update`. This module also holds the fee constants.
- `Chain` (chain.dfy): the `w3` object as a class, `Client`. Its hooks are
  `GetTransactionCount`, `SetGasPriceStrategy`, `GenerateGasPrice`,
  `SignTransaction` and `SendRawTransaction`. An `Environment` of oracle
  functions supplies each hook's answer. An answer may depend on the call's
  arguments and on every earlier call, and any answer may be a failure. Each
  call appends one `Event`, the call together with its outcome, to the
  client's `trace`.
- `SendEthServer` (send_eth_server.dfy): the configuration record and
  `SelectProvider`. `HandleSpec` is the handler written as a function. It
  returns the result, the calls made and the strategy left installed.
  `HandleSendEth` is the imperative handler. It updates the client in place
  and is proved equal to `HandleSpec`. The lemmas about `HandleSpec` state the
  properties.
- `Scenarios` (scenarios.dfy): verified methods that call the handler on a
  scripted client.

Two facts about the handler shape the model:

- The handler catches no exception. An exception propagates out of the
  service call, so the handler never returns `False`. The model returns a
  `Failure` on the first failing call and `Success(true)` otherwise.
- `toWei` is evaluated after the nonce fetch (line 50 runs after line 46). So a
  refused amount fails the request after exactly one call, the nonce fetch.

## Model

| member | source | states |
|---|---|---|
| `Units.ToWei` | src/send_eth_server.py:50 | The conversion succeeds exactly when the sum is a whole number of wei. Otherwise it fails with a ValueError. |
| `Units.ToWeiExact` | src/send_eth_server.py:50 | A successful conversion is exact: wei · 10^places = mantissa · 10^18 for ether (10^9 for gwei). |
| `Units.RefusedMeansNotRepresentable` | src/send_eth_server.py:50 | A refused amount has no exact wei value at all. The conversion fails only where rounding would be needed. |
| `Units.ScaledByPowerOfTen` | src/send_eth_server.py:50 | Every whole-wei amount converts to mantissa · 10^18 / 10^places wei, i.e. sum · 10^18 for ether (10^9 for gwei). |
| `Units.WeiRoundTrip` | src/send_eth_server.py:50 | A whole number of wei, written as a decimal of the unit, converts back to itself. |
| `Transaction.TestnetGasPrice` | src/send_eth_server.py:55 | `toWei('50', 'gwei')` is 50 · 10^9 wei. |
| `Transaction.KeyNamesDistinct` | src/send_eth_server.py:47-63 | Two keys have the same spelling (`nonce`, `to`, `value`, `gas`, `gasPrice`) exactly when they are the same key. So the `Key`-indexed map holds the same entries as the string-keyed dictionary. |
| `Transaction.Update` | src/send_eth_server.py:53-56 | `dict.update`: the keys are the union of both dictionaries' keys. Merged keys take the new values. Every other key keeps its old value. |
| `Transaction.FeeUpdateKeepsBase` | src/send_eth_server.py:47-64 | After merging the fee fields, the dictionary has exactly the keys nonce, to, value, gas and gasPrice. nonce, to and value are unchanged, and gas and gasPrice hold the fee. |
| `Chain.Client.constructor` | src/send_eth_server.py:88 | A fresh client has no strategy installed and an empty trace. |
| `Chain.Client.GetTransactionCount` | src/send_eth_server.py:46 | Returns the node's answer for this address at this point of the history, and records the call. |
| `Chain.Client.SetGasPriceStrategy` | src/send_eth_server.py:58 | Installs the strategy and records the call. |
| `Chain.Client.GenerateGasPrice` | src/send_eth_server.py:59 | Returns the estimate under the installed strategy, and records the call. |
| `Chain.Client.SignTransaction` | src/send_eth_server.py:65 | Returns the signer's answer for this dictionary and key, and records both in the trace. |
| `Chain.Client.SendRawTransaction` | src/send_eth_server.py:66 | Returns the node's answer for these bytes, and records the call. |
| `SendEthServer.SelectProvider` | src/send_eth_server.py:79-84 | `provider_testnet` is chosen when `general.testnet` is set, and `provider` otherwise. |
| `SendEthServer.ProviderIgnoresOtherEndpoint` | src/send_eth_server.py:79-84 | The endpoint of the mode that is not selected has no influence on the choice. |
| `SendEthServer.HandleSendEth` | src/send_eth_server.py:33-68 | The handler's result, the calls it adds to the client's trace and the strategy it leaves installed are exactly those that `HandleSpec` gives for the client's earlier trace. |
| `SendEthServer.CallOrder` | src/send_eth_server.py:46-66 | The calls a request makes are always a prefix of nonce → (strategy → gas price, main network only) → sign → send. A successful request makes all of them. |
| `SendEthServer.AtMostOneSubmission` | src/send_eth_server.py:52-66 | A request submits at most once, and exactly once when it succeeds. The test network never asks for a gas price. The main network asks at most once. |
| `SendEthServer.SubmitsSignedPayload` | src/send_eth_server.py:65-66 | Every submission directly follows a successful signing and sends that signed transaction's raw bytes. A successful signing is always followed by a submission. |
| `SendEthServer.FailureStopsLaterCalls` | src/send_eth_server.py:46-68 | A call that raises is the request's last call, and the request fails. A sum that is not a whole number of wei also ends the request: its only call is the nonce fetch, it fails, and the installed strategy is unchanged. The request returns True exactly when the sum converts and no call raises. |
| `SendEthServer.SignedTransactionFields` | src/send_eth_server.py:46-65 | The first call is `getTransactionCount(source)`. A signed transaction has exactly the five fields. Its nonce is the value that first call returned. `to` is the target and `value` is the sum in wei. It is signed with the request's key. |
| `SendEthServer.TestnetFees` | src/send_eth_server.py:52-56 | On the test network every signed transaction has gas 200000 and gasPrice 50 · 10^9, whatever the request and the nonce. No strategy is installed and no estimate is asked for. |
| `SendEthServer.MainnetFees` | src/send_eth_server.py:57-64 | On the main network a signed transaction has gas 21000. Its gasPrice is the value returned by the one gas-price call, which runs under the medium time-based strategy just before signing. |
| `Scenarios.TestnetTransfer` | src/send_eth_server.py:33-68 | 1.0 ether from 0xA to 0xB on the test network, with nonce 5, signs {nonce 5, to 0xB, value 10^18, gas 200000, gasPrice 50 gwei}. It submits the signed bytes and returns True. |
| `Scenarios.TestnetSubmissionRefused` | src/send_eth_server.py:66-68 | When the node refuses the submission, the request fails. Its calls are exactly nonce, sign and send: one submission and no retry. |
| `Scenarios.NonceFetchedPerRequest` | src/send_eth_server.py:46-48 | Two requests on one client, whose node reports nonce 7 and then 9, sign nonces 7 and 9. The nonce is neither cached (7, 7) nor counted up locally (7, 8). |

## Left out

- `read_configuration` (file reading, YAML parsing, and `exit()` on error) is not modelled. The configuration is a record that always holds `general.testnet`, `parameters.provider` and `parameters.provider_testnet`. The `KeyError` that a missing key would raise is therefore not modelled.
- ROS node start-up, service registration, `rospy.spin`, the `rospkg` path lookup and all logging are not modelled. The transaction hash that `sendRawTransaction` returns is only logged, so the model discards it.
- `config["general"]["testnet"]` is tested by Python truthiness, so a YAML string such as `"false"` would select the test network. The model's `General(testnet: bool)` assumes the flag is a YAML boolean.
- The websocket connection (`Web3(Web3.WebsocketProvider(provider))`) is not modelled. Only the choice of endpoint is.
- The fee-history sampling of `medium_gas_price_strategy`, ECDSA signing, and the network submission are all web3 internals. They are answers chosen by the `Environment`.
- Units.ToWei: web3's handling of a float `sum`, its rounding and its 2^256 − 1 bound are library behaviour. The model takes the sum as an exact non-negative decimal. It refuses an amount that is not a whole number of wei instead of truncating it. Negative sums cannot be represented.
- Python's dictionary insertion order is not modelled: the transaction is a `map`.
- Two requests racing for the same nonce are not modelled. The handler takes no lock, and rospy may run it for two clients at once on the one shared `w3`; the model handles requests one after another.
