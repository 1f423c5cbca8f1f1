/** The wallet and transaction gateway of evm_utils.py.

    Everything the module hands to web3 and eth-account is an oracle: a `Node`
    value whose function-typed fields answer each RPC (or raise), and a `Keys`
    value for key derivation and signing. The process-wide `ACCOUNT` slot is
    the one field of class `Gateway`. What is modelled is the decision-making
    around those calls: key normalisation, which keys go into each transaction
    dictionary, the gas constants, the order of the checks, how receipts map
    to messages, and which failures are raised and which are returned. */
module EvmUtils {
  import opened Prelude

  /** An ABI-encoded argument or a decoded call result; its structure is not modelled. */
  type Value = string

  /** The exception classes the code tells apart in its `except` clauses. */
  datatype FaultKind = TransactionNotFound | ContractLogicError | OtherError

  /** An exception raised inside a library call, with its `str(e)`. */
  datatype Fault = Fault(kind: FaultKind, message: string)

  /** The answer of one library call: a value, or the exception it raised. */
  datatype Rpc<T> = Ok(value: T) | Fail(fault: Fault)

  datatype ErrorClass = ValueError | Exception

  /** What a Python function does: return a value, or raise an exception. */
  datatype Outcome<T> = Returned(value: T) | Raised(errorClass: ErrorClass, message: string)

  /** A `LocalAccount`: the derived address and the (normalised) key it signs with. */
  datatype Account = Account(address: string, key: string)

  datatype Receipt = Receipt(status: int, contractAddress: Option<string>)

  /** One ABI entry, read with `dict.get`: a missing key is `None`. */
  datatype AbiEntry = AbiEntry(name: Option<string>, kind: Option<string>, stateMutability: Option<string>)

  /** A transaction dictionary; an absent key is `None`. The code fills in
      `from`, `to`, `value`, `nonce`, `gas` and `gasPrice`; `data` and
      `chainId` are what `build_transaction` may add. */
  datatype TxFields = TxFields(
    from: Option<string>, to: Option<string>, value: Option<int>,
    nonce: nat, gas: nat, gasPrice: nat,
    data: Option<string>, chainId: Option<int>)

  /** The parameter dictionary of `estimate_gas`; an absent key is `None`. */
  datatype GasQuery = GasQuery(from: string, to: Option<string>, value: Option<int>, data: Option<string>)

  /** `eth.contract(abi=..., bytecode=...)` and `eth.contract(address=..., abi=...)`. */
  datatype ContractRef =
    | Deployable(abi: seq<AbiEntry>, bytecode: string)
    | AtAddress(address: string, abi: seq<AbiEntry>)

  /** `contract.constructor()` and `contract.functions.<method>(*args)`. */
  datatype Invocation =
    | Construct(contract: ContractRef)
    | Invoke(contract: ContractRef, methodName: string, args: seq<Value>)

  /** The node behind `WEB3`, one oracle per RPC the module uses. */
  datatype Node = Node(
    transactionCount: string -> Rpc<nat>,              // eth.get_transaction_count(address)
    estimateGas: GasQuery -> Rpc<nat>,                  // eth.estimate_gas(params)
    transactionReceipt: string -> Rpc<Option<Receipt>>, // eth.get_transaction_receipt(hash)
    sendRawTransaction: string -> Rpc<string>,          // raw signed bytes to the hash's hex text
    waitForReceipt: string -> Rpc<Receipt>,             // eth.wait_for_transaction_receipt(hash, timeout=300)
    contractError: ContractRef -> Option<Fault>,        // what eth.contract(...) raises, if anything
    estimateConstructorGas: (ContractRef, string) -> Rpc<nat>,
    buildTransaction: (Invocation, TxFields) -> Rpc<TxFields>,
    call: Invocation -> Rpc<Value>)

  /** eth-account: `from_key` (key to address) and `sign_transaction`. */
  datatype Keys = Keys(
    fromKey: string -> Rpc<string>,
    signTransaction: (string, TxFields) -> Rpc<string>)

  /** What `interact_with_contract` returns: a decoded call result or a message. */
  datatype InteractResult = CallResult(value: Value) | Message(text: string)

  const TransferGas: nat := 21000
  const InteractionGas: nat := 2000000
  const DeployGasBuffer: nat := 200000
  /** `to_wei('50', 'gwei')`. */
  const GasPrice: nat := 50 * 1000000000

  const InvalidKeyPrefix := "Invalid private key: "
  const NoAddressDerived := "Could not derive address from private key."
  const NoWalletForTransactions := "No wallet connected. Please connect your wallet to send transactions."
  const NoWalletForDeploy := "No wallet connected. Please connect your wallet to deploy contracts."
  const TransferNotFound := "❌ Transaction not found. It might still be propagating or failed silently."
  const SendErrorPrefix := "❌ Error sending ETH: "
  const GasErrorPrefix := "❌ Error estimating gas: "
  const TxPending := "Transaction is pending or not found."
  const TxSucceeded := "✅ Transaction successful."
  const TxFailed := "❌ Transaction failed."
  const StatusErrorPrefix := "❌ Error checking transaction status: "
  const DeployErrorPrefix := "Contract deployment error: "
  const LogicErrorPrefix := "❌ Logic Error: "
  const InteractErrorPrefix := "❌ Error interacting with contract: "

  function TransferSucceeded(txHash: string): string { "✅ Transaction successful! Hash: " + txHash }
  function TransferFailed(txHash: string): string { "❌ Transaction failed. Hash: " + txHash }
  function DeployFailed(txHash: string): string { "Contract deployment failed. Transaction hash: " + txHash }
  function MethodNotFound(methodName: string): string { "❌ Method '" + methodName + "' not found in contract ABI." }
  function TransactionSent(txHash: string, receipt: Receipt): string {
    "Transaction sent: " + txHash + ". Receipt status: " + (if receipt.status == 1 then "Success" else "Failed")
  }

  /** The prefixing in `set_current_account`: a key without a leading "0x" gets one. */
  function NormaliseKey(privateKey: string): (key: string)
    ensures StartsWith(key, "0x")
    ensures StartsWith(privateKey, "0x") ==> key == privateKey
    ensures !StartsWith(privateKey, "0x") ==> key == "0x" + privateKey
    ensures |privateKey| <= |key| <= |privateKey| + 2
    ensures key[|key| - |privateKey|..] == privateKey
  {
    if StartsWith(privateKey, "0x") then privateKey else "0x" + privateKey
  }

  lemma NormaliseKeyIdempotent(privateKey: string)
    ensures NormaliseKey(NormaliseKey(privateKey)) == NormaliseKey(privateKey)
  {
  }

  /** How `send_eth` turns an exception inside its `try` into the returned text. */
  function SendFailure(f: Fault): string {
    if f.kind == TransactionNotFound then TransferNotFound else SendErrorPrefix + f.message
  }

  /** How `send_eth` reports a mined receipt. */
  function TransferReport(txHash: string, receipt: Receipt): string {
    if receipt.status == 1 then TransferSucceeded(txHash) else TransferFailed(txHash)
  }

  /** How `interact_with_contract` turns an exception into the returned text. */
  function InteractFailure(f: Fault): string {
    if f.kind == ContractLogicError then LogicErrorPrefix + f.message else InteractErrorPrefix + f.message
  }

  /** `args or []`. */
  function ArgList(args: Option<seq<Value>>): seq<Value> {
    if args.Some? then args.value else []
  }

  /** Sign with the account's key, submit, and wait for the receipt: the three
      library calls every state-changing operation ends with. */
  function Broadcast(node: Node, keys: Keys, key: string, tx: TxFields): Rpc<(string, Receipt)> {
    match keys.signTransaction(key, tx)
    case Fail(f) => Fail(f)
    case Ok(raw) =>
      match node.sendRawTransaction(raw)
      case Fail(f) => Fail(f)
      case Ok(txHash) =>
        match node.waitForReceipt(txHash)
        case Fail(f) => Fail(f)
        case Ok(receipt) => Ok((txHash, receipt))
  }

  /** `build_transaction(fields)` on an invocation, then `Broadcast`. */
  function BuildAndBroadcast(node: Node, keys: Keys, key: string, inv: Invocation, fields: TxFields): Rpc<(string, Receipt)> {
    match node.buildTransaction(inv, fields)
    case Fail(f) => Fail(f)
    case Ok(tx) => Broadcast(node, keys, key, tx)
  }

  /** The entry `e` describes a function named `methodName`. */
  predicate NamesFunction(e: AbiEntry, methodName: string) {
    e.name == Some(methodName) && e.kind == Some("function")
  }

  /** `e.get('stateMutability') not in ['view', 'pure']`: a missing key counts as writing. */
  predicate Writes(e: AbiEntry) {
    e.stateMutability != Some("view") && e.stateMutability != Some("pure")
  }

  /** `contract.functions` has an attribute `methodName`: some function entry carries that name. */
  predicate Declares(abi: seq<AbiEntry>, methodName: string) {
    exists i | 0 <= i < |abi| :: NamesFunction(abi[i], methodName)
  }

  /** The classification `interact_with_contract` computes: SOME function entry
      of that name is neither view nor pure. */
  predicate IsTransaction(abi: seq<AbiEntry>, methodName: string) {
    exists i | 0 <= i < |abi| :: NamesFunction(abi[i], methodName) && Writes(abi[i])
  }

  lemma TransactionsAreDeclared(abi: seq<AbiEntry>, methodName: string)
    ensures IsTransaction(abi, methodName) ==> Declares(abi, methodName)
  {
  }

  /** Whether a receipt lookup found a mined transaction with the given outcome. */
  predicate Mined(lookup: Rpc<Option<Receipt>>, success: bool) {
    lookup.Ok? && lookup.value.Some? && (lookup.value.value.status == 1) == success
  }

  /** `check_tx_status`: no receipt is "pending or not found", never a failure;
      each of the four answers arises from exactly one kind of lookup. */
  function CheckTxStatus(node: Node, txHash: string): (r: string)
    ensures r == TxPending <==> node.transactionReceipt(txHash) == Ok(None)
    ensures r == TxSucceeded <==> Mined(node.transactionReceipt(txHash), true)
    ensures r == TxFailed <==> Mined(node.transactionReceipt(txHash), false)
    ensures node.transactionReceipt(txHash).Fail? <==> StartsWith(r, StatusErrorPrefix)
    ensures node.transactionReceipt(txHash).Fail? ==> r == StatusErrorPrefix + node.transactionReceipt(txHash).fault.message
  {
    match node.transactionReceipt(txHash)
    case Fail(f) =>
      var r := StatusErrorPrefix + f.message;
      assert r[..|StatusErrorPrefix|] == StatusErrorPrefix;
      assert r[0] == '❌' && r[2] == 'E';
      r
    case Ok(None) => TxPending
    case Ok(Some(receipt)) => if receipt.status == 1 then TxSucceeded else TxFailed
  }

  /** The two receipt mappings agree: `send_eth` reports success for a receipt
      exactly when `check_tx_status` would report that receipt as successful. */
  lemma {:induction false} ReceiptReportsAgree(node: Node, txHash: string, receipt: Receipt)
    requires node.transactionReceipt(txHash) == Ok(Some(receipt))
    ensures TransferReport(txHash, receipt) == TransferSucceeded(txHash) <==> CheckTxStatus(node, txHash) == TxSucceeded
    ensures TransferReport(txHash, receipt) == TransferFailed(txHash) <==> CheckTxStatus(node, txHash) == TxFailed
  {
    assert TransferSucceeded(txHash)[0] == '✅' && TransferFailed(txHash)[0] == '❌';
  }

  /** `estimate_gas`: fills the parameter dictionary key by key, then asks the node. */
  method EstimateGas(node: Node, fromAddress: string, toAddress: Option<string>, valueWei: int, data: Option<string>)
    returns (r: string, query: GasQuery)
    ensures query.from == fromAddress
    ensures query.to.Some? <==> Truthy(toAddress)
    ensures query.to.Some? ==> query.to == toAddress
    ensures query.value.Some? <==> valueWei > 0
    ensures query.value.Some? ==> query.value.value == valueWei
    ensures query.data.Some? <==> Truthy(data)
    ensures query.data.Some? ==> query.data == data
    ensures node.estimateGas(query).Ok? ==> r == "Estimated Gas: " + Decimal(node.estimateGas(query).value)
    ensures node.estimateGas(query).Fail? ==> r == GasErrorPrefix + node.estimateGas(query).fault.message
  {
    query := GasQuery(fromAddress, None, None, None);
    if Truthy(toAddress) {
      query := query.(to := toAddress);
    }
    if valueWei > 0 {
      query := query.(value := Some(valueWei));
    }
    if Truthy(data) {
      query := query.(data := data);
    }
    match node.estimateGas(query) {
      case Ok(estimate) => r := "Estimated Gas: " + Decimal(estimate);
      case Fail(f) => r := GasErrorPrefix + f.message;
    }
  }

  /** The module-level `ACCOUNT` slot and the operations that read or write it. */
  class Gateway {
    var account: Option<Account>

    /** A stored account always has a non-empty address. */
    ghost predicate Valid()
      reads this
    {
      account.Some? ==> account.value.address != ""
    }

    /** `ACCOUNT = None` at import. */
    constructor ()
      ensures Valid() && account.None?
    {
      account := None;
    }

    /** `get_current_address`: the stored account's address, or None; never raises. */
    function GetCurrentAddress(): (r: Option<string>)
      reads this
      requires Valid()
      ensures r.None? <==> account.None?
      ensures r.Some? ==> r.value != "" && r.value == account.value.address
    {
      if account.Some? then Some(account.value.address) else None
    }

    /** `set_current_account`: on success the slot holds the derived account; on
        any failure it is cleared and a ValueError is raised. */
    method SetCurrentAccount(privateKey: string, keys: Keys) returns (r: Outcome<()>)
      modifies this
      ensures Valid()
      ensures r.Returned? <==> account.Some?
      ensures r.Raised? ==> r.errorClass == ValueError && StartsWith(r.message, InvalidKeyPrefix)
      ensures account.Some? ==> account.value.key == NormaliseKey(privateKey)
      ensures account.Some? ==> keys.fromKey(account.value.key) == Ok(account.value.address)
      ensures keys.fromKey(NormaliseKey(privateKey)).Fail? ==>
                r == Raised(ValueError, InvalidKeyPrefix + keys.fromKey(NormaliseKey(privateKey)).fault.message)
      ensures keys.fromKey(NormaliseKey(privateKey)) == Ok("") ==>
                r == Raised(ValueError, InvalidKeyPrefix + NoAddressDerived)
      ensures keys.fromKey(NormaliseKey(privateKey)).Ok? && keys.fromKey(NormaliseKey(privateKey)).value != "" ==>
                r == Returned(()) && account == Some(Account(keys.fromKey(NormaliseKey(privateKey)).value, NormaliseKey(privateKey)))
    {
      var key := NormaliseKey(privateKey);
      match keys.fromKey(key) {
        case Fail(f) =>
          account := None;
          r := Raised(ValueError, InvalidKeyPrefix + f.message);
        case Ok(address) =>
          if address == "" {
            account := None;
            r := Raised(ValueError, InvalidKeyPrefix + NoAddressDerived);
          } else {
            account := Some(Account(address, key));
            r := Returned(());
          }
      }
      assert r.Raised? ==> r.message[..|InvalidKeyPrefix|] == InvalidKeyPrefix;
    }

    /** `clear_current_account`. */
    method ClearCurrentAccount()
      modifies this
      ensures Valid() && account.None?
      ensures GetCurrentAddress() == None
    {
      account := None;
    }

    /** `send_eth`. Without an account it raises before any node call; with one
        it never raises. The signed dictionary (`sent`) carries the node's
        transaction count read at build time, gas 21000 and gasPrice 50 gwei. */
    method SendEth(node: Node, keys: Keys, toAddress: string, valueWei: int)
      returns (r: Outcome<string>, sent: Option<TxFields>)
      ensures account.None? ==> r == Raised(Exception, NoWalletForTransactions) && sent.None?
      ensures account.Some? ==> r.Returned?
      ensures sent.Some? <==> account.Some? && node.transactionCount(account.value.address).Ok?
      ensures sent.Some? ==>
                sent.value == TxFields(None, Some(toAddress), Some(valueWei),
                                       node.transactionCount(account.value.address).value,
                                       TransferGas, GasPrice, None, None)
      ensures account.Some? && sent.None? ==>
                r == Returned(SendFailure(node.transactionCount(account.value.address).fault))
      ensures sent.Some? ==>
                match Broadcast(node, keys, account.value.key, sent.value)
                case Fail(f) => r == Returned(SendFailure(f))
                case Ok((txHash, receipt)) => r == Returned(TransferReport(txHash, receipt))
    {
      if account.None? {
        return Raised(Exception, NoWalletForTransactions), None;
      }
      var acct := account.value;
      match node.transactionCount(acct.address) {
        case Fail(f) =>
          r, sent := Returned(SendFailure(f)), None;
        case Ok(nonce) =>
          var tx := TxFields(None, Some(toAddress), Some(valueWei), nonce, TransferGas, GasPrice, None, None);
          sent := Some(tx);
          match Broadcast(node, keys, acct.key, tx) {
            case Fail(f) => r := Returned(SendFailure(f));
            case Ok((txHash, receipt)) => r := Returned(TransferReport(txHash, receipt));
          }
      }
    }

    /** `deploy_contract`. Without an account it raises the no-wallet error;
        otherwise every failure, a status-0 receipt included, is raised again
        with the prefix "Contract deployment error: ". The dictionary handed
        to `build_transaction` (`sent`) has gas = constructor estimate + 200000. */
    method DeployContract(node: Node, keys: Keys, bytecode: string, abi: seq<AbiEntry>)
      returns (r: Outcome<Option<string>>, sent: Option<TxFields>)
      ensures account.None? ==> r == Raised(Exception, NoWalletForDeploy) && sent.None?
      ensures account.Some? && node.contractError(Deployable(abi, bytecode)).Some? ==>
                r == Raised(Exception, DeployErrorPrefix + node.contractError(Deployable(abi, bytecode)).value.message)
      ensures account.Some? && node.contractError(Deployable(abi, bytecode)).None?
              && node.transactionCount(account.value.address).Fail? ==>
                r == Raised(Exception, DeployErrorPrefix + node.transactionCount(account.value.address).fault.message)
      ensures account.Some? && node.contractError(Deployable(abi, bytecode)).None?
              && node.transactionCount(account.value.address).Ok?
              && node.estimateConstructorGas(Deployable(abi, bytecode), account.value.address).Fail? ==>
                r == Raised(Exception, DeployErrorPrefix
                                       + node.estimateConstructorGas(Deployable(abi, bytecode), account.value.address).fault.message)
      ensures account.Some? && r.Raised? ==> r.errorClass == Exception && StartsWith(r.message, DeployErrorPrefix)
      ensures sent.Some? <==>
                account.Some? && node.contractError(Deployable(abi, bytecode)).None?
                && node.transactionCount(account.value.address).Ok?
                && node.estimateConstructorGas(Deployable(abi, bytecode), account.value.address).Ok?
      ensures sent.Some? ==>
                sent.value == TxFields(Some(account.value.address), None, None,
                                       node.transactionCount(account.value.address).value,
                                       node.estimateConstructorGas(Deployable(abi, bytecode), account.value.address).value
                                         + DeployGasBuffer,
                                       GasPrice, None, None)
      ensures r.Returned? <==>
                sent.Some? && var b := BuildAndBroadcast(node, keys, account.value.key, Construct(Deployable(abi, bytecode)), sent.value);
                b.Ok? && b.value.1.status == 1
      ensures r.Returned? ==>
                r.value == BuildAndBroadcast(node, keys, account.value.key, Construct(Deployable(abi, bytecode)), sent.value)
                             .value.1.contractAddress
      ensures sent.Some? ==>
                match BuildAndBroadcast(node, keys, account.value.key, Construct(Deployable(abi, bytecode)), sent.value)
                case Fail(f) => r == Raised(Exception, DeployErrorPrefix + f.message)
                case Ok((txHash, receipt)) =>
                  receipt.status != 1 ==> r == Raised(Exception, DeployErrorPrefix + DeployFailed(txHash))
    {
      if account.None? {
        return Raised(Exception, NoWalletForDeploy), None;
      }
      var acct := account.value;
      var contract := Deployable(abi, bytecode);
      sent := None;
      var fault: Option<Fault> := node.contractError(contract);
      if fault.None? {
        match (node.transactionCount(acct.address), node.estimateConstructorGas(contract, acct.address)) {
          case (Fail(f), _) => fault := Some(f);
          case (Ok(_), Fail(f)) => fault := Some(f);
          case (Ok(nonce), Ok(estimate)) =>
            var fields := TxFields(Some(acct.address), None, None, nonce, estimate + DeployGasBuffer, GasPrice, None, None);
            sent := Some(fields);
            match BuildAndBroadcast(node, keys, acct.key, Construct(contract), fields) {
              case Fail(f) => fault := Some(f);
              case Ok((txHash, receipt)) =>
                if receipt.status == 1 {
                  return Returned(receipt.contractAddress), sent;
                }
                fault := Some(Fault(OtherError, DeployFailed(txHash)));
            }
        }
      }
      r := Raised(Exception, DeployErrorPrefix + fault.value.message);
      assert r.message[..|DeployErrorPrefix|] == DeployErrorPrefix;
    }

    /** `interact_with_contract`. It never raises. The checks run in this
        order: the ABI scan for a writing entry, binding the contract, the
        method lookup (not found is returned before the account is looked
        at), then the account check on the write path only; the read path
        does not consult the account at all. The write path hands
        `build_transaction` gas 2000000 and the node's current nonce. */
    method InteractWithContract(node: Node, keys: Keys, abi: seq<AbiEntry>, contractAddress: string,
                                methodName: string, args: Option<seq<Value>>)
      returns (r: Outcome<InteractResult>, sent: Option<TxFields>)
      ensures r.Returned?
      ensures node.contractError(AtAddress(contractAddress, abi)).Some? ==>
                sent.None? && r == Returned(Message(InteractFailure(node.contractError(AtAddress(contractAddress, abi)).value)))
      ensures node.contractError(AtAddress(contractAddress, abi)).None? && !Declares(abi, methodName) ==>
                sent.None? && r == Returned(Message(MethodNotFound(methodName)))
      ensures node.contractError(AtAddress(contractAddress, abi)).None? && Declares(abi, methodName) && !IsTransaction(abi, methodName) ==>
                sent.None? &&
                match node.call(Invoke(AtAddress(contractAddress, abi), methodName, ArgList(args)))
                case Ok(v) => r == Returned(CallResult(v))
                case Fail(f) => r == Returned(Message(InteractFailure(f)))
      ensures node.contractError(AtAddress(contractAddress, abi)).None? && IsTransaction(abi, methodName) && account.None? ==>
                sent.None? && r == Returned(Message(InteractErrorPrefix + NoWalletForTransactions))
      ensures sent.Some? <==>
                node.contractError(AtAddress(contractAddress, abi)).None? && IsTransaction(abi, methodName)
                && account.Some? && node.transactionCount(account.value.address).Ok?
      ensures sent.Some? ==>
                sent.value == TxFields(Some(account.value.address), None, None,
                                       node.transactionCount(account.value.address).value,
                                       InteractionGas, GasPrice, None, None)
      ensures node.contractError(AtAddress(contractAddress, abi)).None? && IsTransaction(abi, methodName)
              && account.Some? && sent.None? ==>
                r == Returned(Message(InteractFailure(node.transactionCount(account.value.address).fault)))
      ensures sent.Some? ==>
                match BuildAndBroadcast(node, keys, account.value.key,
                                        Invoke(AtAddress(contractAddress, abi), methodName, ArgList(args)), sent.value)
                case Fail(f) => r == Returned(Message(InteractFailure(f)))
                case Ok((txHash, receipt)) => r == Returned(Message(TransactionSent(txHash, receipt)))
    {
      var isTransaction := false;
      var i := 0;
      while i < |abi|
        invariant 0 <= i <= |abi|
        invariant !isTransaction
        invariant forall j :: 0 <= j < i ==> !(NamesFunction(abi[j], methodName) && Writes(abi[j]))
      {
        if NamesFunction(abi[i], methodName) && Writes(abi[i]) {
          isTransaction := true;
          break;
        }
        i := i + 1;
      }
      assert isTransaction <==> IsTransaction(abi, methodName);

      sent := None;
      var contract := AtAddress(contractAddress, abi);
      if node.contractError(contract).Some? {
        return Returned(Message(InteractFailure(node.contractError(contract).value))), None;
      }
      if !Declares(abi, methodName) {
        return Returned(Message(MethodNotFound(methodName))), None;
      }
      var inv := Invoke(contract, methodName, ArgList(args));
      if isTransaction {
        if account.None? {
          return Returned(Message(InteractFailure(Fault(OtherError, NoWalletForTransactions)))), None;
        }
        var acct := account.value;
        match node.transactionCount(acct.address) {
          case Fail(f) =>
            r := Returned(Message(InteractFailure(f)));
          case Ok(nonce) =>
            var fields := TxFields(Some(acct.address), None, None, nonce, InteractionGas, GasPrice, None, None);
            sent := Some(fields);
            match BuildAndBroadcast(node, keys, acct.key, inv, fields) {
              case Fail(f) => r := Returned(Message(InteractFailure(f)));
              case Ok((txHash, receipt)) => r := Returned(Message(TransactionSent(txHash, receipt)));
            }
        }
      } else {
        match node.call(inv) {
          case Ok(v) => r := Returned(CallResult(v));
          case Fail(f) => r := Returned(Message(InteractFailure(f)));
        }
      }
    }
  }
}
