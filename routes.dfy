/** The request handlers of main.py that decide something before they call
    into the gateway: the wallet-configuration check, the chat command
    router and the `/interact` pre-check. Each handler is a function from the
    fields of the JSON request (a missing key is `None`) to a reply record
    holding the HTTP code and the JSON body; where a handler would call a
    gateway function, the reply names that call instead of performing it.

    Each call is modelled against the signature of the function it reaches:
    main.py passes `set_current_account` two arguments where it takes one,
    passes `interact_with_contract` a keyword it does not accept, and uses a
    name `WEB3` it never imported. The replies below are what those calls
    then produce. */
module Routes {
  import opened Prelude
  import opened EvmUtils

  // ---------------------------------------------------------------------
  // /set_wallet_config and /clear_wallet_config

  /** `jsonify({'status': ..., 'message': ..., 'address': ...})` with its HTTP code. */
  datatype WalletReply = WalletReply(code: nat, status: string, message: string, address: Option<string>)

  const PrivateKeyRequired := "Private key is required."
  const NodeUrlRequired := "EVM Node URL is required."
  /** The TypeError of calling the one-parameter `set_current_account` with two arguments. */
  const SetAccountArity := "set_current_account() takes 1 positional argument but 2 were given"
  const WalletCleared := "Wallet configuration cleared."

  /** `set_wallet_config`. The private key is checked before the node URL.
      Past both checks, `set_evm_node` (which evm_utils.py does not define;
      `evmNodeFault` is what it raises, if anything) is called, and then
      `set_current_account(private_key, node_url)` raises a TypeError: the
      handler answers 400 in every case and never reaches the account slot. */
  function SetWalletConfig(privateKey: Option<string>, nodeUrl: Option<string>, evmNodeFault: Option<string>)
    : (r: WalletReply)
    ensures !Truthy(privateKey) ==> r == WalletReply(400, "error", PrivateKeyRequired, None)
    ensures Truthy(privateKey) && !Truthy(nodeUrl) ==> r == WalletReply(400, "error", NodeUrlRequired, None)
    ensures Truthy(privateKey) && Truthy(nodeUrl) ==>
              r.message == (if evmNodeFault.Some? then evmNodeFault.value else SetAccountArity)
    ensures r.code == 400 && r.status == "error" && r.address.None?
  {
    if !Truthy(privateKey) then WalletReply(400, "error", PrivateKeyRequired, None)
    else if !Truthy(nodeUrl) then WalletReply(400, "error", NodeUrlRequired, None)
    else if evmNodeFault.Some? then WalletReply(400, "error", evmNodeFault.value, None)
    else WalletReply(400, "error", SetAccountArity, None)
  }

  /** `clear_wallet_config`: empties the account slot and reports success. */
  method ClearWalletConfig(gateway: Gateway) returns (r: WalletReply)
    modifies gateway
    ensures gateway.Valid() && gateway.GetCurrentAddress() == None
    ensures r == WalletReply(200, "success", WalletCleared, None)
  {
    gateway.ClearCurrentAccount();
    r := WalletReply(200, "success", WalletCleared, None);
  }

  // ---------------------------------------------------------------------
  // /chat

  /** What `chat` answers with: a fixed text, the result of one gateway or
      assistant call (named, not performed), or a 500 error. */
  datatype ChatReply =
    | Answer(text: string)            // 200 {'response': text}
    | QueryBalance(address: string)   // 200 {'response': get_balance(address)}
    | QueryTxStatus(txHash: string)   // 200 {'response': check_tx_status(txHash)}
    | AskAssistant(prompt: string)    // 200 {'response': chat_evm(prompt)}
    | ServerError(message: string)    // 500 {'error': message}

  const MissingChatInput := "'chat_input'"
  const BalanceOfUsage := "Please provide a valid Ethereum address to check its balance (e.g., 'balance of 0x...')."
  const NoWalletForBalance :=
    "No private key wallet connected to backend. Please connect your private key wallet to check its balance."
  const TransferUsage := "Please specify a valid amount and recipient (e.g., 'transfer 0.1 ETH to 0x...')."
  const GasEstimateHelp := "For gas estimation, please provide the full transaction data in a structured way."
  const TxStatusUsage := "Please provide a transaction hash to check its status (e.g., 'check tx status 0x...')."
  /** The NameError of the transfer branch: main.py never imports `WEB3`. */
  const Web3Undefined := "name 'WEB3' is not defined"

  function FloatRejected(text: string): string { "could not convert string to float: '" + text + "'" }

  // The five branch conditions, in the order the if/elif chain tries them.
  predicate AsksBalanceOf(t: string) { Contains(t, "balance of") }
  predicate AsksOwnBalance(t: string) { t == "my balance" || t == "balance" }
  predicate AsksTransfer(t: string) { Contains(t, "transfer") && Contains(t, "eth to") }
  predicate AsksGasEstimate(t: string) { Contains(t, "estimate gas for") }
  predicate AsksTxStatus(t: string) { Contains(t, "check transaction status") || Contains(t, "tx status") }

  /** `balance of (0x[0-9a-fA-F]{40})` matches at index `i`. */
  predicate BalanceOfAt(s: string, i: nat) {
    OccursAt(s, "balance of 0x", i) && HexRun(s, i + 13, 40)
  }

  /** `re.search(r'balance of (0x[0-9a-fA-F]{40})', s).group(1)`. */
  function MatchBalanceOf(s: string): (r: Option<string>)
    ensures r.None? <==> forall i: nat :: i <= |s| ==> !BalanceOfAt(s, i)
    ensures r.Some? ==> exists i: nat | i <= |s| ::
              BalanceOfAt(s, i) && r.value == s[i + 11..i + 53] && forall j: nat :: j < i ==> !BalanceOfAt(s, j)
    ensures r.Some? ==> |r.value| == 42 && StartsWith(r.value, "0x") && HexRun(r.value, 2, 40)
  {
    var p := (i: nat) => BalanceOfAt(s, i);
    assert forall j: nat :: p(j) == BalanceOfAt(s, j);
    match FirstIndex(p, 0, |s| + 1)
    case None => None
    case Some(i) =>
      var a := s[i + 11..i + 53];
      assert s[i..][..13] == "balance of 0x";
      assert a[0] == s[i..][..13][11] && a[1] == s[i..][..13][12];
      assert a[..2] == "0x";
      Some(a)
  }

  /** `(0x[0-9a-fA-F]{64})` matches at index `i`. */
  predicate TxHashAt(s: string, i: nat) {
    OccursAt(s, "0x", i) && HexRun(s, i + 2, 64)
  }

  /** `re.search(r'(0x[0-9a-fA-F]{64})', s).group(1)`. */
  function MatchTxHash(s: string): (r: Option<string>)
    ensures r.None? <==> forall i: nat :: i <= |s| ==> !TxHashAt(s, i)
    ensures r.Some? ==> exists i: nat | i <= |s| ::
              TxHashAt(s, i) && r.value == s[i..i + 66] && forall j: nat :: j < i ==> !TxHashAt(s, j)
    ensures r.Some? ==> |r.value| == 66 && StartsWith(r.value, "0x") && HexRun(r.value, 2, 64)
  {
    var p := (i: nat) => TxHashAt(s, i);
    assert forall j: nat :: p(j) == TxHashAt(s, j);
    match FirstIndex(p, 0, |s| + 1)
    case None => None
    case Some(i) => Some(s[i..i + 66])
  }

  /** The character class `[\d.]`. */
  predicate IsAmountChar(c: char) {
    IsDigit(c) || c == '.'
  }

  /** The end of the longest run of characters satisfying `p` that starts at `i`. */
  function RunEnd(s: string, i: nat, p: char -> bool): (j: nat)
    requires i <= |s|
    ensures i <= j <= |s|
    ensures forall k :: i <= k < j ==> p(s[k])
    ensures j < |s| ==> !p(s[j])
    decreases |s| - i
  {
    if i < |s| && p(s[i]) then RunEnd(s, i + 1, p) else i
  }

  /** Every character of `s[x..y]` satisfies `p`. */
  predicate Run(s: string, x: nat, y: nat, p: char -> bool) {
    x <= y <= |s| && forall k :: x <= k < y ==> p(s[k])
  }

  /** A run that cannot be extended is the one `RunEnd` finds. */
  lemma {:induction false} RunIsMaximal(s: string, x: nat, y: nat, p: char -> bool)
    requires Run(s, x, y, p) && (y < |s| ==> !p(s[y]))
    ensures RunEnd(s, x, p) == y
    decreases y - x
  {
    if x < y {
      assert p(s[x]);
      RunIsMaximal(s, x + 1, y, p);
    }
  }

  /** The transfer pattern matches at `i` with this split: "transfer" at `i`,
      `\s+`, the amount group `s[a..b]` of `[\d.]+`, `\s*`, "eth" at `e`,
      `\s+`, "to" at `t`, `\s+`, and the recipient group: "0x" at `c`
      followed by 40 hexadecimal digits. */
  predicate TransferSplit(s: string, i: nat, a: nat, b: nat, e: nat, t: nat, c: nat) {
    && OccursAt(s, "transfer", i)
    && i + 8 < a && Run(s, i + 8, a, IsSpace)
    && a < b && Run(s, a, b, IsAmountChar)
    && Run(s, b, e, IsSpace) && OccursAt(s, "eth", e)
    && e + 3 < t && Run(s, e + 3, t, IsSpace) && OccursAt(s, "to", t)
    && t + 2 < c && Run(s, t + 2, c, IsSpace) && OccursAt(s, "0x", c)
    && HexRun(s, c + 2, 40)
  }

  /** `transfer\s+([\d.]+)\s*eth\s+to\s+(0x[0-9a-fA-F]{40})` matched at index
      `i`, giving the two groups. Each quantifier is followed by a character
      its class excludes, so taking every run as long as it goes finds the
      match whenever the backtracking matcher would (`TransferAtSound`,
      `TransferAtComplete`). */
  function TransferAt(s: string, i: nat): (r: Option<(string, string)>)
    ensures r.Some? ==> OccursAt(s, "transfer", i)
    ensures r.Some? ==> |r.value.0| >= 1 && forall k :: 0 <= k < |r.value.0| ==> IsAmountChar(r.value.0[k])
    ensures r.Some? ==> |r.value.1| == 42 && StartsWith(r.value.1, "0x") && HexRun(r.value.1, 2, 40)
  {
    if !OccursAt(s, "transfer", i) then None
    else
      var afterWord := i + 8;
      var amountStart := RunEnd(s, afterWord, IsSpace);
      var amountEnd := RunEnd(s, amountStart, IsAmountChar);
      var eth := RunEnd(s, amountEnd, IsSpace);
      if amountStart == afterWord || amountEnd == amountStart || !OccursAt(s, "eth", eth) then None
      else
        var to := RunEnd(s, eth + 3, IsSpace);
        if to == eth + 3 || !OccursAt(s, "to", to) then None
        else
          var address := RunEnd(s, to + 2, IsSpace);
          if address == to + 2 || !OccursAt(s, "0x", address) || !HexRun(s, address + 2, 40) then None
          else
            var amount, recipient := s[amountStart..amountEnd], s[address..address + 42];
            assert recipient[..2] == s[address..][..2];
            Some((amount, recipient))
  }

  /** `re.search` with the transfer pattern: the leftmost match. */
  function MatchTransfer(s: string): (r: Option<(string, string)>)
    ensures r.Some? ==> exists i: nat | i <= |s| :: TransferAt(s, i) == r && forall j: nat :: j < i ==> TransferAt(s, j).None?
    ensures r.None? ==> forall i: nat :: TransferAt(s, i).None?
  {
    var p := (i: nat) => TransferAt(s, i).Some?;
    assert forall j: nat :: p(j) == TransferAt(s, j).Some?;
    match FirstIndex(p, 0, |s| + 1)
    case None =>
      assert forall i: nat :: i > |s| ==> !OccursAt(s, "transfer", i);
      None
    case Some(i) => TransferAt(s, i)
  }

  /** What `TransferAt` finds is a match of the pattern, with the groups it
      captures. */
  lemma TransferAtSound(s: string, i: nat)
    requires TransferAt(s, i).Some?
    ensures exists a: nat, b: nat, e: nat, t: nat, c: nat :: TransferSplit(s, i, a, b, e, t, c)
              && TransferAt(s, i) == Some((s[a..b], s[c..c + 42]))
  {
    var a := RunEnd(s, i + 8, IsSpace);
    var b := RunEnd(s, a, IsAmountChar);
    var e := RunEnd(s, b, IsSpace);
    var t := RunEnd(s, e + 3, IsSpace);
    var c := RunEnd(s, t + 2, IsSpace);
    assert TransferSplit(s, i, a, b, e, t, c);
  }

  /** In a match, every run of the pattern is as long as it can be. */
  lemma SplitRunsAreMaximal(s: string, i: nat, a: nat, b: nat, e: nat, t: nat, c: nat)
    requires TransferSplit(s, i, a, b, e, t, c)
    ensures RunEnd(s, i + 8, IsSpace) == a && RunEnd(s, a, IsAmountChar) == b && RunEnd(s, b, IsSpace) == e
    ensures RunEnd(s, e + 3, IsSpace) == t && RunEnd(s, t + 2, IsSpace) == c
  {
    assert RunEnd(s, i + 8, IsSpace) == a by {
      assert IsAmountChar(s[a]);
      RunIsMaximal(s, i + 8, a, IsSpace);
    }
    assert RunEnd(s, a, IsAmountChar) == b by {
      assert b < e ==> IsSpace(s[b]);
      assert b == e ==> s[b] == s[e..][..3][0];
      RunIsMaximal(s, a, b, IsAmountChar);
    }
    assert RunEnd(s, b, IsSpace) == e by {
      assert s[e] == s[e..][..3][0];
      RunIsMaximal(s, b, e, IsSpace);
    }
    assert RunEnd(s, e + 3, IsSpace) == t by {
      assert s[t] == s[t..][..2][0];
      RunIsMaximal(s, e + 3, t, IsSpace);
    }
    assert RunEnd(s, t + 2, IsSpace) == c by {
      assert s[c] == s[c..][..2][0];
      RunIsMaximal(s, t + 2, c, IsSpace);
    }
  }

  /** Every match of the pattern at `i` is found by `TransferAt`, with the
      same groups: the split of a match is unique. */
  lemma TransferAtComplete(s: string, i: nat, a: nat, b: nat, e: nat, t: nat, c: nat)
    requires TransferSplit(s, i, a, b, e, t, c)
    ensures TransferAt(s, i) == Some((s[a..b], s[c..c + 42]))
  {
    SplitRunsAreMaximal(s, i, a, b, e, t, c);
  }

  /** `re.search` with the transfer pattern finds nothing exactly when the
      pattern matches at no position. */
  lemma MatchTransferNone(s: string)
    ensures MatchTransfer(s).None? <==>
              forall i: nat, a: nat, b: nat, e: nat, t: nat, c: nat :: !TransferSplit(s, i, a, b, e, t, c)
  {
    if MatchTransfer(s).None? {
      forall i: nat, a: nat, b: nat, e: nat, t: nat, c: nat | TransferSplit(s, i, a, b, e, t, c)
        ensures false
      {
        TransferAtComplete(s, i, a, b, e, t, c);
      }
    } else {
      var i: nat :| i <= |s| && TransferAt(s, i) == MatchTransfer(s);
      TransferAtSound(s, i);
    }
  }

  function DotCount(t: string): (n: nat)
    ensures n <= |t|
  {
    if t == [] then 0 else (if t[0] == '.' then 1 else 0) + DotCount(t[1..])
  }

  /** `float(t)` succeeds for a text of digits and dots exactly when it has at
      most one dot and at least one digit ("1.", ".5" and "15" are accepted,
      "." and "1.2.3" are not). */
  predicate FloatAccepts(t: string) {
    DotCount(t) <= 1 && exists k | 0 <= k < |t| :: IsDigit(t[k])
  }

  /** `chat`: lower-cases the input and takes the first branch whose condition
      holds. The balance-of branch never falls through; a balance is queried
      only for a well-formed address; the own-balance branch queries nothing
      without a wallet; the transfer branch never sends (it fails on `float`
      or on the undefined `WEB3`); a status is queried only for a well-formed
      hash; everything else goes to the assistant as the lower-cased text. */
  function Chat(chatInput: Option<string>, currentAddress: Option<string>): (r: ChatReply)
    ensures chatInput.None? ==> r == ServerError(MissingChatInput)
    ensures chatInput.Some? && AsksBalanceOf(Lower(chatInput.value)) ==>
              match MatchBalanceOf(Lower(chatInput.value))
              case Some(address) => r == QueryBalance(address)
              case None => r == Answer(BalanceOfUsage)
    ensures r.QueryBalance? ==>
              r.address != "" && chatInput.Some? &&
              ((AsksBalanceOf(Lower(chatInput.value)) && |r.address| == 42 && HexRun(r.address, 2, 40)) ||
               (!AsksBalanceOf(Lower(chatInput.value)) && AsksOwnBalance(Lower(chatInput.value))
                && currentAddress == Some(r.address)))
    ensures (chatInput.Some? && !AsksBalanceOf(Lower(chatInput.value)) && AsksOwnBalance(Lower(chatInput.value))
             && !Truthy(currentAddress)) ==> r == Answer(NoWalletForBalance)
    ensures (chatInput.Some? && !AsksBalanceOf(Lower(chatInput.value)) && !AsksOwnBalance(Lower(chatInput.value))
             && AsksTransfer(Lower(chatInput.value))) ==>
              match MatchTransfer(Lower(chatInput.value))
              case None => r == Answer(TransferUsage)
              case Some((amount, _)) =>
                r == ServerError(if FloatAccepts(amount) then Web3Undefined else FloatRejected(amount))
    ensures r.QueryTxStatus? ==>
              chatInput.Some? && AsksTxStatus(Lower(chatInput.value))
              && !AsksBalanceOf(Lower(chatInput.value)) && !AsksOwnBalance(Lower(chatInput.value))
              && !AsksTransfer(Lower(chatInput.value)) && !AsksGasEstimate(Lower(chatInput.value))
              && MatchTxHash(Lower(chatInput.value)) == Some(r.txHash)
    ensures (chatInput.Some? && !AsksBalanceOf(Lower(chatInput.value)) && AsksOwnBalance(Lower(chatInput.value))
             && Truthy(currentAddress)) ==> r == QueryBalance(currentAddress.value)
    ensures (chatInput.Some? && !AsksBalanceOf(Lower(chatInput.value)) && !AsksOwnBalance(Lower(chatInput.value))
             && !AsksTransfer(Lower(chatInput.value)) && AsksGasEstimate(Lower(chatInput.value))) ==>
              r == Answer(GasEstimateHelp)
    ensures (chatInput.Some? && !AsksBalanceOf(Lower(chatInput.value)) && !AsksOwnBalance(Lower(chatInput.value))
             && !AsksTransfer(Lower(chatInput.value)) && !AsksGasEstimate(Lower(chatInput.value))
             && AsksTxStatus(Lower(chatInput.value))) ==>
              match MatchTxHash(Lower(chatInput.value))
              case Some(txHash) => r == QueryTxStatus(txHash)
              case None => r == Answer(TxStatusUsage)
    ensures r.AskAssistant? <==>
              chatInput.Some? && !AsksBalanceOf(Lower(chatInput.value)) && !AsksOwnBalance(Lower(chatInput.value))
              && !AsksTransfer(Lower(chatInput.value)) && !AsksGasEstimate(Lower(chatInput.value))
              && !AsksTxStatus(Lower(chatInput.value))
    ensures r.AskAssistant? ==> r.prompt == Lower(chatInput.value)
  {
    if chatInput.None? then ServerError(MissingChatInput)
    else
      var t := Lower(chatInput.value);
      if AsksBalanceOf(t) then
        match MatchBalanceOf(t)
        case Some(address) => QueryBalance(address)
        case None => Answer(BalanceOfUsage)
      else if AsksOwnBalance(t) then
        if Truthy(currentAddress) then QueryBalance(currentAddress.value) else Answer(NoWalletForBalance)
      else if AsksTransfer(t) then
        match MatchTransfer(t)
        case Some((amount, _)) =>
          if FloatAccepts(amount) then ServerError(Web3Undefined) else ServerError(FloatRejected(amount))
        case None => Answer(TransferUsage)
      else if AsksGasEstimate(t) then Answer(GasEstimateHelp)
      else if AsksTxStatus(t) then
        match MatchTxHash(t)
        case Some(txHash) => QueryTxStatus(txHash)
        case None => Answer(TxStatusUsage)
      else AskAssistant(t)
  }

  /** The router depends on the input only through its lower-cased form. */
  lemma {:induction false} ChatIgnoresCase(chatInput: string, currentAddress: Option<string>)
    ensures Chat(Some(chatInput), currentAddress) == Chat(Some(Lower(chatInput)), currentAddress)
  {
    LowerIdempotent(chatInput);
  }

  // ---------------------------------------------------------------------
  // /interact

  /** The fields of the `/interact` request; a missing key is `None`. */
  datatype InteractRequest = InteractRequest(
    abi: Option<seq<AbiEntry>>, contractAddress: Option<string>,
    methodName: Option<string>, args: Option<seq<Value>>)

  /** 200 `{'result': ...}`, or an error code with `{'error': ...}`. */
  datatype InteractReply = Forwarded(result: InteractResult) | Refused(code: nat, error: string)

  const NoWalletForInteract := "No wallet connected. Please connect your wallet first for transaction methods."
  /** The TypeError of passing `is_transaction=` to `interact_with_contract`. */
  const UnexpectedKeyword := "interact_with_contract() got an unexpected keyword argument 'is_transaction'"

  /** The index `next(...)` stops at: the first function entry named `methodName`. */
  function FirstFunctionEntry(abi: seq<AbiEntry>, methodName: string): (r: Option<nat>)
    ensures r.Some? ==> r.value < |abi| && NamesFunction(abi[r.value], methodName)
    ensures r.Some? ==> forall j :: 0 <= j < r.value ==> !NamesFunction(abi[j], methodName)
    ensures r.None? <==> !Declares(abi, methodName)
  {
    var p := (i: nat) => i < |abi| && NamesFunction(abi[i], methodName);
    assert forall j: nat :: p(j) == (j < |abi| && NamesFunction(abi[j], methodName));
    FirstIndex(p, 0, |abi|)
  }

  /** `is_read_only` of `/interact`: the FIRST function entry of that name is
      view or pure. A method absent from the ABI is not read-only. */
  function IsReadOnly(abi: seq<AbiEntry>, methodName: string): (r: bool)
    ensures r <==> exists i | 0 <= i < |abi| ::
              NamesFunction(abi[i], methodName) && !Writes(abi[i])
              && forall j | 0 <= j < i :: !NamesFunction(abi[j], methodName)
    ensures r ==> Declares(abi, methodName)
  {
    match FirstFunctionEntry(abi, methodName)
    case None => false
    case Some(i) =>
      assert forall k | 0 <= k < |abi| && NamesFunction(abi[k], methodName)
                      && (forall j | 0 <= j < k :: !NamesFunction(abi[j], methodName)) :: k == i;
      !Writes(abi[i])
  }

  /** When every function entry of that name agrees on its mutability, the
      route's pre-check and the gateway's classification agree. */
  lemma {:induction false} ClassificationsAgree(abi: seq<AbiEntry>, methodName: string)
    requires forall i, j | 0 <= i < |abi| && 0 <= j < |abi| ::
               NamesFunction(abi[i], methodName) && NamesFunction(abi[j], methodName) ==> Writes(abi[i]) == Writes(abi[j])
    ensures IsReadOnly(abi, methodName) <==> Declares(abi, methodName) && !IsTransaction(abi, methodName)
  {
    if Declares(abi, methodName) {
      var i := FirstFunctionEntry(abi, methodName).value;
      if IsTransaction(abi, methodName) {
        var k :| 0 <= k < |abi| && NamesFunction(abi[k], methodName) && Writes(abi[k]);
        assert Writes(abi[i]);
      }
    }
  }

  /** With two entries of one name, a view one first and a writing one second,
      the route calls the method read-only while the gateway treats it as a
      transaction. */
  lemma ClassificationsCanDisagree()
    ensures var abi := [AbiEntry(Some("f"), Some("function"), Some("view")),
                        AbiEntry(Some("f"), Some("function"), Some("nonpayable"))];
            IsReadOnly(abi, "f") && IsTransaction(abi, "f")
  {
    var abi := [AbiEntry(Some("f"), Some("function"), Some("view")),
                AbiEntry(Some("f"), Some("function"), Some("nonpayable"))];
    assert NamesFunction(abi[0], "f") && !Writes(abi[0]);
    assert NamesFunction(abi[1], "f") && Writes(abi[1]);
  }

  /** `interact`. Missing required keys answer 500 with the key's name; a
      method that is not read-only with no wallet answers 400 without calling
      the gateway; every other request reaches the call with the unaccepted
      `is_transaction=` keyword, which raises a TypeError (500). */
  function InteractRoute(req: InteractRequest, currentAddress: Option<string>): (r: InteractReply)
    ensures r.Refused?
    ensures req.abi.None? ==> r == Refused(500, "'abi'")
    ensures req.abi.Some? && req.contractAddress.None? ==> r == Refused(500, "'contract_address'")
    ensures req.abi.Some? && req.contractAddress.Some? && req.methodName.None? ==> r == Refused(500, "'method'")
    ensures r.code == 400 <==>
              req.abi.Some? && req.contractAddress.Some? && req.methodName.Some?
              && !IsReadOnly(req.abi.value, req.methodName.value) && !Truthy(currentAddress)
    ensures r.code == 400 ==> r.error == NoWalletForInteract
    ensures r.code != 400 ==> r.code == 500
    ensures req.abi.Some? && req.contractAddress.Some? && req.methodName.Some? && r.code == 500 ==>
              r.error == UnexpectedKeyword
  {
    if req.abi.None? then Refused(500, "'abi'")
    else if req.contractAddress.None? then Refused(500, "'contract_address'")
    else if req.methodName.None? then Refused(500, "'method'")
    else if !IsReadOnly(req.abi.value, req.methodName.value) && !Truthy(currentAddress) then
      Refused(400, NoWalletForInteract)
    else Refused(500, UnexpectedKeyword)
  }
}
