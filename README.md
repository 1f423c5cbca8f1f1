# BlockSense core, modelled in Dafny

BlockSense is a small Flask web application over web3. It holds one wallet
account in process memory and sends Ether with it. It deploys and calls
contracts, and answers chat commands ("balance of 0x…", "transfer 0.1 eth
to 0x…", "tx status 0x…"). It also draws a mock block DAG and forwards
free-form questions and contract explanations to a hosted text-generation
API.

This project models the decisions the application makes around its library
calls, and proves what those decisions guarantee.

- `prelude.dfy` (module `Prelude`) holds the string tests the code uses:
  `startswith`, `in`, ASCII `lower`, and the digit classes of its fixed regular
  expressions. It also holds decimal rendering with injectivity,
  hexadecimal rendering, slice reversal, and a leftmost search.
- `evm_utils.dfy` (module `EvmUtils`) is the wallet and transaction gateway.
  - The chain node is a `Node` value whose function-typed fields answer each
    RPC, or raise. Key derivation and signing are a `Keys` value.
  - The process-wide `ACCOUNT` slot is the one field of class `Gateway`.
  - `Outcome` separates an exception that is *raised* from a text that is
    *returned*.
  - Every state-changing operation also returns the transaction dictionary it
    built. Its contract therefore pins down the nonce, the gas and the gas
    price.
- `routes.dfy` (module `Routes`) covers the request handlers of main.py that
  decide something: wallet-configuration validation, the ordered chat-command
  router over the lower-cased input, and the `/interact` pre-check. A handler
  maps the JSON fields (a missing key is `None`; see "## Left out" for `null`) to a reply record. Where a
  handler would call a gateway function, the reply names that call.
- `blockdag.dfy` (module `BlockDag`) is the mock DAG generator.
  - Every random draw is a nondeterministic `:|` choice within the bounds of
    its `random` call.
  - The proved structure therefore holds for every outcome: ids, parent
    counts, distinct parents, acyclicity, transaction bounds and reversed
    order.
- `ollama_utils.dfy` (module `OllamaUtils`) is the text-generation client:
  - the formatting loop, proved against a specification of the `contents`
    list;
  - the missing-key short-circuit;
  - reading the first candidate part from the response;
  - the two-message prompts.

The files of the application disagree with each other. Each function is
modelled against its own signature, and the replies of main.py are what its
calls then produce:

- main.py:7 imports `set_evm_node`, which evm_utils.py does not define. As
  written, main.py fails at import. The routes are modelled as if that import
  had succeeded, with `set_evm_node`'s possible exception as an input.
- main.py:40 calls the one-parameter `set_current_account` (evm_utils.py:15)
  with two arguments. It raises a TypeError, so `/set_wallet_config` answers
  400 for every request that passes validation, and no account is ever stored
  through it.
- main.py:104 uses `WEB3`, which main.py never imports. Every transfer command
  that matches the pattern therefore fails with a NameError (500), or earlier
  in `float`. Had it run, it would pass wei to `send_eth`, which expects ether
  (evm_utils.py:52).
- main.py:168 passes `is_transaction=`, which `interact_with_contract`
  (evm_utils.py:156) does not accept. Every `/interact` request that passes
  the pre-check answers 500 with that TypeError.
- main.py:140 calls `deploy_contract(abi, bytecode)`, but the signature
  (evm_utils.py:120) is `(bytecode, abi)`. The route is left out (see below).
  `DeployContract` models the function under its own signature.
- blockdag.py:39 carries the comment "newest block last", but the reversal
  puts the newest block first. The model follows the code (`NewestFirst`).
- The `/interact` pre-check reads the *first* ABI entry of the method's name.
  `interact_with_contract` asks whether *any* such entry writes. The two agree
  when all entries of that name agree (`ClassificationsAgree`), and not
  otherwise (`ClassificationsCanDisagree`).

## Model

| member | source | states |
|---|---|---|
| Prelude.Lower | main.py:78 | `.lower()` keeps the length; each ASCII upper-case letter becomes the lower-case letter at the same alphabet position, every other character is unchanged, and no upper-case ASCII letter remains |
| Prelude.LowerIdempotent | main.py:78 | lower-casing twice is the same as lower-casing once |
| EvmUtils.NormaliseKey | evm_utils.py:24-25 | the key always starts with "0x"; a key already starting with "0x" is unchanged; any other key becomes "0x" followed by the key |
| EvmUtils.NormaliseKeyIdempotent | evm_utils.py:24-25 | normalising twice equals normalising once |
| EvmUtils.Gateway.constructor | evm_utils.py:12 | the slot starts empty |
| EvmUtils.Gateway.SetCurrentAccount | evm_utils.py:15-32 | a derivation of the normalised key that yields a non-empty address returns and stores exactly that account (address and normalised key); success exactly when the slot holds an account; a derivation failure or an empty address clears the slot and raises ValueError "Invalid private key: " with the cause |
| EvmUtils.Gateway.GetCurrentAddress | evm_utils.py:35-37 | None exactly when no account is stored, otherwise exactly the stored account's non-empty address |
| EvmUtils.Gateway.ClearCurrentAccount | evm_utils.py:40-43 | afterwards the slot is empty and `GetCurrentAddress` is None; nothing else changes |
| EvmUtils.Gateway.SendEth | evm_utils.py:46-76 | without an account it raises the no-wallet Exception before any node call; with one it never raises; the signed transaction has the node's transaction count as nonce, gas 21000 and gasPrice 50 gwei; not-found and other failures are returned as their messages; status 1 gives the success text with the hash, any other status the failure text |
| EvmUtils.EstimateGas | evm_utils.py:89-103 | `from` is always sent; `to` exactly when the address is truthy, `value` exactly when it is positive, `data` exactly when it is truthy; the estimate or the error is reported with its prefix |
| EvmUtils.CheckTxStatus | evm_utils.py:106-117 | "pending or not found" exactly when there is no receipt, success exactly for status 1, failed exactly for a receipt with another status, and the error prefix followed by the exception's text exactly when the lookup raised |
| EvmUtils.ReceiptReportsAgree | evm_utils.py:69-72 | for the same receipt, `send_eth` reports success (failure) exactly when `check_tx_status` reports success (failure) |
| EvmUtils.Gateway.DeployContract | evm_utils.py:120-153 | without an account it raises the no-wallet Exception; otherwise every failure, a non-1 status included, is raised as "Contract deployment error: " followed by its cause, the binding, nonce and constructor-estimate failures checked in that order; the built transaction has gas = constructor estimate + 200000, the node's nonce and 50 gwei; it returns `contractAddress` exactly when the receipt has status 1 |
| EvmUtils.TransactionsAreDeclared | evm_utils.py:164-174 | a method classified as a transaction is always found in the ABI, so the transaction path is never cut short by the not-found check |
| EvmUtils.Gateway.InteractWithContract | evm_utils.py:156-199 | never raises; `is_transaction` is computed as "some function entry of that name is neither view nor pure"; an unknown method returns the not-found text before the account is consulted; the read path calls the method and never looks at the account; no account on the write path returns the no-wallet message as text; the write path uses gas 2000000 and the node's nonce; logic errors and other errors are returned with their own prefixes |
| Routes.SetWalletConfig | main.py:20-50 | a falsy private key gives 400 "Private key is required." before the node URL is looked at; a falsy URL gives 400 "EVM Node URL is required."; past validation the reply is 400 with `set_evm_node`'s error or the TypeError of the two-argument call |
| Routes.ClearWalletConfig | main.py:53-60 | clears the slot and answers 200 "Wallet configuration cleared." |
| Routes.MatchBalanceOf | main.py:83 | finds the leftmost "balance of 0x" followed by 40 hex characters; the captured group is that address (42 characters, "0x" then 40 hex digits); None exactly when no position matches |
| Routes.TransferAt | main.py:99 | a match at a position starts with "transfer", its amount is a non-empty run of digits and dots, and its recipient is "0x" followed by 40 hex digits |
| Routes.MatchTransfer | main.py:99 | the match is the one at the leftmost position where the transfer pattern matches; None exactly when it matches nowhere |
| Routes.TransferAtSound | main.py:99 | whatever `TransferAt` finds is a match of `transfer\s+([\d.]+)\s*eth\s+to\s+(0x[0-9a-fA-F]{40})` at that position, and its two results are exactly the two captured groups |
| Routes.SplitRunsAreMaximal | main.py:99 | in any match of the transfer pattern, each `\s+`, `\s*` and `[\d.]+` run extends as far as its class allows, so the split of a match is unique |
| Routes.TransferAtComplete | main.py:99 | every match of the transfer pattern at a position is found by `TransferAt`, with the same two groups |
| Routes.MatchTransferNone | main.py:99-100 | the search finds nothing exactly when the transfer pattern matches at no position of the text |
| Routes.MatchTxHash | main.py:115 | finds the leftmost "0x" followed by 64 hex characters, captured as 66 characters; None exactly when there is none |
| Routes.Chat | main.py:74-129 | the branches are tried in the order balance-of, own balance, transfer, gas estimate, tx status, assistant, and exactly one reply results; a balance is queried only for a well-formed address or the stored address; balance-of never falls through; the own-balance branch queries the stored address, or without a wallet answers the no-wallet text; the gas-estimate branch answers its help text; the transfer branch fails on `float` or on `WEB3`; the tx-status branch queries the leftmost well-formed hash, or answers its usage prompt when there is none; a missing `chat_input` is a 500 |
| Routes.ChatIgnoresCase | main.py:78 | the reply depends on the input only through its lower-cased form |
| Routes.FirstFunctionEntry | main.py:157-158 | the index of the first entry with that name and type "function"; None exactly when there is none |
| Routes.IsReadOnly | main.py:156-161 | true exactly when the first function entry of that name is view or pure; an absent method is not read-only |
| Routes.ClassificationsAgree | main.py:156-161 | when all function entries of that name agree on mutability, read-only by the route means declared and not a transaction by the gateway, and conversely |
| Routes.ClassificationsCanDisagree | main.py:157-160 | an ABI with a view entry followed by a writing entry of the same name is read-only for the route and a transaction for the gateway |
| Routes.InteractRoute | main.py:146-171 | missing keys answer 500 with the key's name, checked in the order `abi`, `contract_address`, `method`; a 400 no-wallet refusal happens exactly when all three are present, the method is not read-only and there is no current address, so the gateway is not called; every other request fails with the unexpected-keyword TypeError (500) |
| BlockDag.BlockIdInjective | blockdag.py:8 | different indices give different block ids |
| BlockDag.MockTransactions | blockdag.py:19-27 | exactly `tx_count` transfers, each between two "0x" + hex addresses drawn from [10^15, 10^16 - 1], with a value between 0.01 and 1.0 |
| BlockDag.GetBlockDagData | blockdag.py:5-39 | exactly max(num_blocks, 0) blocks; position k holds the block built at step `len - 1 - k`, with id "B" + step, a (num_blocks - step) * 2 minute offset, no parents for B0, [B0] for B1, 1 or 2 distinct earlier parents after that, 1 to 6 transactions matching `tx_count`, and producer "Miner-1" to "Miner-4" |
| BlockDag.IdsDistinct | blockdag.py:8 | no two blocks of the result share an id |
| BlockDag.ParentPresent | blockdag.py:12-17 | every parent id names a block of the result that stands later in the list |
| BlockDag.EdgePointsLater | blockdag.py:16-17 | a parent edge always points to a later position (an older block) |
| BlockDag.Acyclic | blockdag.py:11-17 | along any chain of parent edges the position strictly grows, so no chain returns to its start |
| BlockDag.GenesisOnlyRoot | blockdag.py:12-15 | the last block is B0, and it is the only block without parents |
| BlockDag.NewestFirst | blockdag.py:9 | minute offsets strictly grow along the list, from 2 for the first element to 2 * num_blocks for the last |
| OllamaUtils.FormattedStep | ollama_utils.py:21-30 | one loop step puts a system message's entry at the front, a user message's entry at the back, and changes nothing for any other role |
| OllamaUtils.FormatMessages | ollama_utils.py:19-30 | the loop builds exactly the system entries, last first, followed by the user entries in input order |
| OllamaUtils.ContentsCount | ollama_utils.py:21-30 | the contents collected for a role are as many as the messages with that role |
| OllamaUtils.FormattedLength | ollama_utils.py:21-30 | the output length is the number of system messages plus the number of user messages |
| OllamaUtils.FormattedOrder | ollama_utils.py:22-30 | every system entry precedes every user entry; system entries appear in reverse input order, user entries in input order |
| OllamaUtils.OtherRolesDropped | ollama_utils.py:21-30 | a message with a role other than "system" or "user" has no effect wherever it stands |
| OllamaUtils.ExtractReply | ollama_utils.py:41-44 | when `candidates[0].content.parts` is present and non-empty, the reply is `parts[0].text` (a missing `text` key is reported as an unexpected error); otherwise it is "No content generated or unexpected response: " with the body |
| OllamaUtils.CallGemini | ollama_utils.py:8-50 | an empty key returns the fixed error text and sends no request; otherwise the request carries the key and the formatted messages, and the reply is read from what comes back |
| OllamaUtils.PromptFormatted | ollama_utils.py:53-57 | a system-then-user prompt formats to the instruction entry followed by the caller's text |
| OllamaUtils.ExplainContract | ollama_utils.py:52-57 | the request contents are the contract-expert instruction followed by the code |
| OllamaUtils.ChatEvm | ollama_utils.py:59-64 | the request contents are the EVM-chatbot instruction followed by the user's input |

## Left out

- Every web3 and eth-account call (transaction count, gas estimation, signing, raw submission, receipt waiting, contract binding, `build_transaction`, `call`) is an oracle field of `Node` or `Keys`. What the library does inside is not modelled.
- `get_balance` (evm_utils.py:79-86) is not modelled. Its result is a float formatted with `.4f`. The chat router only names the balance query it would make (`QueryBalance`).
- Python floats are not modelled. Amounts are integer wei, so `estimate_gas`'s `value > 0` is a test on an integer. Mock transaction values are integer ten-thousandths, which is what `round(..., 4)` keeps. `float(...)` in the chat router is modelled only as accepting or rejecting the matched digits-and-dots text.
- The `timeout=300` waits, `datetime.now()` and `strftime` are left out. A block keeps its integer minute offset instead of a timestamp.
- Flask routing, `request.get_json` (a body that is not a JSON object included), `render_template` and the `/`, `/explain` and `/blockdag` routes only forward values and are left out. `/deploy` is left out too, because it calls `deploy_contract` with its two arguments swapped.
- The import of `set_evm_node` (main.py:7) fails before any route exists. The routes are modelled as if it had succeeded.
- Routes.Chat: `lower()` folds ASCII letters only, `\d` is `[0-9]` and `\s` is the `re.ASCII` class `[ \t\n\r\f\v]`. Unicode case folding, Unicode digits and the further characters Python's Unicode `\s` matches (`\x1c`-`\x1f`, `\x85`, non-breaking and other Unicode spaces) are not captured.
- Routes.Chat: a `chat_input` that is `null` or not a string is not modelled. In the source `.lower()` then fails with an AttributeError (500 with that message); the model only has a missing key, answered 500 "'chat_input'".
- Routes.InteractRoute: a missing key and a JSON `null` value are both `None`, and fields of other JSON types are not modelled. In the source a `null` `contract_address` still reaches the pre-check (400 without a wallet) and a `null` `method` matches the function entries that have no name; the model answers those requests as if the key were missing.
- EvmUtils.Gateway.InteractWithContract: web3's `getattr(contract.functions, method)` is modelled as "some function entry of the ABI carries that name". Overloading and the library's own attribute rules are not captured.
- ABI entries that are not dictionaries, and chat messages without `role` or `content` keys, are outside the model: every entry and message has the modelled fields.
- OllamaUtils.ExtractReply: only responses whose candidates, `content` and parts are JSON objects, and whose `text` is a string or absent, are modelled. In the source a `null` or non-string `text` is returned as it is (the route then answers that value), and a candidate, `content` or part of any other type (for example `null`) makes a `.get` or an index fail, which is answered with the "Unexpected error during Gemini API call: " text.
- OllamaUtils.CallGemini: the API key is a parameter rather than the environment variable read at import. The POST, `raise_for_status` and the JSON decoding are one oracle. In recent `requests` versions the JSON decoding error is also a `RequestException`, and would then be reported by the first `except` clause. The model reports it as "Error parsing JSON response.", the clause written for it. A decoded body that is not a JSON object is not modelled.
- BlockDag.GetBlockDagData: `random.sample` and `random.randint` are nondeterministic choices. Their distribution is not modelled, only their ranges and distinctness. `num_blocks` is an integer; other argument types are not modelled. Its default of 12 (blockdag.py:5), which the `/blockdag` route relies on, is not a default here: the caller passes the count.
- The private-key warning, the node connection at import (`INFURA_URL`) and `load_dotenv` are configuration and are not modelled.
