# ETEC Connect banking core, modelled in Dafny

This project models the logic at the heart of the ETEC Connect banking app.

- **The PIX ledger** (`Ledger`). A hash-chained list of blocks:
  - a `Block` seals a batch of transactions by proof of work;
  - a `Blockchain` owns the chain, the mining difficulty and the buffer of pending transactions.
  - It can append a block, check the chain, and list every transaction except the reserved genesis entry.
- **The contextual prompt scheduler** (`ContextualPrompts`):
  - a fixed table of five guided prompts;
  - a priority rule that picks the prompt to show;
  - a session that steps through the prompt on screen and records completed prompts.
- **The smart form validators** (`SmartFormValidation`):
  - PIX-key classification (e-mail, CPF, phone, random key);
  - the description length bands;
  - the phone and e-mail shapes;
  - the "required field" rule;
  - the suggestion lists.
  - Each regular expression is a predicate over the characters of the input.
- **The login lockout** (`LoginForm`). A failed-attempt counter: three wrong submissions lock the form.
- **The transaction history** (`TransactionHistory`):
  - the order-preserving search-and-type filter;
  - the grouping of the kept transactions by calendar day.

`Text` holds what several of these share:

- the characters of JavaScript's `\s` and `\d`;
- emptiness after `trim`;
- `includes`;
- the two character strippers.

`Wrappers` holds `Option`.

Each piece keeps the form of the code it models:

- Objects whose fields change in place are classes with `modifies` clauses: `Block`, `Blockchain`, `PromptSession` and `LoginForm`.
- Their methods are proved against value-level functions: `HashOf`, `ChainValid`, `IsSeal`, `AllTransactions`, `DeterminePromptToShow`, `Submit` and `OnDay`.
- The properties the code promises are lemmas about those functions.

How the outside world enters the model:

- SHA-256 is a parameter of type `Digest`. Nothing about it is assumed, except in `ContentTamperDetected`. That lemma requires only that the digest tells the original block and its forgery apart (`Separates`). No digest can be collision-free on all inputs, because amounts are real numbers and hashes are strings.
- The clock (`new Date().toISOString()`) is a parameter `now`.
- `toLowerCase`, the pt-BR date key, the amount validator and the amount formatter are function parameters.

## Model

| member | source | states |
|---|---|---|
| Ledger.MeetsDifficultyIff | src/blockchain/blockchain.ts:41 | The mining target `hash.startsWith("0".repeat(d))` holds exactly when the hash has at least `d` characters and the first `d` are `'0'`. |
| Ledger.Block.constructor | src/blockchain/blockchain.ts:21-28 | A new block has the given index, transactions and previous hash, with the previous hash defaulting to `""`. Its timestamp is the clock, its nonce is 0, and its hash is `calculateHash()` of those fields. |
| Ledger.Block.CalculateHash | src/blockchain/blockchain.ts:30-38 | The hash is the digest of index, previous hash, timestamp, transactions and nonce, in that order. |
| Ledger.Block.MineBlock | src/blockchain/blockchain.ts:40-45 | Mining leaves index, timestamp, transactions and previous hash alone, and the nonce only goes up. `sealed` says whether the hash meets the difficulty. When the nonce moved, the hash is `calculateHash()` of the new fields and the stored starting hash missed the target. A block whose stored hash was already `calculateHash()` still carries `calculateHash()` afterwards. A stale stored hash that already meets the target is kept as is, as in the source. Every nonce skipped along the way missed the target. |
| Ledger.SealIsUnique | src/blockchain/blockchain.ts:40-45 | Mining is deterministic: two blocks sealed from the same inputs are equal, nonce and hash included. |
| Ledger.Blockchain.CreateGenesisBlock | src/blockchain/blockchain.ts:59-73 | The genesis block is fresh and has index 0, previous hash `"0"` and nonce 0. It holds exactly one transaction, with id `"genesis"` and amount 0. Its hash is the hash of its fields. |
| Ledger.Blockchain.constructor | src/blockchain/blockchain.ts:53-57 | A ledger with nothing stored holds only a fresh genesis block, difficulty 2 and an empty buffer. It is valid, and it lists no transactions. |
| Ledger.Blockchain.GetLatestBlock | src/blockchain/blockchain.ts:75-77 | The latest block is in the chain and carries the highest index, `length - 1`. |
| Ledger.Blockchain.AddTransaction | src/blockchain/blockchain.ts:79-81 | The transaction is appended to the end of the pending buffer. The chain, its blocks and the difficulty are unchanged. |
| Ledger.Blockchain.MineNewBlock | src/blockchain/blockchain.ts:84-89 | The block built over the buffer is fresh, sits at the given index and uses the chain's digest. When mining succeeds it is the unique seal of its inputs. |
| Ledger.Blockchain.MinePendingTransactions | src/blockchain/blockchain.ts:83-93 | On success the chain grows by exactly one fresh block and every earlier block is untouched. The new block has index = old length and previous hash = the old tip's hash. Its transactions are the old buffer in order, and its nonce and hash are the seal. The buffer is emptied and the listing gains exactly the new non-genesis transactions, at the end. Chain validity is preserved. If mining runs out of attempts, nothing changes. |
| Ledger.Blockchain.IsChainValid | src/blockchain/blockchain.ts:95-103 | For any chain, empty or with blocks changed through an alias, it returns true iff every block `i` in `[1, length)` carries the hash of its own fields and names block `i-1`'s hash. The only precondition is that every block hashes with the chain's digest, which is fixed when the block is built. |
| Ledger.ChainValidAppend | src/blockchain/blockchain.ts:83-103 | Appending a block that is linked to the tip and hashed correctly keeps a valid chain valid. Together with the constructor and `MinePendingTransactions`, this keeps every chain built by adding and mining valid. |
| Ledger.PreviousHashTamperDetected | src/blockchain/blockchain.ts:100 | Setting any block after the first to a previous hash other than its predecessor's hash makes the chain invalid. |
| Ledger.ContentTamperDetected | src/blockchain/blockchain.ts:99 | If the digest gives a block after the first and its forgery different hashes, changing any of the block's fields while keeping its stored hash makes a valid chain invalid. |
| Ledger.SeparatesIsSatisfiable | src/blockchain/blockchain.ts:99 | For any block and forgery, some digest tells them apart, so `ContentTamperDetected`'s hypothesis can be met. |
| Ledger.GenesisIsNotChecked | src/blockchain/blockchain.ts:96 | Block 0 is never checked: replacing its fields but not its hash keeps a valid chain valid. |
| Ledger.NonGenesis | src/blockchain/blockchain.ts:126 | The filter keeps exactly the transactions whose id is not `"genesis"`. A single non-genesis transaction is kept as it is. |
| Ledger.NonGenesisAppend | src/blockchain/blockchain.ts:126 | Filtering a concatenation concatenates the filtered parts. With the one-element case, this fixes the order and the number of copies of every kept transaction. |
| Ledger.AllTransactions | src/blockchain/blockchain.ts:124-128 | The flattened listing never contains the id `"genesis"`. |
| Ledger.AllTransactionsAppend | src/blockchain/blockchain.ts:124-128 | Adding a block adds exactly its non-genesis transactions, at the end of the listing. |
| Ledger.AllTransactionsMembership | src/blockchain/blockchain.ts:124-128 | A transaction is listed iff some block holds it and its id is not `"genesis"`. |
| Ledger.Blockchain.GetAllTransactions | src/blockchain/blockchain.ts:124-128 | The ledger's listing never contains the id `"genesis"`. |
| ContextualPrompts.FindPrompt | src/components/ai/contextual-prompts.tsx:117 | `find(...) \|\| null` returns a prompt from the table with the requested id, and returns null iff no prompt has that id. |
| ContextualPrompts.FindPromptIsFirst | src/components/ai/contextual-prompts.tsx:117 | The prompt returned is the first with that id: it sits at some position `k` of the table, and no earlier entry has the id. |
| ContextualPrompts.DeterminePromptToShow | src/components/ai/contextual-prompts.tsx:114-136 | The chosen prompt comes from the table and is not completed. It is never `spending-analysis`, and it has four steps. |
| ContextualPrompts.SelectionRules | src/components/ai/contextual-prompts.tsx:114-136 | The priority order, as an iff for each prompt. Welcome is chosen iff it is the first visit on the dashboard and it is not completed. The PIX tutorial is chosen iff welcome is not and the page is `pix` without `pix-used`. Security tips are chosen iff no earlier rule applies and `multiple-transactions` is present. Goal setting is chosen iff no earlier rule applies and `high-balance` is present. Nothing is chosen iff no rule applies. |
| ContextualPrompts.AllCompletedShowsNothing | src/components/ai/contextual-prompts.tsx:114-136 | Once the four selectable prompts are completed, no prompt is chosen in any context. |
| ContextualPrompts.CompletionIsFinal | src/components/ai/contextual-prompts.tsx:114-136 | After the chosen prompt's id is added to the completed list, the same context no longer chooses it. |
| ContextualPrompts.PromptSession.constructor | src/components/ai/contextual-prompts.tsx:39-42 | The session starts with no prompt, step 0, nothing completed and nothing visible. |
| ContextualPrompts.PromptSession.Activate | src/components/ai/contextual-prompts.tsx:138-145 | A chosen prompt is activated only when none is active. Activation sets the step to 0 and makes the prompt visible. Otherwise nothing changes, and the completed list is never touched. |
| ContextualPrompts.PromptSession.HandleNextStep | src/components/ai/contextual-prompts.tsx:147-153 | Below the last step, the step rises by one and nothing else changes. Otherwise the prompt is completed and closed. The step always stays within the active prompt's steps. |
| ContextualPrompts.PromptSession.HandleCompletePrompt | src/components/ai/contextual-prompts.tsx:155-163 | The active prompt's id is appended to the completed list and reported, then the prompt is closed. With no active prompt, nothing is recorded or reported. |
| ContextualPrompts.PromptSession.HandleClosePrompt | src/components/ai/contextual-prompts.tsx:165-171 | The prompt is hidden and cleared and the step is reset to 0. The completed list is unchanged, so a skipped prompt can be chosen again. |
| Text.RemoveWhitespace | src/components/ai/smart-form-validation.tsx:106 | `replace(/\s/g, '')` leaves no whitespace, keeps every other character, and leaves text without whitespace unchanged. |
| Text.RemoveWhitespaceAppend | src/components/ai/smart-form-validation.tsx:106 | Stripping a concatenation concatenates the stripped parts. With the case of text without whitespace, this fixes the order and the number of copies of every kept character. |
| Text.KeepDigits | src/components/ai/smart-form-validation.tsx:95 | `replace(/\D/g, '')` leaves only ASCII digits and keeps every digit. A single digit is kept as it is. |
| Text.KeepDigitsAppend | src/components/ai/smart-form-validation.tsx:95 | Stripping a concatenation concatenates the stripped parts. With the one-digit case, this fixes the order and the number of digits kept, which is what the 11-digit CPF test counts. |
| Text.ContainsAt | src/components/banking/transaction-history.tsx:36 | `includes(sub)` holds iff `sub` occurs as a contiguous block at some position. |
| Text.ContainsEmpty | src/components/banking/transaction-history.tsx:36 | Every string includes the empty string. |
| SmartFormValidation.EmailShapeHasOneAt | src/components/ai/smart-form-validation.tsx:76 | A string that passes the e-mail regex has no whitespace and exactly one `'@'`, which is neither first nor last. |
| SmartFormValidation.CpfTestCountsDigits | src/components/ai/smart-form-validation.tsx:94-95 | The CPF regex runs on the digits only, so its dotted alternative can never match. The test passes iff the key holds exactly 11 digits. |
| SmartFormValidation.PhoneTestShapes | src/components/ai/smart-form-validation.tsx:105-106 | After whitespace is removed, the phone regex accepts exactly two shapes: `+?5511` followed by 8 or 9 digits, or `(11)` followed by 4 or 5 digits, an optional `-` and 4 digits. |
| SmartFormValidation.RandomKeyIsNotEmail | src/components/ai/smart-form-validation.tsx:115 | A key passing the random-key test (at least 32 characters, all hex digits or `-`, either case) has no `'@'`, so it never has the e-mail shape. |
| SmartFormValidation.RandomKeyIsNotPhone | src/components/ai/smart-form-validation.tsx:115 | A key passing the random-key test never has a phone shape: it has no blank, `+` or `(`, and it is too long. |
| SmartFormValidation.RandomKeyClassification | src/components/ai/smart-form-validation.tsx:93-122 | Because the CPF test runs first, a random-shaped key gets the random-key message iff it does not hold exactly 11 digits, and the CPF message iff it does. |
| SmartFormValidation.ValidatePixKey | src/components/ai/smart-form-validation.tsx:74-130 | Every PIX-key result is invalid exactly when its type is `error`. |
| SmartFormValidation.PixKeyClassification | src/components/ai/smart-form-validation.tsx:74-130 | A key is accepted iff it is an e-mail, 11 digits, a phone or a random key. Each message is given exactly when that branch is the first to match: the ETEC message for institutional e-mails, then e-mail, CPF, phone and random key. |
| SmartFormValidation.ValidateDescription | src/components/ai/smart-form-validation.tsx:189-221 | A blank description is valid with an empty message. One over 100 characters is invalid. One under 3 characters is valid with type `info`. Otherwise it is valid with type `success`, with the "detalhada" message iff it is over 10 characters. It is invalid exactly when its type is `error`. |
| SmartFormValidation.ValidatePhone | src/components/ai/smart-form-validation.tsx:223-239 | A phone number is valid iff the whitespace-free text has a phone shape. It is invalid exactly when its type is `error`. |
| SmartFormValidation.ValidateEmail | src/components/ai/smart-form-validation.tsx:241-265 | An e-mail is valid iff it has the local@domain.tld shape. It gets the institutional message iff it is valid and contains an ETEC domain. It is invalid exactly when its type is `error`. |
| SmartFormValidation.ValidateInput | src/components/ai/smart-form-validation.tsx:48-72 | A blank value is refused, as an `error`, iff the field is not the description. The description is optional: a blank one is accepted with an empty message, and any description gets `validateDescription`'s verdict. Non-blank amounts, PIX keys, phones and e-mails go to their own validators, so a phone is valid iff its whitespace-free text has a phone shape, and an e-mail iff it has the e-mail shape. Results are invalid exactly when their type is `error`, provided the amount validator's are too. |
| SmartFormValidation.GenerateSuggestions | src/components/ai/smart-form-validation.tsx:268-295 | Amounts get the four common amounts. When recent transactions exist, these are preceded by the formatted average, making five entries. PIX keys get 4 suggestions, descriptions 5, and phone and e-mail none. |
| LoginForm.Submit | src/components/banking/login-form.tsx:21-62 | At 3 attempts or more, the form is locked and the counter is unchanged. Empty fields are refused and the counter is unchanged. Exactly `etec`/`123456` signs in with those credentials and the counter is unchanged. Any other credentials are refused, raise the counter by 1 and report `3 - (old + 1)` remaining attempts. |
| LoginForm.ReplayCountsRefusals | src/components/banking/login-form.tsx:21-62 | Over any sequence of submissions, the counter rises by exactly the number of refusals and never passes 3 when it starts at or below it. |
| LoginForm.LockoutIsPermanent | src/components/banking/login-form.tsx:24-31 | Once the counter reaches 3, every later submission, even the right password, is refused as locked, and the counter stays put. |
| LoginForm.LoginForm.constructor | src/components/banking/login-form.tsx:14-18 | The form starts with empty fields, not loading, and no failed attempts. |
| LoginForm.LoginForm.HandleSubmit | src/components/banking/login-form.tsx:21-62 | The outcome and the new counter are those of `Submit` on the old state. The typed fields are kept. `isLoading` is unchanged when the form is locked or a field is missing, and false once credentials were checked. |
| TransactionHistory.FilterTransactions | src/components/banking/transaction-history.tsx:35-40 | The filtered list is an order-preserving subsequence of the input. It holds a transaction iff the lower-cased description or category contains the lower-cased search term and the type filter is `all` or equals its type. |
| TransactionHistory.FilterTransactionsAppend | src/components/banking/transaction-history.tsx:35-40 | Filtering a concatenation concatenates the filtered parts, so every kept transaction appears as often, and in the same order, as in the input. |
| TransactionHistory.EmptySearchKeepsAll | src/components/banking/transaction-history.tsx:36-38 | With an empty search and the `all` filter, every transaction is kept, in order. |
| TransactionHistory.TypeFiltersPartitionAll | src/components/banking/transaction-history.tsx:38 | For a fixed search, the `income` and `expense` results are the income and expense entries of the `all` result, so together they split it. |
| TransactionHistory.OnDay | src/components/banking/transaction-history.tsx:42-49 | A day's group holds exactly the transactions with that date key. A single transaction of that day forms the group by itself. |
| TransactionHistory.OnDayAppend | src/components/banking/transaction-history.tsx:42-49 | The group of a concatenation concatenates the groups of the parts, so each group keeps filtered order and every copy of each transaction. |
| TransactionHistory.GroupByDate | src/components/banking/transaction-history.tsx:42-49 | There is a group for a day iff some filtered transaction has that date key. Each group is that day's transactions in filtered order. Every filtered transaction is in the group of its own day and in no other. |

## Left out

- Persistence is not part of this model: `saveChain`, `loadChain`, `JSON.parse`/`Object.assign` revival and all of src/blockchain/storage.ts. The `Blockchain` constructor models the path where nothing is stored, which is a genesis-only chain.
  - A stored `"[]"` would revive an empty chain, and `getLatestBlock` would then return `chain[-1]`, which is `undefined`. `minePendingTransactions` would then throw a TypeError when it reads `.hash` (src/blockchain/blockchain.ts:76, 87). `Valid()` rules this state out.
  - storage.ts uses a different storage key (`etecbank_blockchain`) from blockchain.ts (`pix_blockchain`).
- src/blockchain/useBlockchain.ts, a React hook over a shared ledger that mines right after each addition, is not part of this model.
- Ledger.Block.MineBlock: the source loop has no bound and ends only when a hash meets the target. The model tries at most `maxAttempts` nonces and reports whether it sealed the block.
- Ledger.Blockchain.MinePendingTransactions: when the attempt budget runs out, the model leaves the chain and the buffer unchanged. The source would keep mining.
- Ledger.HashOf: the string concatenation and `JSON.stringify` fed to SHA-256 are abstracted as a tuple of the fields. Two field tuples whose concatenations coincide are therefore distinct inputs here.
- Ledger.Blockchain.CreateGenesisBlock: the block's timestamp and the genesis transaction's timestamp are two clock reads in the source. The model uses one `now` for both.
- SHA-256 bits and hex output are not modelled: the digest is an arbitrary function.
- The `Block` objects that `getLatestBlock` returns could be changed by a caller. The model keeps that aliasing, and `Valid()` only constrains indices and digests. Transactions, by contrast, are values here. In the source, `addTransaction` keeps the caller's transaction object and the mined block keeps the buffer's array, so a caller who changes that object later also changes the content of a sealed block. The model cannot express this.
- `validateAmount` (parseFloat, balance comparisons, the average of recent amounts) is floating-point arithmetic. `ValidateInput` takes it as a function parameter.
- Money amounts are `real`. The average's `toFixed(2)` formatting is the `formatAmount` parameter of `GenerateSuggestions`.
- The unreachable `default:` branch of `validateInput` has no counterpart, because the field type has exactly the five cases.
- `desc.length` counts UTF-16 code units in the source. The model counts characters, so a description with characters outside the Basic Multilingual Plane can fall into a different band.
- `toLowerCase` and `new Date(date).toLocaleDateString('pt-BR')` are parameters (`lower`, `dateKey`). No case mapping or date parsing is modelled.
- The order of the groups as `Object.entries` lists them is not modelled: `GroupByDate` returns a map.
- The history's totals (count, income and expense sums) are display code and are not modelled. The count shown is the length of `FilterTransactions`.
- Timers are taken as immediate:
  - the 1.5 s simulated authentication in the login form, so `isLoading` is set and cleared within one submission;
  - the 300 ms delay before a closed prompt is cleared.
  - With the real delay, the activation effect can re-run while the closing prompt is still set and therefore activates nothing. It is not re-run when the prompt is finally cleared.
- ContextualPrompts.PromptSession.HandleCompletePrompt: the `onPromptComplete` callback is modelled as the returned id. Toast messages are modelled as the returned `SubmitOutcome`.
- UI rendering, icons, styling, and the show-password toggle are not modelled.
