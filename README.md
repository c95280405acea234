# Card marketplace on StarkNet: offer lifecycle and test-harness encoders

This project models a StarkNet card marketplace and proves properties of the model. A card holder lists a card at a fixed price. Any other account can accept the offer, which swaps the card for payment in an ERC20 token, with a 5% fee going to a tax address. An owner sets the tax address and upgrades the contract behind its proxy. The contract's Cairo source is not part of this model. Its behaviour is taken from the test suite `tests/marketplace.py`, which drives one shared ledger through sequences of transactions. The model also covers the Python helpers those tests use to build calldata: the uint256 limb split, `str_to_felt`, `to_starknet_args`, `dict_to_tuple`, the fee `tax` and the multicall encoder `from_call_to_call_array`.

Modules:

- `Wrappers` (`wrappers.dfy`): `Option`, `Result` and `Outcome`. A call that reverts or raises returns a `Failure`/`Fail` value.
- `Misc` (`misc.dfy`): constants from `tests/utils/misc.py`:
  - `MIN_PRICE = 10^13`, `MAX_PRICE = 10^26` and `TAX_PERCENT = 50000` parts per million;
  - the price check and `tax`;
  - `to_uint`, `from_uint` and `uint`;
  - `str_to_felt`, built from a UTF-8 encoder and a big-endian reader. The encoder has a decoder that undoes it, so distinct texts have distinct encodings. The reader has its inverse, `to_bytes` at the same length, with round-trip lemmas in both directions.
- `StarknetArgs` (`starknet_args.dfy`): `to_starknet_args` is a method. Its loop appends to `items` and recurses, as in the source. It is proved against a recursive reference flattening. `dict_to_tuple` is a function.
- `TransactionSender` (`transaction_sender.dfy`): `from_call_to_call_array` is a loop method. It is proved against prefix-sum offsets and in-order concatenation. The keccak selector function is a parameter.
- `Marketplace` (`marketplace.dfy`): class `Marketplace` holds the ledger:
  - the offer map;
  - three maps standing in for the card registry and the payment token: card holder, token balance, and the allowance each account has granted the marketplace;
  - owner, tax address, collaborator addresses, implementation class hash and the `initialized` flag;
  - the log of emitted events.
  
  Every entry point that can be refused is a method that returns `Pass` or `Fail(error)`, and a refused call leaves every field unchanged. `IncreaseAllowance` cannot be refused in this model and returns nothing. Settlement is the pure function `Settle`, built from ERC20-style `Move` transfers.
- `MarketplaceTests` (`marketplace_tests.dfy`): one method per `test_*` function, plus two helpers. `Deploy` builds the common starting state, and `RefusedAcceptances` is the first half of the invalid-acceptance test. Each test method's postcondition states that test's assertions.

Facts about the modelled behaviour:

- `MAX_PRICE` is `10^26` (tests/utils/misc.py:25).
- `createOffer` checks only that the caller holds the card. It refuses with "caller does not own card" when the card does not exist or is held by someone else. No separate transfer-approval check is modelled.
- Event data is `[id.low, id.high, seller, price]` for OfferCreated, `[id.low, id.high]` for OfferCanceled and `[id.low, id.high, buyer]` for OfferAccepted.

`createOffer` checks ownership before the price. The tests cannot tell the two orders apart. `tests/utils/misc.py` defines `to_starknet_args` twice, at lines 29-43 and 163-177. The two copies are identical, and the later one is the one in effect.

## Model

| member | source | states |
|---|---|---|
| Misc.Tax | tests/utils/misc.py:150-151 | the fee is the floor of amount * TAX_PERCENT / 1_000_000: fee * 10^6 <= amount * 50000 < (fee + 1) * 10^6 |
| Misc.TaxIsFivePercent | tests/utils/misc.py:150-151 | the fee is amount / 20 rounded down; it never exceeds the amount; (amount - fee) + fee == amount |
| Misc.TaxMonotonic | tests/utils/misc.py:150-151 | a larger amount never has a smaller fee |
| Misc.ValidPrice | tests/utils/misc.py:24-25 | the price check; every price it lets through is positive, and both the fee and the seller's share of it are positive |
| Misc.PriceRange | tests/marketplace.py:48-62 | both bounds are inclusive: MIN_PRICE and MAX_PRICE pass, MIN_PRICE - 1 and MAX_PRICE + 1 are refused; the range is not empty |
| Misc.TaxAtTestedPrices | tests/marketplace.py:240-260 | tax(MIN_PRICE) = tax(MIN_PRICE + 19) = 5 * 10^11, so the seller of the "tricky" price keeps the 19 units lost to rounding |
| Misc.ToUint | tests/utils/misc.py:217-219 | to_uint(a) is the unique pair with low in [0, 2^128) and low + high * 2^128 == a |
| Misc.FromToUint | tests/utils/misc.py:217-224 | from_uint(to_uint(a)) == a for every integer a |
| Misc.FromUint | tests/utils/misc.py:222-224 | from_uint(u) splits back into u by to_uint whenever u.low is a 128-bit value |
| Misc.ToUintBounds | tests/utils/misc.py:217-219 | for 0 <= a < 2^256 the high limb is also in [0, 2^128) |
| Misc.Uint | tests/utils/misc.py:71-72 | uint(a, b) stands for a + b * 2^128 and equals to_uint of that value when a is below 2^128; so uint(a), with its default high limb 0, equals to_uint(a) |
| Misc.Utf8Char | tests/utils/misc.py:66-67 | a character encodes to 1 to 4 bytes; to exactly one byte iff it is ASCII; the leading byte announces the length; continuation bytes lie in [0x80, 0xC0) |
| Misc.Utf8CharRoundTrip | tests/utils/misc.py:66-67 | decoding a character's UTF-8 bytes gives back its code point |
| Misc.Utf8 | tests/utils/misc.py:66-67 | the UTF-8 bytes of a text number between 1 and 4 per character |
| Misc.Utf8RoundTrip | tests/utils/misc.py:66-67 | decoding the UTF-8 bytes of any text gives the text back |
| Misc.Utf8Injective | tests/utils/misc.py:66-67 | two texts with the same UTF-8 bytes are the same text |
| Misc.Utf8OfAscii | tests/utils/misc.py:66-67 | an ASCII text encodes to its character codes, one byte each |
| Misc.BigEndian | tests/utils/misc.py:68 | int.from_bytes(bs, 'big') is below 256^len(bs) |
| Misc.BigEndianRoundTrip | tests/utils/misc.py:68 | writing back with the same length gives the bytes read, so reading is injective per length |
| Misc.ToBigEndianRoundTrip | tests/utils/misc.py:68 | a number below 256^k written to k bytes reads back as itself |
| Misc.StrToFelt | tests/utils/misc.py:66-68 | str_to_felt(s) < 256^len(utf8(s)); written back in len(utf8(s)) bytes it gives the UTF-8 bytes of s, which decode to s, so no information is lost |
| Misc.StrToFeltBound | tests/utils/misc.py:66-68 | an ASCII string of at most 31 characters is below 2^248 |
| Misc.VersionFelt | tests/marketplace.py:11 | str_to_felt('0.2.0') == 0x302e322e30 |
| StarknetArgs.ToStarknetArgs | tests/utils/misc.py:163-177 | iterating a dict's values or a tuple's or list's items gives the reference flattening; a bare number is not iterable and fails |
| StarknetArgs.FlattenAllAppend | tests/utils/misc.py:163-177 | flattening preserves order: the flattening of xs + ys is the flattening of xs followed by that of ys |
| StarknetArgs.PieceLength | tests/utils/misc.py:163-177 | one element flattens to as many felts as it holds scalars plus lists |
| StarknetArgs.FlattenAllLength | tests/utils/misc.py:163-177 | the output length is the number of scalars plus the number of nested lists, so only lists get a prefix |
| StarknetArgs.FlattenScalars | tests/utils/misc.py:174-175 | scalars are appended unchanged and in order |
| StarknetArgs.ListOfScalars | tests/utils/misc.py:171-173 | a list of scalars contributes its length followed by the scalars' values, in order |
| StarknetArgs.FlattenAllPointwise | tests/utils/misc.py:163-177 | element sequences whose elements flatten alike flatten alike |
| StarknetArgs.DictToTuple | tests/utils/misc.py:159-160 | the result is a tuple of the dict's values in key order; non-dict values pass through unchanged; each dict value is itself converted by dict_to_tuple, at every depth; no item is a dict; the result is free of dicts at every depth iff every passed-through value is |
| StarknetArgs.NestedDictsConverted | tests/utils/misc.py:159-160 | three dicts nested in one another all become tuples |
| StarknetArgs.DictInsideTupleKept | tests/utils/misc.py:159-160 | a dict inside a tuple value is not converted, because only values whose type is dict are |
| StarknetArgs.FlattenDictToTuple | tests/utils/misc.py:159-177 | dict_to_tuple(d) and d flatten to the same felts |
| TransactionSender.ParseCall | tests/utils/TransactionSender.py:66-67 | a call is accepted iff it has exactly three components of the right kinds; a wrong arity is "Invalid call parameters"; three components of the wrong kinds are MalformedCall |
| TransactionSender.FromCallToCallArray | tests/utils/TransactionSender.py:62-70 | the first malformed call's error; otherwise one entry per call, in order, with that call's address and selector; the offset is the sum of the earlier argument lengths and the length is the call's own; the calldata is the concatenation of all arguments; slicing it at an entry gives back that call's arguments |
| TransactionSender.FirstFailureWins | tests/utils/TransactionSender.py:65-66 | an invalid call aborts the whole encoding with its own error, whatever follows it |
| TransactionSender.CalldataLength | tests/utils/TransactionSender.py:67-69 | the calldata length is the total of the argument lengths |
| TransactionSender.OffsetOfPrefix | tests/utils/TransactionSender.py:67 | appending a call never moves an earlier call's offset |
| TransactionSender.CalldataPrefix | tests/utils/TransactionSender.py:69 | the calldata of a prefix of the calls is a prefix of the calldata |
| TransactionSender.PrefixOffset | tests/utils/TransactionSender.py:67 | an offset depends only on the calls before it |
| TransactionSender.ArgsSlice | tests/utils/TransactionSender.py:67-69 | calldata[offset_i .. offset_i + len_i] == args of call i |
| Marketplace.EventRoundTrip | tests/marketplace.py:78-83 | each event's name and data felts (id.low, id.high, then seller and price or buyer) decode back to the event |
| Marketplace.MoveEffect | tests/marketplace.py:186-189 | a token transfer debits the sender and credits the receiver by the amount, touches nobody else, and is the identity on a transfer to oneself |
| Marketplace.SettleEffect | tests/marketplace.py:300-303 | settlement takes the price from the buyer, gives price - tax(price) to the seller and tax(price) to the tax address, touches nobody else, and creates or destroys nothing, aliases included |
| Marketplace.Marketplace.constructor | tests/conftest.py:101-113 | a freshly deployed proxy has no offers, no configuration and is not initialized |
| Marketplace.Marketplace.TaxAddress | tests/marketplace.py:318 | taxAddress() reports the stored tax address; SetTaxAddress and TestUpdateTaxAddress state how it is set and observed |
| Marketplace.Marketplace.OfferFor | tests/marketplace.py:164-165 | the listed offer, or the all-zero offer when the card has none |
| Marketplace.NoOfferIffZeroPrice | tests/marketplace.py:164-165 | offerFor(id).price == 0 iff the card has no offer, because every listed price is valid |
| Marketplace.Marketplace.CreateOffer | tests/marketplace.py:26-102 | fails with "caller does not own card" unless the caller holds the card; fails with "invalid price" outside [MIN_PRICE, MAX_PRICE]; succeeds otherwise, overwriting any offer on the card and emitting OfferCreated; failure changes nothing |
| Marketplace.Marketplace.CancelOffer | tests/marketplace.py:117-165 | fails with "offer does not exists" or "caller is not the offer creator"; otherwise removes exactly that offer and emits OfferCanceled |
| Marketplace.Marketplace.AcceptOffer | tests/marketplace.py:196-304 | fails, changing nothing, when there is no offer, when the caller is the seller, when the allowance or balance is below the price, or when the seller no longer holds the card; otherwise removes the offer, moves the card to the buyer, settles the payment, spends the allowance and emits OfferAccepted |
| Marketplace.Marketplace.SetTaxAddress | tests/marketplace.py:317-330 | only the owner succeeds, and afterwards the tax address is the new one |
| Marketplace.Marketplace.Initialize | tests/marketplace.py:356-360 | the first call sets owner, tax address and collaborators; every later call fails with "contract already initialized" and changes nothing |
| Marketplace.Marketplace.Upgrade | tests/marketplace.py:345-354 | a non-owner fails; the owner fails with "new implementation cannot be null" on 0; otherwise only the implementation changes |
| Marketplace.Marketplace.Transfer | tests/marketplace.py:186-189 | the token's transfer moves the amount when the sender's balance covers it and fails otherwise |
| Marketplace.Marketplace.IncreaseAllowance | tests/marketplace.py:191-194 | the caller's allowance to the marketplace grows by the amount |
| MarketplaceTests.Deploy | tests/conftest.py:101-128 | the common starting state: initialized with owner and tax address, RANDO1 holding the card, the owner holding the token supply |
| MarketplaceTests.TestCreateOfferForInvalidCard | tests/marketplace.py:19-38 | listing a nonexistent card, or one held by another account, fails with "caller does not own card" |
| MarketplaceTests.TestCreateOfferWithInvalidPrice | tests/marketplace.py:42-62 | MIN_PRICE - 1 and MAX_PRICE + 1 both fail with "invalid price" |
| MarketplaceTests.TestCreateAndUpdateOffer | tests/marketplace.py:66-102 | both bounds are accepted; each listing emits OfferCreated with data [low, high, seller, price]; relisting makes the latest price the offer's price |
| MarketplaceTests.TestCancelInvalidOffer | tests/marketplace.py:110-136 | cancelling a missing offer, or another account's, fails with the matching error |
| MarketplaceTests.TestCreateAndCancelOffer | tests/marketplace.py:140-165 | cancel emits OfferCanceled with data [low, high] and leaves offerFor(id).price == 0 |
| MarketplaceTests.RefusedAcceptances | tests/marketplace.py:173-213 | with an allowance one short of the price the buyer's acceptance fails; the seller's own acceptance fails; the offer stays listed and the card with the seller |
| MarketplaceTests.TestCreateAndAcceptInvalidOffer | tests/marketplace.py:173-229 | a short allowance and self-acceptance both fail and keep the offer listed; the later acceptance succeeds; a second one fails with "offer does not exists" |
| MarketplaceTests.TestCreateAndAcceptOfferWithTrickyPrice | tests/marketplace.py:233-260 | at MIN_PRICE + 19 the seller gets price - tax(price) and the tax address gets tax(price) |
| MarketplaceTests.TestCreateAndAcceptOffer | tests/marketplace.py:264-304 | the sale emits OfferAccepted with data [low, high, buyer], pays seller and tax address, leaves the buyer at 0 and gives the buyer the card |
| MarketplaceTests.TestUpdateTaxAddress | tests/marketplace.py:312-330 | taxAddress() is the deployed tax address; a non-owner's change fails; the owner's succeeds and is reported |
| MarketplaceTests.TestUpgrade | tests/marketplace.py:338-362 | a non-owner's upgrade fails; upgrade(0) fails; a second initialize fails; the owner's upgrade succeeds |

## Left out

- `Misc.Tax`: the source computes `floor(amount / 1_000_000 * TAX_PERCENT)` in floating point. The model uses exact integer floor division. The two agree at MIN_PRICE and MIN_PRICE + 19, the prices the tests use, but not in general. At MIN_PRICE + 20 the quotient `amount / 1_000_000` rounds to a double just below 10000000.00002, so the float form gives 5 * 10^11 where `Misc.Tax` gives 5 * 10^11 + 1. At 10^17 + 19 the float form gives 5 * 10^15 + 1 where `Misc.Tax` gives 5 * 10^15.
- The Cairo contract itself (`src/Marketplace.cairo`) is not part of this model. Its behaviour is taken from what the tests assert.
- `createOffer` checks only that the caller holds the card. No separate transfer-approval check is modelled.
- When both payment and card transfer would fail, the Cairo contract's order of those two legs is not visible. The model checks payment first.
- `acceptOffer`: the two payment-token refusals are one error, `PaymentFailed`. The tests observe only a generic revert.
- The token is reduced to balance and allowance maps:
  - no uint256 overflow checks on credits or on `increaseAllowance`;
  - no infinite-allowance special case;
  - no refusal of transfers to address 0. The OpenZeppelin ERC20 deployed at tests/conftest.py:56 refuses them. In the model, `Transfer` to 0 succeeds, and `AcceptOffer` pays the fee to a tax address of 0, which `SetTaxAddress` allows.
- The card registry is reduced to a holder map. Card transfers made outside the marketplace are not modelled. The "seller no longer holds the card" failure is kept for them.
- Multicall atomicity across calls is not modelled. In `test_create_and_accept_invalid_offer`, a transaction that bundles `increaseAllowance` with a failing `acceptOffer` would also revert the allowance. The scenario keeps the allowance, which nothing in the test observes afterwards. Each entry point on its own is all-or-nothing.
- The post-upgrade mock (`reset`, "Mock: contract already initialized", tests/marketplace.py:362-377) is not modelled. It belongs to `src/test/upgrade.cairo`, which is not part of this model. Only the owner check, the null-target check and the pre-upgrade initialize guard are modelled. The proxy's actual code swap is not modelled either: `Upgrade` only records the new class hash.
- `initialize` has no caller check. At deployment the proxy calls it with the deployer's arguments.
- `from_call_to_call_array`:
  - `get_selector_from_name` (keccak) is a function parameter.
  - The model refuses every three-component call whose components are not a felt, a name and a list of felts, as `MalformedCall`. Python accepts some of these. `call[0]` is never inspected, so a target that is not a felt passes straight into the entry. A string in `call[2]` has a length, and its characters are appended to the calldata.
- `to_starknet_args`: every scalar is modelled as an integer.
- `StarknetArgs.DictToTuple` requires a dict. On any other value `dict_to_tuple` raises `AttributeError` at `data.values()` (tests/utils/misc.py:160), and that error path is not modelled.
- `Misc.Utf8` and `Misc.StrToFelt` take Dafny strings, whose characters are Unicode scalar values. A text holding a lone surrogate, on which `bytes(text, 'UTF-8')` raises `UnicodeEncodeError` (tests/utils/misc.py:67), cannot be represented, so that error is not modelled.
- `send_transaction`, `get_transaction_hash`, signing and execution are not modelled. They are foreign starkware calls.
- All of `tests/conftest.py` is left out except the deployed state used by `Deploy`. That means deployment plumbing, fixture caching and the event loop.
- Reflection and library helpers are not modelled: `get_contract_class`, `declare`, `deploy_proxy`, `serialize_*`/`unserialize_*`, `set_block_timestamp`, `get_contract`, `get_method`, `get_declared_class`, `get_account_address` and `update_dict`.
- `assert_revert` and `assert_event_emmited`. The scenarios compare outcomes and event data directly instead.
- `felts_to_ascii` and `felts_to_string`, which are hex and UTF-8 decoding for display.
- `compute_card_id` refers to an undefined name, `card`, so it has no well-defined behaviour.
