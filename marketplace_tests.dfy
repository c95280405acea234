/** The scenarios of the marketplace test suite, one method per test: each
    drives a freshly deployed marketplace through the test's calls and its
    postcondition states what the test asserts. */
module MarketplaceTests {
  import opened Wrappers
  import opened Misc
  import opened Marketplace

  const OWNER: Addr := 1
  const TAX: Addr := 2
  const RANDO1: Addr := 3
  const RANDO2: Addr := 4
  const RULES: Addr := 5
  const ETHER: Addr := 6
  const MARKETPLACE_CLASS: nat := 7
  const UPGRADE_CLASS: nat := 8

  /** Card 1 of the first card model, minted to RANDO1 at deployment. Its
      limbs are whatever the card registry computes; any pair other than
      the nonexistent (1, 1) behaves alike here. */
  const CARD1_1: CardId := Uint256(0x617274697374_31, 0x01_000001)
  /** A card id that no card has. */
  const NO_CARD: CardId := Uint256(1, 1)
  /** The payment token's initial supply, minted to OWNER. */
  const SUPPLY: nat := LIMB - 1

  /** The deployment every test starts from: the marketplace initialized
      with OWNER, TAX and the two collaborators, RANDO1 holding CARD1_1 and
      OWNER the whole token supply. */
  method Deploy() returns (m: Marketplace)
    ensures fresh(m) && m.Valid()
    ensures m.offers == map[] && m.cardOwner == map[CARD1_1 := RANDO1]
    ensures m.balance == map[OWNER := SUPPLY] && m.allowance == map[]
    ensures m.owner == OWNER && m.taxAddress == TAX && m.initialized
    ensures m.implementation == MARKETPLACE_CLASS
  {
    m := new Marketplace(MARKETPLACE_CLASS, map[CARD1_1 := RANDO1], map[OWNER := SUPPLY]);
    var r := m.Initialize(OWNER, TAX, RULES, ETHER);
  }

  /** Neither a card that does not exist nor a card held by someone else
      can be listed. */
  method TestCreateOfferForInvalidCard() returns (r1: Outcome<Error>, r2: Outcome<Error>)
    ensures r1 == Fail(CallerDoesNotOwnCard)
    ensures r2 == Fail(CallerDoesNotOwnCard)
  {
    var m := Deploy();
    r1 := m.CreateOffer(RANDO1, NO_CARD, MIN_PRICE);
    r2 := m.CreateOffer(RANDO2, CARD1_1, MIN_PRICE);
  }

  /** Prices just outside the bounds are refused. */
  method TestCreateOfferWithInvalidPrice() returns (r1: Outcome<Error>, r2: Outcome<Error>)
    ensures r1 == Fail(InvalidPrice)
    ensures r2 == Fail(InvalidPrice)
  {
    var m := Deploy();
    r1 := m.CreateOffer(RANDO1, CARD1_1, MIN_PRICE - 1);
    r2 := m.CreateOffer(RANDO1, CARD1_1, MAX_PRICE + 1);
  }

  /** Both bounds are accepted; relisting replaces the price, and each
      listing emits its OfferCreated data. */
  method TestCreateAndUpdateOffer()
    returns (event1: Event, price1: nat, event2: Event, price2: nat)
    ensures event1 == OfferCreated(CARD1_1, RANDO1, MIN_PRICE) && price1 == MIN_PRICE
    ensures EventName(event1) == "OfferCreated"
    ensures EventData(event1) == [CARD1_1.low, CARD1_1.high, RANDO1, MIN_PRICE]
    ensures event2 == OfferCreated(CARD1_1, RANDO1, MAX_PRICE) && price2 == MAX_PRICE
    ensures EventName(event2) == "OfferCreated"
    ensures EventData(event2) == [CARD1_1.low, CARD1_1.high, RANDO1, MAX_PRICE]
  {
    var m := Deploy();
    var r := m.CreateOffer(RANDO1, CARD1_1, MIN_PRICE);
    event1 := m.events[|m.events| - 1];
    price1 := m.OfferFor(CARD1_1).price;
    r := m.CreateOffer(RANDO1, CARD1_1, MAX_PRICE);
    event2 := m.events[|m.events| - 1];
    price2 := m.OfferFor(CARD1_1).price;
  }

  /** A missing offer cannot be cancelled, nor somebody else's. */
  method TestCancelInvalidOffer() returns (r1: Outcome<Error>, r2: Outcome<Error>)
    ensures r1 == Fail(OfferDoesNotExist)
    ensures r2 == Fail(CallerIsNotOfferCreator)
  {
    var m := Deploy();
    r1 := m.CancelOffer(RANDO1, CARD1_1);
    var r := m.CreateOffer(RANDO1, CARD1_1, MIN_PRICE);
    r2 := m.CancelOffer(RANDO2, CARD1_1);
  }

  /** Cancelling emits OfferCanceled and leaves the card without offer. */
  method TestCreateAndCancelOffer() returns (event: Event, price: nat)
    ensures event == OfferCanceled(CARD1_1)
    ensures EventName(event) == "OfferCanceled" && EventData(event) == [CARD1_1.low, CARD1_1.high]
    ensures price == 0
  {
    var m := Deploy();
    var r := m.CreateOffer(RANDO1, CARD1_1, MIN_PRICE);
    r := m.CancelOffer(RANDO1, CARD1_1);
    event := m.events[|m.events| - 1];
    price := m.OfferFor(CARD1_1).price;
  }

  /** The first half of the invalid-acceptance scenario: RANDO1 lists the
      card at MIN_PRICE, RANDO2 is funded with the price but allows the
      marketplace one unit less, and RANDO1 is funded too; RANDO2's and
      then RANDO1's acceptance are refused, and the offer stays listed. */
  method RefusedAcceptances() returns (m: Marketplace, short: Outcome<Error>, own: Outcome<Error>)
    ensures fresh(m) && m.Valid()
    ensures short == Fail(PaymentFailed)
    ensures own == Fail(CreatorCannotAcceptOwnOffer)
    ensures m.offers == map[CARD1_1 := Offer(RANDO1, MIN_PRICE)]
    ensures m.Holds(RANDO1, CARD1_1)
    ensures BalanceOf(m.balance, RANDO2) == MIN_PRICE
    ensures m.AllowanceOf(RANDO2) == MIN_PRICE - 1
  {
    m := Deploy();
    var r := m.CreateOffer(RANDO1, CARD1_1, MIN_PRICE);
    r := m.Transfer(OWNER, RANDO2, MIN_PRICE);
    m.IncreaseAllowance(RANDO2, MIN_PRICE - 1);
    short := m.AcceptOffer(RANDO2, CARD1_1);
    r := m.Transfer(OWNER, RANDO1, MIN_PRICE);
    own := m.AcceptOffer(RANDO1, CARD1_1);
  }

  /** An allowance one short of the price, and the seller buying from
      themself, both fail and leave the offer listed; it then sells once,
      and a second acceptance finds no offer. */
  method TestCreateAndAcceptInvalidOffer()
    returns (short: Outcome<Error>, own: Outcome<Error>, ok: Outcome<Error>, again: Outcome<Error>)
    ensures short == Fail(PaymentFailed)
    ensures own == Fail(CreatorCannotAcceptOwnOffer)
    ensures ok == Pass
    ensures again == Fail(OfferDoesNotExist)
  {
    var m;
    m, short, own := RefusedAcceptances();
    m.IncreaseAllowance(RANDO2, 1);
    ok := m.AcceptOffer(RANDO2, CARD1_1);
    m.IncreaseAllowance(OWNER, MIN_PRICE);
    again := m.AcceptOffer(OWNER, CARD1_1);
  }

  /** At a price whose fee rounds down, the seller still gets the price
      less the fee and the tax address the fee. */
  method TestCreateAndAcceptOfferWithTrickyPrice() returns (sellerBalance: nat, taxBalance: nat)
    ensures sellerBalance == (MIN_PRICE + 19) - Tax(MIN_PRICE + 19)
    ensures taxBalance == Tax(MIN_PRICE + 19)
  {
    var price := MIN_PRICE + 19;
    var m := Deploy();
    var r := m.CreateOffer(RANDO1, CARD1_1, price);
    r := m.Transfer(OWNER, RANDO2, price);
    m.IncreaseAllowance(RANDO2, price);
    ghost var before := m.balance;
    r := m.AcceptOffer(RANDO2, CARD1_1);
    SettleEffect(before, RANDO2, RANDO1, TAX, price, RANDO1);
    SettleEffect(before, RANDO2, RANDO1, TAX, price, TAX);
    sellerBalance := BalanceOf(m.balance, RANDO1);
    taxBalance := BalanceOf(m.balance, TAX);
  }

  /** The sale emits OfferAccepted, pays seller and tax address, empties
      the buyer's balance and hands the buyer the card. */
  method TestCreateAndAcceptOffer()
    returns (event: Event, sellerBalance: nat, taxBalance: nat, buyerBalance: nat, holder: Addr)
    ensures event == OfferAccepted(CARD1_1, RANDO2)
    ensures EventName(event) == "OfferAccepted" && EventData(event) == [CARD1_1.low, CARD1_1.high, RANDO2]
    ensures sellerBalance == MIN_PRICE - Tax(MIN_PRICE)
    ensures taxBalance == Tax(MIN_PRICE)
    ensures buyerBalance == 0
    ensures holder == RANDO2
  {
    var m := Deploy();
    var r := m.CreateOffer(RANDO1, CARD1_1, MIN_PRICE);
    r := m.Transfer(OWNER, RANDO2, MIN_PRICE);
    m.IncreaseAllowance(RANDO2, MIN_PRICE);
    ghost var before := m.balance;
    r := m.AcceptOffer(RANDO2, CARD1_1);
    event := m.events[|m.events| - 1];
    SettleEffect(before, RANDO2, RANDO1, TAX, MIN_PRICE, RANDO1);
    SettleEffect(before, RANDO2, RANDO1, TAX, MIN_PRICE, TAX);
    SettleEffect(before, RANDO2, RANDO1, TAX, MIN_PRICE, RANDO2);
    sellerBalance := BalanceOf(m.balance, RANDO1);
    taxBalance := BalanceOf(m.balance, TAX);
    buyerBalance := BalanceOf(m.balance, RANDO2);
    holder := m.cardOwner[CARD1_1];
  }

  /** Only the owner moves the tax address, and the query reports it. */
  method TestUpdateTaxAddress()
    returns (initial: Addr, byRando: Outcome<Error>, byOwner: Outcome<Error>, updated: Addr)
    ensures initial == TAX
    ensures byRando == Fail(CallerIsNotOwner)
    ensures byOwner == Pass
    ensures updated == RANDO1
  {
    var m := Deploy();
    initial := m.TaxAddress();
    byRando := m.SetTaxAddress(RANDO1, RANDO1);
    byOwner := m.SetTaxAddress(OWNER, RANDO1);
    updated := m.TaxAddress();
  }

  /** Upgrades are the owner's and need a non-null target; the contract
      cannot be initialized twice; the owner's upgrade then goes through. */
  method TestUpgrade()
    returns (byRando: Outcome<Error>, toNull: Outcome<Error>, reinit: Outcome<Error>, byOwner: Outcome<Error>)
    ensures byRando == Fail(CallerIsNotOwner)
    ensures toNull == Fail(NullImplementation)
    ensures reinit == Fail(AlreadyInitialized)
    ensures byOwner == Pass
  {
    var m := Deploy();
    byRando := m.Upgrade(RANDO1, UPGRADE_CLASS);
    toNull := m.Upgrade(OWNER, 0);
    reinit := m.Initialize(1, 1, 1, 1);
    byOwner := m.Upgrade(OWNER, UPGRADE_CLASS);
  }
}
