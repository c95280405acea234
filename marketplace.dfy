/** The marketplace contract as its test suite drives it: holders of cards
    list them at a fixed price, any other account accepts a listing, which
    swaps the card for payment and routes a 5% fee to the tax address, and
    an owner administers the tax address and upgrades.

    The card registry and the payment token are other contracts; here they
    shrink to maps inside the one ledger: who holds each card, each
    account's token balance, and the allowance each account has granted the
    marketplace. */
module Marketplace {
  import opened Wrappers
  import opened Misc

  /** A contract or account address; 0 is the null address. */
  type Addr = nat

  type CardId = Uint256

  datatype Offer = Offer(seller: Addr, price: nat)

  datatype Event =
    | OfferCreated(cardId: CardId, seller: Addr, price: nat)
    | OfferCanceled(cardId: CardId)
    | OfferAccepted(cardId: CardId, buyer: Addr)

  /** Why a call reverts. The comments give the revert message where the
      tests check one. */
  datatype Error =
    | CallerDoesNotOwnCard        // "Marketplace: caller does not own card"
    | InvalidPrice                // "Marketplace: invalid price"
    | OfferDoesNotExist           // "Marketplace: offer does not exists"
    | CallerIsNotOfferCreator     // "Marketplace: caller is not the offer creator"
    | CreatorCannotAcceptOwnOffer // "Marketplace: offer creator cannot accept their own offer"
    | PaymentFailed               // the payment token refuses: allowance or balance too low
    | CardTransferFailed          // the card registry refuses: the seller no longer holds the card
    | CallerIsNotOwner            // the owner check of an admin operation
    | NullImplementation          // "Marketplace: new implementation cannot be null"
    | AlreadyInitialized          // "Marketplace: contract already initialized"

  // ---------------------------------------------------------------------
  // Events on the wire
  // ---------------------------------------------------------------------

  function EventName(e: Event): string
  {
    match e
    case OfferCreated(_, _, _) => "OfferCreated"
    case OfferCanceled(_) => "OfferCanceled"
    case OfferAccepted(_, _) => "OfferAccepted"
  }

  /** The data felts an event is emitted with: the card id as its two
      limbs, then the seller and price, or the buyer. */
  function EventData(e: Event): seq<int>
  {
    match e
    case OfferCreated(id, seller, price) => [id.low, id.high, seller, price]
    case OfferCanceled(id) => [id.low, id.high]
    case OfferAccepted(id, buyer) => [id.low, id.high, buyer]
  }

  /** How a listener reads an emitted event back. */
  function DecodeEvent(name: string, data: seq<int>): Option<Event>
  {
    if name == "OfferCreated" && |data| == 4 && data[2] >= 0 && data[3] >= 0 then
      Some(OfferCreated(Uint256(data[0], data[1]), data[2], data[3]))
    else if name == "OfferCanceled" && |data| == 2 then
      Some(OfferCanceled(Uint256(data[0], data[1])))
    else if name == "OfferAccepted" && |data| == 3 && data[2] >= 0 then
      Some(OfferAccepted(Uint256(data[0], data[1]), data[2]))
    else None
  }

  /** Every event can be read back from its name and data. */
  lemma EventRoundTrip(e: Event)
    ensures DecodeEvent(EventName(e), EventData(e)) == Some(e)
  {
  }

  // ---------------------------------------------------------------------
  // The payment token, as a balance map
  // ---------------------------------------------------------------------

  /** An account's balance; an account never credited holds nothing. */
  function BalanceOf(m: map<Addr, nat>, a: Addr): nat
  {
    if a in m then m[a] else 0
  }

  /** A token transfer of `amount` from `src` to `dst`. */
  function Move(m: map<Addr, nat>, src: Addr, dst: Addr, amount: nat): map<Addr, nat>
    requires amount <= BalanceOf(m, src)
  {
    var debited := m[src := BalanceOf(m, src) - amount];
    debited[dst := BalanceOf(debited, dst) + amount]
  }

  /** A transfer debits `src` and credits `dst` by the amount and touches no
      other account; a transfer to oneself changes nothing. */
  lemma MoveEffect(m: map<Addr, nat>, src: Addr, dst: Addr, amount: nat, a: Addr)
    requires amount <= BalanceOf(m, src)
    ensures BalanceOf(Move(m, src, dst, amount), a) + (if a == src then amount else 0)
         == BalanceOf(m, a) + (if a == dst then amount else 0)
  {
  }

  /** The settlement of an accepted offer: the buyer pays the seller the
      price less the fee, and the tax address the fee. */
  function Settle(m: map<Addr, nat>, buyer: Addr, seller: Addr, taxAddr: Addr, price: nat): map<Addr, nat>
    requires price <= BalanceOf(m, buyer)
  {
    TaxIsFivePercent(price);
    var paid := Move(m, buyer, seller, price - Tax(price));
    MoveEffect(m, buyer, seller, price - Tax(price), buyer);
    Move(paid, buyer, taxAddr, Tax(price))
  }

  /** What settlement does to every account, aliasing included: the buyer
      loses the price, the seller gains the price less the fee, the tax
      address gains the fee, and no value is created or destroyed. */
  lemma SettleEffect(m: map<Addr, nat>, buyer: Addr, seller: Addr, taxAddr: Addr, price: nat, a: Addr)
    requires price <= BalanceOf(m, buyer)
    ensures BalanceOf(Settle(m, buyer, seller, taxAddr, price), a) + (if a == buyer then price else 0)
         == BalanceOf(m, a)
            + (if a == seller then price - Tax(price) else 0)
            + (if a == taxAddr then Tax(price) else 0)
  {
    TaxIsFivePercent(price);
    var fee := Tax(price);
    var paid := Move(m, buyer, seller, price - fee);
    MoveEffect(m, buyer, seller, price - fee, buyer);
    MoveEffect(m, buyer, seller, price - fee, a);
    MoveEffect(paid, buyer, taxAddr, fee, a);
  }

  // ---------------------------------------------------------------------
  // The contract
  // ---------------------------------------------------------------------

  class Marketplace {
    /** At most one offer per card. */
    var offers: map<CardId, Offer>
    /** The card registry: who holds each existing card. */
    var cardOwner: map<CardId, Addr>
    /** The payment token: balances, and what each account allows the
        marketplace to spend on its behalf. */
    var balance: map<Addr, nat>
    var allowance: map<Addr, nat>
    var owner: Addr
    var taxAddress: Addr
    var rulesAddress: Addr
    var etherAddress: Addr
    /** The class hash the proxy delegates to. */
    var implementation: nat
    var initialized: bool
    /** Every event emitted so far, oldest first. */
    var events: seq<Event>

    /** Every listed offer carries a valid price. */
    ghost predicate Valid()
      reads this
    {
      forall id :: id in offers ==> ValidPrice(offers[id].price)
    }

    predicate Holds(a: Addr, id: CardId)
      reads this
    {
      id in cardOwner && cardOwner[id] == a
    }

    function AllowanceOf(a: Addr): nat
      reads this
    {
      if a in allowance then allowance[a] else 0
    }

    /** The proxy freshly deployed over `implementation`, before
        `initialize`: empty storage beside the collaborators' state. */
    constructor (implementation: nat, cardOwner: map<CardId, Addr>, balance: map<Addr, nat>)
      ensures Valid()
      ensures this.implementation == implementation
      ensures this.cardOwner == cardOwner && this.balance == balance
      ensures allowance == map[] && offers == map[] && events == []
      ensures !initialized && owner == 0 && taxAddress == 0
      ensures rulesAddress == 0 && etherAddress == 0
    {
      this.implementation := implementation;
      this.cardOwner := cardOwner;
      this.balance := balance;
      allowance := map[];
      offers := map[];
      events := [];
      initialized := false;
      owner, taxAddress, rulesAddress, etherAddress := 0, 0, 0, 0;
    }

    // -------------------------------------------------------------------
    // Queries
    // -------------------------------------------------------------------

    /** `offerFor`: the offer on a card, or the all-zero offer when there
        is none. */
    function OfferFor(id: CardId): (o: Offer)
      reads this
      ensures id in offers ==> o == offers[id]
      ensures id !in offers ==> o.seller == 0 && o.price == 0
    {
      if id in offers then offers[id] else Offer(0, 0)
    }

    /** `taxAddress`. */
    function TaxAddress(): (a: Addr)
      reads this
      ensures a == taxAddress
    {
      taxAddress
    }

    // -------------------------------------------------------------------
    // Offer lifecycle
    // -------------------------------------------------------------------

    /** `createOffer`: the card's holder lists it, or relists it at a new
        price; the latest price wins. */
    method CreateOffer(caller: Addr, id: CardId, price: nat) returns (r: Outcome<Error>)
      requires Valid()
      modifies this
      ensures Valid()
      ensures !old(Holds(caller, id)) ==> r == Fail(CallerDoesNotOwnCard)
      ensures old(Holds(caller, id)) && !ValidPrice(price) ==> r == Fail(InvalidPrice)
      ensures r.Pass? <==> old(Holds(caller, id)) && ValidPrice(price)
      ensures r.Fail? ==> unchanged(this)
      ensures r.Pass? ==>
        && offers == old(offers)[id := Offer(caller, price)]
        && events == old(events) + [OfferCreated(id, caller, price)]
        && unchanged(this`cardOwner, this`balance, this`allowance, this`owner, this`taxAddress)
        && unchanged(this`rulesAddress, this`etherAddress, this`implementation, this`initialized)
    {
      if !Holds(caller, id) {
        return Fail(CallerDoesNotOwnCard);
      }
      if !ValidPrice(price) {
        return Fail(InvalidPrice);
      }
      offers := offers[id := Offer(caller, price)];
      events := events + [OfferCreated(id, caller, price)];
      return Pass;
    }

    /** `cancelOffer`: the offer's creator withdraws it. */
    method CancelOffer(caller: Addr, id: CardId) returns (r: Outcome<Error>)
      requires Valid()
      modifies this
      ensures Valid()
      ensures id !in old(offers) ==> r == Fail(OfferDoesNotExist)
      ensures id in old(offers) && old(offers[id].seller) != caller ==> r == Fail(CallerIsNotOfferCreator)
      ensures r.Pass? <==> id in old(offers) && old(offers[id].seller) == caller
      ensures r.Fail? ==> unchanged(this)
      ensures r.Pass? ==>
        && offers == old(offers) - {id}
        && events == old(events) + [OfferCanceled(id)]
        && unchanged(this`cardOwner, this`balance, this`allowance, this`owner, this`taxAddress)
        && unchanged(this`rulesAddress, this`etherAddress, this`implementation, this`initialized)
    {
      if id !in offers {
        return Fail(OfferDoesNotExist);
      }
      if offers[id].seller != caller {
        return Fail(CallerIsNotOfferCreator);
      }
      offers := offers - {id};
      events := events + [OfferCanceled(id)];
      return Pass;
    }

    /** `acceptOffer`: anyone but the seller buys the listed card. The
        payment and the card transfer both happen or neither does. */
    method AcceptOffer(caller: Addr, id: CardId) returns (r: Outcome<Error>)
      requires Valid()
      modifies this
      ensures Valid()
      ensures id !in old(offers) ==> r == Fail(OfferDoesNotExist)
      ensures id in old(offers) && old(offers[id].seller) == caller ==> r == Fail(CreatorCannotAcceptOwnOffer)
      ensures id in old(offers) && old(offers[id].seller) != caller ==>
        var price := old(offers[id].price);
        (price > old(AllowanceOf(caller)) || price > old(BalanceOf(balance, caller))) ==> r == Fail(PaymentFailed)
      ensures id in old(offers) && old(offers[id].seller) != caller ==>
        var price := old(offers[id].price);
        (price <= old(AllowanceOf(caller)) && price <= old(BalanceOf(balance, caller))
         && !old(Holds(offers[id].seller, id))) ==> r == Fail(CardTransferFailed)
      ensures r.Pass? <==>
        && id in old(offers)
        && old(offers[id].seller) != caller
        && old(offers[id].price) <= old(AllowanceOf(caller))
        && old(offers[id].price) <= old(BalanceOf(balance, caller))
        && old(Holds(offers[id].seller, id))
      ensures r.Fail? ==> unchanged(this)
      ensures r.Pass? ==>
        var offer := old(offers[id]);
        && offers == old(offers) - {id}
        && cardOwner == old(cardOwner)[id := caller]
        && offer.price <= old(BalanceOf(balance, caller))
        && balance == Settle(old(balance), caller, offer.seller, old(taxAddress), offer.price)
        && allowance == old(allowance)[caller := old(AllowanceOf(caller)) - offer.price]
        && events == old(events) + [OfferAccepted(id, caller)]
        && unchanged(this`owner, this`taxAddress, this`rulesAddress, this`etherAddress)
        && unchanged(this`implementation, this`initialized)
    {
      if id !in offers {
        return Fail(OfferDoesNotExist);
      }
      var offer := offers[id];
      if offer.seller == caller {
        return Fail(CreatorCannotAcceptOwnOffer);
      }
      if offer.price > AllowanceOf(caller) || offer.price > BalanceOf(balance, caller) {
        return Fail(PaymentFailed);
      }
      if !Holds(offer.seller, id) {
        return Fail(CardTransferFailed);
      }
      balance := Settle(balance, caller, offer.seller, taxAddress, offer.price);
      allowance := allowance[caller := AllowanceOf(caller) - offer.price];
      cardOwner := cardOwner[id := caller];
      offers := offers - {id};
      events := events + [OfferAccepted(id, caller)];
      return Pass;
    }

    // -------------------------------------------------------------------
    // Administration
    // -------------------------------------------------------------------

    /** `setTaxAddress`: the owner redirects future fees. */
    method SetTaxAddress(caller: Addr, newAddress: Addr) returns (r: Outcome<Error>)
      requires Valid()
      modifies this
      ensures Valid()
      ensures r == (if old(owner) == caller then Pass else Fail(CallerIsNotOwner))
      ensures r.Fail? ==> unchanged(this)
      ensures r.Pass? ==>
        && taxAddress == newAddress
        && unchanged(this`offers, this`cardOwner, this`balance, this`allowance, this`owner, this`events)
        && unchanged(this`rulesAddress, this`etherAddress, this`implementation, this`initialized)
    {
      if caller != owner {
        return Fail(CallerIsNotOwner);
      }
      taxAddress := newAddress;
      return Pass;
    }

    /** `initialize`: sets the configuration once; every later call is
        refused. */
    method Initialize(owner: Addr, taxAddress: Addr, rulesAddress: Addr, etherAddress: Addr)
      returns (r: Outcome<Error>)
      requires Valid()
      modifies this
      ensures Valid()
      ensures r == (if old(initialized) then Fail(AlreadyInitialized) else Pass)
      ensures r.Fail? ==> unchanged(this)
      ensures r.Pass? ==>
        && initialized
        && this.owner == owner && this.taxAddress == taxAddress
        && this.rulesAddress == rulesAddress && this.etherAddress == etherAddress
        && unchanged(this`offers, this`cardOwner, this`balance, this`allowance, this`events, this`implementation)
    {
      if initialized {
        return Fail(AlreadyInitialized);
      }
      this.owner, this.taxAddress := owner, taxAddress;
      this.rulesAddress, this.etherAddress := rulesAddress, etherAddress;
      initialized := true;
      return Pass;
    }

    /** `upgrade`: the owner points the proxy at a new, non-null class
        hash. The guard state is not reset. */
    method Upgrade(caller: Addr, newImplementation: nat) returns (r: Outcome<Error>)
      requires Valid()
      modifies this
      ensures Valid()
      ensures old(owner) != caller ==> r == Fail(CallerIsNotOwner)
      ensures old(owner) == caller && newImplementation == 0 ==> r == Fail(NullImplementation)
      ensures r.Pass? <==> old(owner) == caller && newImplementation != 0
      ensures r.Fail? ==> unchanged(this)
      ensures r.Pass? ==>
        && implementation == newImplementation
        && unchanged(this`offers, this`cardOwner, this`balance, this`allowance, this`events)
        && unchanged(this`owner, this`taxAddress, this`rulesAddress, this`etherAddress, this`initialized)
    {
      if caller != owner {
        return Fail(CallerIsNotOwner);
      }
      if newImplementation == 0 {
        return Fail(NullImplementation);
      }
      implementation := newImplementation;
      return Pass;
    }

    // -------------------------------------------------------------------
    // Payment-token calls the tests make directly
    // -------------------------------------------------------------------

    /** The token's `transfer`: the caller sends `amount` to `to`. */
    method Transfer(caller: Addr, to: Addr, amount: nat) returns (r: Outcome<Error>)
      requires Valid()
      modifies this
      ensures Valid()
      ensures r == (if amount <= old(BalanceOf(balance, caller)) then Pass else Fail(PaymentFailed))
      ensures r.Fail? ==> unchanged(this)
      ensures r.Pass? ==>
        && balance == Move(old(balance), caller, to, amount)
        && unchanged(this`offers, this`cardOwner, this`allowance, this`events, this`implementation)
        && unchanged(this`owner, this`taxAddress, this`rulesAddress, this`etherAddress, this`initialized)
    {
      if amount > BalanceOf(balance, caller) {
        return Fail(PaymentFailed);
      }
      balance := Move(balance, caller, to, amount);
      return Pass;
    }

    /** The token's `increaseAllowance`, with the marketplace as spender. */
    method IncreaseAllowance(caller: Addr, amount: nat)
      requires Valid()
      modifies this`allowance
      ensures Valid()
      ensures allowance == old(allowance)[caller := old(AllowanceOf(caller)) + amount]
    {
      allowance := allowance[caller := AllowanceOf(caller) + amount];
    }
  }

  /** `offerFor(id).price == 0` is how the tests observe that a card has no
      offer: no listed offer is priced 0. */
  lemma NoOfferIffZeroPrice(m: Marketplace, id: CardId)
    requires m.Valid()
    ensures m.OfferFor(id).price == 0 <==> id !in m.offers
  {
  }
}
