/** The water-credit marketplace page: a wallet, a listings table and a transaction
    history, changed by the buy and post handlers under their guards. */
module Marketplace {
  import opened Common

  datatype Wallet = Wallet(coins: real, waterCredits: real, waterReusedViaMe: real)

  /** A listing offered on the page (its display timestamp is not modelled). */
  datatype MarketListing = MarketListing(id: int, seller: string, quantity: real, quality: string, pricePerKL: real)

  datatype Action = Bought | Sold
  {
    function Name(): string
    {
      match this
      case Bought => "Bought"
      case Sold => "Sold"
    }
  }

  datatype Transaction = Transaction(id: int, date: string, action: Action, water: real, coins: real)

  /** The sell form; a field is None while its text box is empty, otherwise the number it parses to. */
  datatype SellForm = SellForm(quantity: Option<real>, pricePerKL: Option<real>, quality: string)

  const DefaultQuality := "CPCB Compliant ✅"
  const EmptyForm := SellForm(None, None, DefaultQuality)
  const MySeller := "You (My Listing)"

  /** The listings without the ones carrying `id` (the filter of the buy handler). */
  function WithoutId(listings: seq<MarketListing>, id: int): (r: seq<MarketListing>)
    ensures |r| <= |listings|
    ensures forall l :: l in r <==> l in listings && l.id != id
  {
    if listings == [] then []
    else (if listings[0].id == id then [] else [listings[0]]) + WithoutId(listings[1..], id)
  }

  /** No two listings share an id. */
  predicate IdsDistinct(listings: seq<MarketListing>)
  {
    forall i, j :: 0 <= i < j < |listings| ==> listings[i].id != listings[j].id
  }

  /** Dropping the first listing keeps ids distinct. */
  lemma TailDistinct(listings: seq<MarketListing>)
    requires listings != [] && IdsDistinct(listings)
    ensures IdsDistinct(listings[1..])
  {
    var tail := listings[1..];
    forall i, j | 0 <= i < j < |tail| ensures tail[i].id != tail[j].id {
      assert tail[i] == listings[i + 1] && tail[j] == listings[j + 1];
    }
  }

  /** With distinct ids, removing the id of listing k removes exactly that listing, keeping the order of the rest. */
  lemma {:induction false} WithoutIdRemovesOne(listings: seq<MarketListing>, k: nat)
    requires k < |listings| && IdsDistinct(listings)
    ensures WithoutId(listings, listings[k].id) == listings[..k] + listings[k + 1..]
  {
    var id := listings[k].id;
    var tail := listings[1..];
    if k == 0 {
      WithoutIdAbsent(tail, id);
    } else {
      TailDistinct(listings);
      assert tail[k - 1] == listings[k];
      WithoutIdRemovesOne(tail, k - 1);
      assert listings[0].id != id;
      assert WithoutId(listings, id) == [listings[0]] + (tail[..k - 1] + tail[k..]);
      assert tail[..k - 1] == listings[1..k];
      assert tail[k..] == listings[k + 1..];
      assert listings[..k] == [listings[0]] + listings[1..k];
    }
  }

  /** Removing an id no listing carries changes nothing. */
  lemma {:induction false} WithoutIdAbsent(listings: seq<MarketListing>, id: int)
    requires forall i :: 0 <= i < |listings| ==> listings[i].id != id
    ensures WithoutId(listings, id) == listings
  {
    if listings != [] {
      WithoutIdAbsent(listings[1..], id);
      assert listings == [listings[0]] + listings[1..];
    }
  }

  /** Math.max(...ids, 0): the largest id, or 0 for no listings. */
  function MaxId(listings: seq<MarketListing>): (m: int)
    ensures m >= 0
    ensures forall i :: 0 <= i < |listings| ==> listings[i].id <= m
    ensures m == 0 || exists i :: 0 <= i < |listings| && listings[i].id == m
  {
    if listings == [] then 0
    else
      var rest := MaxId(listings[1..]);
      if listings[0].id > rest then listings[0].id else rest
  }

  /** The id a posted listing gets: positive and larger than every existing id, so it is fresh. */
  function NextId(listings: seq<MarketListing>): (id: int)
    ensures id >= 1
    ensures forall i :: 0 <= i < |listings| ==> listings[i].id < id
  {
    MaxId(listings) + 1
  }

  /** Transaction ids are distinct numbers within 1..n. */
  predicate TransactionIdsValid(txs: seq<Transaction>)
  {
    (forall i :: 0 <= i < |txs| ==> 1 <= txs[i].id <= |txs|) &&
    (forall i, j :: 0 <= i < j < |txs| ==> txs[i].id != txs[j].id)
  }

  /** Prepending a transaction numbered n + 1 keeps the numbering valid. */
  lemma PrependTransaction(txs: seq<Transaction>, t: Transaction)
    requires TransactionIdsValid(txs) && t.id == |txs| + 1
    ensures TransactionIdsValid([t] + txs)
  {
    var all := [t] + txs;
    forall i, j | 0 <= i < j < |all| ensures all[i].id != all[j].id {
      assert all[j] == txs[j - 1];
      if i > 0 {
        assert all[i] == txs[i - 1];
      }
    }
  }

  /** Removing listings keeps ids distinct. */
  lemma {:induction false} WithoutIdKeepsDistinct(listings: seq<MarketListing>, id: int)
    requires IdsDistinct(listings)
    ensures IdsDistinct(WithoutId(listings, id))
  {
    if listings != [] {
      TailDistinct(listings);
      WithoutIdKeepsDistinct(listings[1..], id);
      var rest := WithoutId(listings[1..], id);
      forall l | l in rest ensures l.id != listings[0].id {
        var j :| 0 <= j < |listings[1..]| && listings[1..][j] == l;
        assert listings[j + 1] == l;
      }
    }
  }

  class MarketplacePage {
    var wallet: Wallet
    var listings: seq<MarketListing>
    var transactions: seq<Transaction>
    var sellForm: SellForm
    var showSellModal: bool

    /** Listing ids are distinct and transactions are numbered 1..n without repeats. */
    predicate Valid()
      reads this
    {
      IdsDistinct(listings) && TransactionIdsValid(transactions)
    }

    /** The page's initial state with its sample data. */
    constructor ()
      ensures wallet == Wallet(1000.0, 20.0, 50.0)
      ensures listings == [
        MarketListing(1, "Industry A", 10.0, DefaultQuality, 5.0),
        MarketListing(2, "STP B", 20.0, "Reuse Ready", 4.0),
        MarketListing(3, "Treatment Plant C", 15.0, DefaultQuality, 6.0)]
      ensures transactions == [
        Transaction(1, "Today", Sold, 10.0, 50.0),
        Transaction(2, "Today", Bought, -5.0, -25.0),
        Transaction(3, "Yesterday", Sold, 8.0, 40.0)]
      ensures sellForm == EmptyForm && !showSellModal
      ensures Valid()
    {
      wallet := Wallet(1000.0, 20.0, 50.0);
      listings := [
        MarketListing(1, "Industry A", 10.0, DefaultQuality, 5.0),
        MarketListing(2, "STP B", 20.0, "Reuse Ready", 4.0),
        MarketListing(3, "Treatment Plant C", 15.0, DefaultQuality, 6.0)];
      transactions := [
        Transaction(1, "Today", Sold, 10.0, 50.0),
        Transaction(2, "Today", Bought, -5.0, -25.0),
        Transaction(3, "Yesterday", Sold, 8.0, 40.0)];
      sellForm := EmptyForm;
      showSellModal := false;
    }

    /** handleBuyWater: refused (nothing changes) when the coins do not cover quantity × price;
        otherwise pays, credits the water, logs a "Bought" transaction first and drops the listing. */
    method HandleBuyWater(listing: MarketListing)
      modifies this
      ensures var totalCost := listing.quantity * listing.pricePerKL;
        if old(wallet.coins) < totalCost then
          wallet == old(wallet) && listings == old(listings) && transactions == old(transactions)
        else
          wallet == old(wallet).(coins := old(wallet.coins) - totalCost,
                                 waterCredits := old(wallet.waterCredits) + listing.quantity) &&
          transactions == [Transaction(|old(transactions)| + 1, "Today", Bought, -listing.quantity, -totalCost)]
                          + old(transactions) &&
          listings == WithoutId(old(listings), listing.id)
      ensures wallet.coins >= 0.0 || wallet.coins == old(wallet.coins)
      ensures sellForm == old(sellForm) && showSellModal == old(showSellModal)
      ensures old(Valid()) ==> Valid()
    {
      var totalCost := listing.quantity * listing.pricePerKL;
      if wallet.coins < totalCost {
        return;
      }
      wallet := wallet.(coins := wallet.coins - totalCost, waterCredits := wallet.waterCredits + listing.quantity);
      var t := Transaction(|transactions| + 1, "Today", Bought, -listing.quantity, -totalCost);
      if Valid() {
        PrependTransaction(transactions, t);
        WithoutIdKeepsDistinct(listings, listing.id);
      }
      transactions := [t] + transactions;
      listings := WithoutId(listings, listing.id);
    }

    /** handlePostWater: refused (nothing changes) while a field is empty; otherwise prepends a
        listing with a fresh id and a "Sold" transaction, credits coins and reused water,
        resets the form and closes the modal. */
    method HandlePostWater()
      modifies this
      ensures old(sellForm.quantity).None? || old(sellForm.pricePerKL).None? ==>
        wallet == old(wallet) && listings == old(listings) && transactions == old(transactions) &&
        sellForm == old(sellForm) && showSellModal == old(showSellModal)
      ensures old(sellForm.quantity).Some? && old(sellForm.pricePerKL).Some? ==>
        var quantity := old(sellForm.quantity).value;
        var price := old(sellForm.pricePerKL).value;
        listings == [MarketListing(NextId(old(listings)), MySeller, quantity, old(sellForm.quality), price)]
                    + old(listings) &&
        transactions == [Transaction(|old(transactions)| + 1, "Today", Sold, quantity, quantity * price)]
                        + old(transactions) &&
        wallet == old(wallet).(coins := old(wallet.coins) + quantity * price,
                               waterReusedViaMe := old(wallet.waterReusedViaMe) + quantity) &&
        sellForm == EmptyForm && !showSellModal
      ensures old(Valid()) ==> Valid()
    {
      if sellForm.quantity.None? || sellForm.pricePerKL.None? {
        return;
      }
      var quantity := sellForm.quantity.value;
      var pricePerKL := sellForm.pricePerKL.value;
      var totalCoins := quantity * pricePerKL;
      var newListing := MarketListing(MaxId(listings) + 1, MySeller, quantity, sellForm.quality, pricePerKL);
      var t := Transaction(|transactions| + 1, "Today", Sold, quantity, totalCoins);
      if Valid() {
        PrependTransaction(transactions, t);
        PrependFreshListing(listings, newListing);
      }
      listings := [newListing] + listings;
      transactions := [t] + transactions;
      wallet := wallet.(coins := wallet.coins + totalCoins, waterReusedViaMe := wallet.waterReusedViaMe + quantity);
      sellForm := EmptyForm;
      showSellModal := false;
      assert t.coins == old(sellForm.quantity).value * old(sellForm.pricePerKL).value;
      assert transactions == [t] + old(transactions);
    }
  }

  /** Prepending a listing whose id no existing listing has keeps ids distinct. */
  lemma PrependFreshListing(listings: seq<MarketListing>, l: MarketListing)
    requires IdsDistinct(listings)
    requires forall i :: 0 <= i < |listings| ==> listings[i].id < l.id
    ensures IdsDistinct([l] + listings)
  {
    var all := [l] + listings;
    forall i, j | 0 <= i < j < |all| ensures all[i].id != all[j].id {
      assert all[j] == listings[j - 1];
      if i > 0 {
        assert all[i] == listings[i - 1];
      }
    }
  }
}
