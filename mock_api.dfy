/** The in-memory marketplace and ledger store: listings, an append-only ledger
    whose entries point back to the previous entry's hash, and scheduled
    microbial (bio) checks. Hashes, clock readings and ISO timestamps are
    supplied by the caller: they are opaque values here. */
module MockApi {
  import opened Common

  /** What a seller lists; the source spreads any extra fields along, which are not modelled. */
  datatype Item = Item(id: int, seller: Option<string>, qty: real, price: real)

  /** A stored listing: the item plus its sale state. */
  datatype Listing = Listing(item: Item, sold: bool, buyer: Option<string>, soldTime: Option<string>)

  /** The `type` field of a ledger entry; Name() is the string the source stores. */
  datatype EntryKind = ListingKind | Purchase | Simulation | BioSchedule | BioResultKind
  {
    function Name(): string
    {
      match this
      case ListingKind => "listing"
      case Purchase => "purchase"
      case Simulation => "simulation"
      case BioSchedule => "bio_schedule"
      case BioResultKind => "bio_result"
    }
  }

  /** The `note` of a ledger entry, kept as the values its template interpolates. */
  datatype Note =
    | Listed(qty: real, price: real)
    | Bought(qty: real, from: string)
    | SavedSim(reuse: string)
    | Scheduled(target: string, inDays: real)
    | UploadedResult(target: string)

  datatype LedgerEntry = LedgerEntry(
    time: string, actor: string, kind: EntryKind, note: Note, prevHash: Option<string>, hash: string)

  /** A lab result for a bio check (E. coli and virus counts). */
  datatype BioResult = BioResult(ecoli: real, virus: real)

  /** A scheduled bio check; `dueMs` is the due time in milliseconds since the epoch. */
  datatype BioSnapshot = BioSnapshot(id: string, target: string, dueMs: real, result: Option<BioResult>)

  /** The hash the next ledger entry must point back to: the last entry's hash, or null. */
  function PrevHash(ledger: seq<LedgerEntry>): (h: Option<string>)
    ensures ledger == [] <==> h.None?
    ensures ledger != [] ==> h == Some(ledger[|ledger| - 1].hash)
  {
    if |ledger| > 0 then Some(ledger[|ledger| - 1].hash) else None
  }

  /** The hash chain: the first entry has no predecessor, every later one names its predecessor's hash. */
  predicate ChainLinked(ledger: seq<LedgerEntry>)
  {
    (|ledger| > 0 ==> ledger[0].prevHash.None?) &&
    forall i :: 0 < i < |ledger| ==> ledger[i].prevHash == Some(ledger[i - 1].hash)
  }

  /** Appending an entry that points back to the current last hash keeps the chain linked. */
  lemma {:induction false} ChainExtends(ledger: seq<LedgerEntry>, e: LedgerEntry)
    requires ChainLinked(ledger)
    ensures ChainLinked(ledger + [e]) <==> e.prevHash == PrevHash(ledger)
  {
    var l := ledger + [e];
    if e.prevHash == PrevHash(ledger) {
      forall i | 0 < i < |l| ensures l[i].prevHash == Some(l[i - 1].hash)
      {
        if i < |ledger| {
          assert l[i] == ledger[i] && l[i - 1] == ledger[i - 1];
        }
      }
    }
    if ChainLinked(l) && |ledger| > 0 {
      assert l[|ledger|] == e && l[|ledger| - 1] == ledger[|ledger| - 1];
    }
  }

  /** Every prefix of a linked chain is linked: history cannot be rewritten by truncation checks alone. */
  lemma PrefixLinked(ledger: seq<LedgerEntry>, k: nat)
    requires ChainLinked(ledger) && k <= |ledger|
    ensures ChainLinked(ledger[..k])
  {
    var p := ledger[..k];
    forall i | 0 < i < |p| ensures p[i].prevHash == Some(p[i - 1].hash)
    {
      assert p[i] == ledger[i] && p[i - 1] == ledger[i - 1];
    }
  }

  /** The index of the first listing with the given id (Array.prototype.find). */
  function FindListing(listings: seq<Listing>, id: int): (r: Option<nat>)
    ensures r.None? <==> forall i :: 0 <= i < |listings| ==> listings[i].item.id != id
    ensures r.Some? ==> r.value < |listings| && listings[r.value].item.id == id &&
                        forall i :: 0 <= i < r.value ==> listings[i].item.id != id
  {
    if listings == [] then None
    else if listings[0].item.id == id then Some(0)
    else match FindListing(listings[1..], id)
      case None => None
      case Some(k) => Some(k + 1)
  }

  /** The index of the first bio snapshot with the given id. */
  function FindSnapshot(bio: seq<BioSnapshot>, id: string): (r: Option<nat>)
    ensures r.None? <==> forall i :: 0 <= i < |bio| ==> bio[i].id != id
    ensures r.Some? ==> r.value < |bio| && bio[r.value].id == id &&
                        forall i :: 0 <= i < r.value ==> bio[i].id != id
  {
    if bio == [] then None
    else if bio[0].id == id then Some(0)
    else match FindSnapshot(bio[1..], id)
      case None => None
      case Some(k) => Some(k + 1)
  }

  /** `item.seller || "seller"`: an absent or empty seller name falls back to "seller". */
  function SellerOr(seller: Option<string>): (name: string)
    ensures name != []
    ensures seller.Some? && seller.value != [] ==> name == seller.value
    ensures seller.None? || seller.value == [] ==> name == "seller"
  {
    if seller.Some? && seller.value != [] then seller.value else "seller"
  }

  /** The decimal digits of a natural number (Number.prototype.toString for integers). */
  function DecimalString(n: nat): (s: string)
    ensures |s| >= 1
    ensures n >= 10 ==> |s| >= 2
    ensures forall i :: 0 <= i < |s| ==> '0' <= s[i] <= '9'
  {
    if n < 10 then [('0' as int + n) as char]
    else DecimalString(n / 10) + [('0' as int + n % 10) as char]
  }

  /** Different numbers have different decimal strings. */
  lemma {:induction false} DecimalStringInjective(n: nat, m: nat)
    requires DecimalString(n) == DecimalString(m)
    ensures n == m
  {
    var s, t := DecimalString(n), DecimalString(m);
    if n >= 10 && m >= 10 {
      assert s[..|s| - 1] == DecimalString(n / 10);
      assert t[..|t| - 1] == DecimalString(m / 10);
      DecimalStringInjective(n / 10, m / 10);
      assert s[|s| - 1] == t[|t| - 1];
    } else if n < 10 && m < 10 {
      assert s[0] == t[0];
    }
  }

  /** The id of a bio check scheduled at clock reading `nowMs`. */
  function BioId(nowMs: nat): (id: string)
    ensures |id| > 4 && id[..4] == "bio-"
  {
    "bio-" + DecimalString(nowMs)
  }

  /** Bio checks scheduled at different milliseconds get different ids. */
  lemma BioIdsDistinct(t1: nat, t2: nat)
    requires t1 != t2
    ensures BioId(t1) != BioId(t2)
  {
    if BioId(t1) == BioId(t2) {
      assert BioId(t1)[4..] == DecimalString(t1);
      assert BioId(t2)[4..] == DecimalString(t2);
      DecimalStringInjective(t1, t2);
    }
  }

  const MsPerDay: real := 24.0 * 3600.0 * 1000.0

  /** The module-level store. */
  class Store {
    var listings: seq<Listing>
    var ledger: seq<LedgerEntry>
    var bio: seq<BioSnapshot>

    /** The ledger's hash chain is intact. */
    predicate Valid()
      reads this
    {
      ChainLinked(ledger)
    }

    constructor ()
      ensures listings == [] && ledger == [] && bio == []
      ensures Valid()
    {
      listings := [];
      ledger := [];
      bio := [];
    }

    /** appendLedger: adds one entry pointing back to the current last hash; `time` and
        `hash` are the ISO timestamp and the opaque hash the source computes. */
    method AppendLedger(actor: string, kind: EntryKind, note: Note, time: string, hash: string)
      modifies this
      ensures ledger == old(ledger) + [LedgerEntry(time, actor, kind, note, PrevHash(old(ledger)), hash)]
      ensures listings == old(listings) && bio == old(bio)
      ensures old(Valid()) ==> Valid()
    {
      var prevHash := if |ledger| > 0 then Some(ledger[|ledger| - 1].hash) else None;
      var entry := LedgerEntry(time, actor, kind, note, prevHash, hash);
      if ChainLinked(ledger) {
        ChainExtends(ledger, entry);
      }
      ledger := ledger + [entry];
    }

    /** listListings: a copy of the current listings. */
    method ListListings() returns (r: seq<Listing>)
      ensures r == listings
    {
      r := listings;
    }

    /** createListing: stores the item unsold and logs one "listing" entry. */
    method CreateListing(item: Item, time: string, hash: string)
      modifies this
      ensures listings == old(listings) + [Listing(item, false, None, None)]
      ensures ledger == old(ledger) +
        [LedgerEntry(time, SellerOr(item.seller), ListingKind, Listed(item.qty, item.price), PrevHash(old(ledger)), hash)]
      ensures bio == old(bio)
      ensures old(Valid()) ==> Valid()
    {
      listings := listings + [Listing(item, false, None, None)];
      AppendLedger(SellerOr(item.seller), ListingKind, Listed(item.qty, item.price), time, hash);
    }

    /** buyListing: marks the first listing with that id sold to `buyer` at `soldTime` and logs one
        "purchase" entry stamped `time` (a second clock reading); an unknown id changes nothing.
        An already sold listing is sold again. */
    method BuyListing(buyer: string, id: int, soldTime: string, time: string, hash: string)
      modifies this
      ensures FindListing(old(listings), id).None? ==> listings == old(listings) && ledger == old(ledger)
      ensures FindListing(old(listings), id).Some? ==>
        var k := FindListing(old(listings), id).value;
        var it := old(listings)[k];
        listings == old(listings)[k := Listing(it.item, true, Some(buyer), Some(soldTime))] &&
        ledger == old(ledger) +
          [LedgerEntry(time, buyer, Purchase, Bought(it.item.qty, SellerOr(it.item.seller)), PrevHash(old(ledger)), hash)]
      ensures bio == old(bio)
      ensures old(Valid()) ==> Valid()
    {
      var k := 0;
      while k < |listings| && listings[k].item.id != id
        invariant 0 <= k <= |listings|
        invariant forall i :: 0 <= i < k ==> listings[i].item.id != id
      {
        k := k + 1;
      }
      if k == |listings| {
        return;
      }
      var it := listings[k];
      listings := listings[k := Listing(it.item, true, Some(buyer), Some(soldTime))];
      AppendLedger(buyer, Purchase, Bought(it.item.qty, SellerOr(it.item.seller)), time, hash);
    }

    /** getLedger: a copy of the ledger. */
    method GetLedger() returns (r: seq<LedgerEntry>)
      ensures r == ledger
    {
      r := ledger;
    }

    /** saveSimulation: logs one "simulation" entry for the simulation's reuse purpose. */
    method SaveSimulation(reuse: string, time: string, hash: string)
      modifies this
      ensures ledger == old(ledger) + [LedgerEntry(time, "engineer", Simulation, SavedSim(reuse), PrevHash(old(ledger)), hash)]
      ensures listings == old(listings) && bio == old(bio)
      ensures old(Valid()) ==> Valid()
    {
      AppendLedger("engineer", Simulation, SavedSim(reuse), time, hash);
    }

    /** scheduleBioCheck: stores and returns a snapshot without a result, due `inDays` days
        (default 7) after the clock reading `dueNowMs`, for `target` (default "Secondary"), with an
        id taken from a second clock reading `idNowMs`, and logs it. */
    method ScheduleBioCheck(inDays: Option<real>, target: Option<string>, dueNowMs: nat, idNowMs: nat,
                            time: string, hash: string)
      returns (obj: BioSnapshot)
      modifies this
      ensures obj.result.None?
      ensures obj.id == BioId(idNowMs)
      ensures obj.target == (if target.Some? then target.value else "Secondary")
      ensures obj.dueMs == dueNowMs as real + (if inDays.Some? then inDays.value else 7.0) * MsPerDay
      ensures bio == old(bio) + [obj]
      ensures ledger == old(ledger) +
        [LedgerEntry(time, "scheduler", BioSchedule,
                     Scheduled(obj.target, if inDays.Some? then inDays.value else 7.0), PrevHash(old(ledger)), hash)]
      ensures listings == old(listings)
      ensures old(Valid()) ==> Valid()
    {
      var days := if inDays.Some? then inDays.value else 7.0;
      var tgt := if target.Some? then target.value else "Secondary";
      var due := dueNowMs as real + days * 24.0 * 3600.0 * 1000.0;
      obj := BioSnapshot(BioId(idNowMs), tgt, due, None);
      bio := bio + [obj];
      AppendLedger("scheduler", BioSchedule, Scheduled(tgt, days), time, hash);
    }

    /** listBioSnapshots: a copy of the scheduled checks. */
    method ListBioSnapshots() returns (r: seq<BioSnapshot>)
      ensures r == bio
    {
      r := bio;
    }

    /** uploadBioResult: sets the result of the first snapshot with that id and logs one
        "bio_result" entry; an unknown id changes nothing. */
    method UploadBioResult(id: string, result: BioResult, time: string, hash: string)
      modifies this
      ensures FindSnapshot(old(bio), id).None? ==> bio == old(bio) && ledger == old(ledger)
      ensures FindSnapshot(old(bio), id).Some? ==>
        var k := FindSnapshot(old(bio), id).value;
        var it := old(bio)[k];
        bio == old(bio)[k := it.(result := Some(result))] &&
        ledger == old(ledger) +
          [LedgerEntry(time, "lab", BioResultKind, UploadedResult(it.target), PrevHash(old(ledger)), hash)]
      ensures listings == old(listings)
      ensures old(Valid()) ==> Valid()
    {
      var k := 0;
      while k < |bio| && bio[k].id != id
        invariant 0 <= k <= |bio|
        invariant forall i :: 0 <= i < k ==> bio[i].id != id
      {
        k := k + 1;
      }
      if k == |bio| {
        return;
      }
      var it := bio[k];
      bio := bio[k := it.(result := Some(result))];
      AppendLedger("lab", BioResultKind, UploadedResult(it.target), time, hash);
    }
  }
}
