/**
  The simulated dataset marketplace and spending ledger of the HARMONY voice
  agent: a fixed catalogue of dataset listings grouped by domain, an
  append-only spending history, and the three tools the language model may
  call over them (view the history with its total, search a domain, simulate
  a purchase).
*/
module Marketplace {
  import opened Wrappers
  import opened Text

  /** One dataset on offer; prices are whole MNEE. */
  datatype Listing = Listing(id: string, name: string, provider: string, priceMnee: int, description: string)

  /** One entry of the catalogue dictionary: a domain key and its listings, in insertion order. */
  datatype Category = Category(domain: string, listings: seq<Listing>)

  /** One spending-history record. */
  datatype LedgerEntry = LedgerEntry(item: string, costMnee: int, date: string)

  // ---------------------------------------------------------------------
  // The fixed data the agent starts with
  // ---------------------------------------------------------------------

  function Catalogue(): seq<Category> {
    [ Category("machine learning", [
        Listing("ds001", "Large-Scale Image Dataset", "VisionData Inc.", 12,
                "50k labeled images for computer vision tasks"),
        Listing("ds002", "Financial Transactions Dataset", "OpenFinance Labs", 20,
                "Anonymized transaction data for fraud detection")]),
      Category("nlp", [
        Listing("ds003", "Multilingual Text Corpus", "LinguaTech", 8,
                "Text data in 20 languages for NLP models")]) ]
  }

  function InitialHistory(): seq<LedgerEntry> {
    [ LedgerEntry("Sentiment Analysis Dataset", 6, "Last week"),
      LedgerEntry("Stock Market API Access", 10, "Two weeks ago") ]
  }

  // ---------------------------------------------------------------------
  // Catalogue structure
  // ---------------------------------------------------------------------

  /** Every listing, category by category, in dictionary order. */
  function AllListings(cat: seq<Category>): seq<Listing> {
    if cat == [] then [] else cat[0].listings + AllListings(cat[1..])
  }

  /** The dictionary keys, in insertion order. */
  function Domains(cat: seq<Category>): (r: seq<string>)
    ensures |r| == |cat|
    ensures forall i :: 0 <= i < |cat| ==> r[i] == cat[i].domain
  {
    if cat == [] then [] else [cat[0].domain] + Domains(cat[1..])
  }

  /** Listing ids are pairwise distinct across all categories, and no domain key repeats. */
  ghost predicate CatalogueValid(cat: seq<Category>) {
    && (forall i, j :: 0 <= i < j < |AllListings(cat)| ==> AllListings(cat)[i].id != AllListings(cat)[j].id)
    && (forall i, j :: 0 <= i < j < |cat| ==> cat[i].domain != cat[j].domain)
  }

  lemma CatalogueIsValid()
    ensures CatalogueValid(Catalogue())
  {
    var cat := Catalogue();
    assert AllListings(cat[2..]) == [];
    assert AllListings(cat[1..]) == cat[1].listings;
    assert AllListings(cat) == cat[0].listings + cat[1].listings;
    var ls := AllListings(cat);
    assert |ls| == 3 && ls[0].id[4] == '1' && ls[1].id[4] == '2' && ls[2].id[4] == '3';
    assert cat[0].domain[0] == 'm' && cat[1].domain[0] == 'n';
  }

  /** `domain in self.datasets` / `self.datasets[domain]`: the listings stored under a key. */
  function Lookup(cat: seq<Category>, domain: string): (r: Option<seq<Listing>>)
    ensures r.None? <==> domain !in Domains(cat)
    ensures r.Some? ==> exists i :: 0 <= i < |cat| && cat[i].domain == domain && cat[i].listings == r.value
  {
    if cat == [] then None
    else if cat[0].domain == domain then Some(cat[0].listings)
    else Lookup(cat[1..], domain)
  }

  /** The first listing of a group whose id is `id`. */
  function FindIn(group: seq<Listing>, id: string): Option<Listing> {
    if group == [] then None
    else if group[0].id == id then Some(group[0])
    else FindIn(group[1..], id)
  }

  /** The listing the purchase tool's nested scan stops at: the first with id `id`. */
  function FindListing(cat: seq<Category>, id: string): Option<Listing> {
    if cat == [] then None
    else match FindIn(cat[0].listings, id)
      case Some(ds) => Some(ds)
      case None => FindListing(cat[1..], id)
  }

  lemma {:induction false} FindInSpec(group: seq<Listing>, id: string)
    ensures FindIn(group, id).Some? ==> FindIn(group, id).value in group && FindIn(group, id).value.id == id
    ensures FindIn(group, id).None? <==> forall ds :: ds in group ==> ds.id != id
  {
    if group != [] {
      FindInSpec(group[1..], id);
      assert forall ds :: ds in group ==> ds == group[0] || ds in group[1..];
    }
  }

  /** The scan finds a listing exactly when one with that id is on offer, and what it finds is on offer. */
  lemma {:induction false} FindListingSpec(cat: seq<Category>, id: string)
    ensures FindListing(cat, id).Some? ==>
              FindListing(cat, id).value in AllListings(cat) && FindListing(cat, id).value.id == id
    ensures FindListing(cat, id).None? <==> forall ds :: ds in AllListings(cat) ==> ds.id != id
  {
    if cat != [] {
      FindInSpec(cat[0].listings, id);
      FindListingSpec(cat[1..], id);
      assert AllListings(cat) == cat[0].listings + AllListings(cat[1..]);
    }
  }

  /** With distinct ids, the listing found for an id is the one listing carrying that id. */
  lemma FindListingUnique(cat: seq<Category>, ds: Listing)
    requires CatalogueValid(cat)
    requires ds in AllListings(cat)
    ensures FindListing(cat, ds.id) == Some(ds)
  {
    FindListingSpec(cat, ds.id);
    var all := AllListings(cat);
    var f := FindListing(cat, ds.id).value;
    var i :| 0 <= i < |all| && all[i] == ds;
    var j :| 0 <= j < |all| && all[j] == f;
    assert i == j;
  }

  // ---------------------------------------------------------------------
  // The ledger and the texts the tools return
  // ---------------------------------------------------------------------

  /** `sum(item["cost_mnee"] for item in history)`. */
  function SumCosts(h: seq<LedgerEntry>): int {
    if h == [] then 0 else h[0].costMnee + SumCosts(h[1..])
  }

  lemma {:induction false} SumCostsAppend(h: seq<LedgerEntry>, e: LedgerEntry)
    ensures SumCosts(h + [e]) == SumCosts(h) + e.costMnee
  {
    if h != [] {
      assert (h + [e])[1..] == h[1..] + [e];
      SumCostsAppend(h[1..], e);
    }
  }

  function HistoryLine(e: LedgerEntry): string {
    "\U{2022} " + e.item + " \U{2013} " + IntToString(e.costMnee) + " MNEE (" + e.date + ")\n"
  }

  /** One bullet line per entry, in ledger order. */
  function HistoryLines(h: seq<LedgerEntry>): string {
    if h == [] then "" else HistoryLines(h[..|h| - 1]) + HistoryLine(h[|h| - 1])
  }

  const HistoryHeader: string := "Here is your recent spending history:\n\n"

  function TotalLine(total: int): string {
    "\nTotal spent recently: " + IntToString(total) + " MNEE."
  }

  /** The text `view_spending_history` returns for ledger `h`. */
  function HistoryReport(h: seq<LedgerEntry>): string {
    HistoryHeader + HistoryLines(h) + TotalLine(SumCosts(h))
  }

  function ListingBlock(ds: Listing): string {
    "\U{2022} " + ds.name + "\n"
    + "  Provider: " + ds.provider + "\n"
    + "  Cost: " + IntToString(ds.priceMnee) + " MNEE\n"
    + "  Description: " + ds.description + "\n"
    + "  ID: " + ds.id + "\n\n"
  }

  /** One block per listing, in category order. */
  function ListingBlocks(ls: seq<Listing>): string {
    if ls == [] then "" else ListingBlocks(ls[..|ls| - 1]) + ListingBlock(ls[|ls| - 1])
  }

  /** The blocks of the first `i + 1` listings extend those of the first `i` by one block. */
  lemma ListingBlocksStep(ls: seq<Listing>, i: int)
    requires 0 <= i < |ls|
    ensures ListingBlocks(ls[..i + 1]) == ListingBlocks(ls[..i]) + ListingBlock(ls[i])
  {
    assert ls[..i + 1][..i] == ls[..i];
  }

  function FoundHeader(count: int, domain: string): string {
    "Found " + IntToString(count) + " datasets in " + domain + ":\n\n"
  }

  function UnknownDomainReply(cat: seq<Category>, domain: string): string {
    "No datasets found for '" + domain + "'. " + "Available domains are: " + Join(", ", Domains(cat)) + "."
  }

  /** The text `search_datasets` returns once the domain has been lower-cased. */
  function SearchReply(cat: seq<Category>, domain: string): string {
    match Lookup(cat, domain)
    case None => UnknownDomainReply(cat, domain)
    case Some(ls) => FoundHeader(|ls|, domain) + ListingBlocks(ls)
  }

  function PurchaseReply(ds: Listing): string {
    "\U{2713} Purchase simulated successfully.\n\n"
    + "Dataset: " + ds.name + "\n"
    + "Cost: " + IntToString(ds.priceMnee) + " MNEE\n\n"
    + "I\U{2019}ve recorded this in your spending history."
  }

  const NotFoundReply: string := "I couldn\U{2019}t find that dataset ID. Please search again."

  /** The ledger after a purchase attempt for `id`: one entry more when the id is on offer. */
  function Purchased(h: seq<LedgerEntry>, cat: seq<Category>, id: string): seq<LedgerEntry> {
    match FindListing(cat, id)
    case Some(ds) => h + [LedgerEntry(ds.name, ds.priceMnee, "Today")]
    case None => h
  }

  /** The text a purchase attempt for `id` returns. */
  function PurchaseResponse(cat: seq<Category>, id: string): string {
    match FindListing(cat, id)
    case Some(ds) => PurchaseReply(ds)
    case None => NotFoundReply
  }

  // ---------------------------------------------------------------------
  // The agent object
  // ---------------------------------------------------------------------

  class HarmonyAgent {
    var datasets: seq<Category>
    var spendingHistory: seq<LedgerEntry>

    ghost predicate Valid()
      reads this
    {
      CatalogueValid(datasets)
    }

    constructor ()
      ensures Valid()
      ensures datasets == Catalogue() && spendingHistory == InitialHistory()
    {
      datasets := Catalogue();
      spendingHistory := InitialHistory();
      CatalogueIsValid();
    }

    /** The history tool: every entry in order, then the total of all costs. */
    method ViewSpendingHistory() returns (response: string)
      ensures response == HistoryReport(spendingHistory)
    {
      var h := spendingHistory;
      var total := 0;
      var i := 0;
      while i < |h|
        invariant 0 <= i <= |h|
        invariant total == SumCosts(h[..i])
      {
        assert h[..i + 1] == h[..i] + [h[i]];
        SumCostsAppend(h[..i], h[i]);
        total := total + h[i].costMnee;
        i := i + 1;
      }
      assert h[..|h|] == h;
      var lines := "";
      i := 0;
      while i < |h|
        invariant 0 <= i <= |h|
        invariant lines == HistoryLines(h[..i])
      {
        assert h[..i + 1][..i] == h[..i];
        lines := lines + HistoryLine(h[i]);
        i := i + 1;
      }
      response := HistoryHeader + lines + TotalLine(total);
    }

    /** The search tool: lower-case the domain, then list that category or name the known domains. */
    method SearchDatasets(domain: string) returns (response: string)
      ensures response == SearchReply(datasets, Lower(domain))
    {
      var d := Lower(domain);
      var found := Lookup(datasets, d);
      if found.None? {
        return UnknownDomainReply(datasets, d);
      }
      var results := found.value;
      var blocks := "";
      var i := 0;
      while i < |results|
        invariant 0 <= i <= |results|
        invariant blocks == ListingBlocks(results[..i])
      {
        ListingBlocksStep(results, i);
        blocks := blocks + ListingBlock(results[i]);
        i := i + 1;
      }
      assert results[..|results|] == results;
      response := FoundHeader(|results|, d) + blocks;
    }

    /**
      The purchase tool: scan every category for the id; on a match append
      one ledger entry. Since the catalogue's ids are unique, the entry is
      that of the one listing with the id.
    */
    method SimulatePurchase(datasetId: string) returns (response: string)
      requires Valid()
      modifies this`spendingHistory
      ensures Valid()
      ensures spendingHistory == Purchased(old(spendingHistory), datasets, datasetId)
      ensures response == PurchaseResponse(datasets, datasetId)
      ensures forall ds :: ds in AllListings(datasets) && ds.id == datasetId ==>
        && spendingHistory == old(spendingHistory) + [LedgerEntry(ds.name, ds.priceMnee, "Today")]
        && response == PurchaseReply(ds)
    {
      forall ds | ds in AllListings(datasets) && ds.id == datasetId
        ensures FindListing(datasets, datasetId) == Some(ds)
      {
        FindListingUnique(datasets, ds);
      }
      var g := 0;
      while g < |datasets|
        invariant 0 <= g <= |datasets|
        invariant spendingHistory == old(spendingHistory)
        invariant FindListing(datasets, datasetId) == FindListing(datasets[g..], datasetId)
      {
        var group := datasets[g].listings;
        var k := 0;
        while k < |group|
          invariant 0 <= k <= |group|
          invariant spendingHistory == old(spendingHistory)
          invariant FindIn(group, datasetId) == FindIn(group[k..], datasetId)
        {
          var ds := group[k];
          if ds.id == datasetId {
            spendingHistory := spendingHistory + [LedgerEntry(ds.name, ds.priceMnee, "Today")];
            return PurchaseReply(ds);
          }
          assert group[k..][1..] == group[k + 1..];
          k := k + 1;
        }
        assert datasets[g..][1..] == datasets[g + 1..];
        g := g + 1;
      }
      response := NotFoundReply;
    }
  }

  // ---------------------------------------------------------------------
  // Properties of the tools
  // ---------------------------------------------------------------------

  /** The history report ends with the total of every cost in the ledger. */
  lemma HistoryReportEndsWithTotal(h: seq<LedgerEntry>)
    ensures var r := HistoryReport(h); var t := TotalLine(SumCosts(h));
      |t| <= |r| && r[|r| - |t|..] == t
  {
  }

  /** A purchase that finds its listing raises the reported total by exactly that listing's price. */
  lemma PurchaseRaisesTotal(h: seq<LedgerEntry>, cat: seq<Category>, id: string)
    ensures FindListing(cat, id).Some? ==>
              SumCosts(Purchased(h, cat, id)) == SumCosts(h) + FindListing(cat, id).value.priceMnee
    ensures FindListing(cat, id).None? ==> SumCosts(Purchased(h, cat, id)) == SumCosts(h)
  {
    if FindListing(cat, id).Some? {
      var ds := FindListing(cat, id).value;
      SumCostsAppend(h, LedgerEntry(ds.name, ds.priceMnee, "Today"));
    }
  }

  /** A purchase only ever appends: the old ledger is a prefix of the new one, at most one entry shorter. */
  lemma PurchaseAppendsAtMostOne(h: seq<LedgerEntry>, cat: seq<Category>, id: string)
    ensures var h' := Purchased(h, cat, id);
      && h <= h'
      && |h'| == |h| + (if FindListing(cat, id).Some? then 1 else 0)
      && (|h'| > |h| ==> h'[|h|] == LedgerEntry(FindListing(cat, id).value.name, FindListing(cat, id).value.priceMnee, "Today"))
  {
  }

  /** Purchasing the same listing twice records it twice: the tool is not idempotent. */
  lemma PurchaseNotIdempotent(h: seq<LedgerEntry>, cat: seq<Category>, ds: Listing)
    requires CatalogueValid(cat) && ds in AllListings(cat)
    ensures var e := LedgerEntry(ds.name, ds.priceMnee, "Today");
      Purchased(Purchased(h, cat, ds.id), cat, ds.id) == h + [e, e]
  {
    FindListingUnique(cat, ds);
  }

  /** Domains that differ only in ASCII letter case give the same search text. */
  lemma SearchCaseInsensitive(cat: seq<Category>, a: string, b: string)
    requires |a| == |b|
    requires forall i :: 0 <= i < |a| ==> LowerChar(a[i]) == LowerChar(b[i])
    ensures SearchReply(cat, Lower(a)) == SearchReply(cat, Lower(b))
  {
    assert Lower(a) == Lower(b);
  }

  /** Searching an already lower-cased domain changes nothing: the tool's lookup key is case-free. */
  lemma SearchLowerStable(cat: seq<Category>, d: string)
    ensures SearchReply(cat, Lower(Lower(d))) == SearchReply(cat, Lower(d))
  {
    LowerIdempotent(d);
  }

  /** A piece of the middle part of a concatenation occurs in the whole. */
  lemma ContainsInMiddle(a: string, b: string, c: string, k: string)
    requires Contains(b, k)
    ensures Contains(a + b + c, k)
  {
    var i :| OccursAt(b, k, i);
    var s := a + b + c;
    assert s[|a| + i..|a| + i + |k|] == b[i..i + |k|];
    assert OccursAt(s, k, |a| + i);
  }

  /** Whatever occurs in a string still occurs once more text is appended. */
  lemma ContainsBefore(a: string, b: string, k: string)
    requires Contains(a, k)
    ensures Contains(a + b, k)
  {
    var i :| OccursAt(a, k, i);
    assert (a + b)[i..i + |k|] == a[i..i + |k|];
    assert OccursAt(a + b, k, i);
  }

  /** A string occurs at the end of anything it is appended to. */
  lemma ContainsAtEnd(a: string, b: string)
    ensures Contains(a + b, b)
  {
    assert (a + b)[|a|..|a| + |b|] == b;
    assert OccursAt(a + b, b, |a|);
  }

  /** For a domain that is not a key, the reply names every known domain key. */
  lemma UnknownDomainNamesEveryKey(cat: seq<Category>, d: string, j: nat)
    requires Lookup(cat, d).None?
    requires j < |cat|
    ensures Contains(SearchReply(cat, d), cat[j].domain)
  {
    JoinContainsEach(", ", Domains(cat), j);
    var pre := "No datasets found for '" + d + "'. " + "Available domains are: ";
    assert SearchReply(cat, d) == pre + Join(", ", Domains(cat)) + ".";
    ContainsInMiddle(pre, Join(", ", Domains(cat)), ".", cat[j].domain);
  }

  /** Every listing's block appears in the blocks of its category. */
  lemma {:induction false} ListingBlocksContainEach(ls: seq<Listing>, k: nat)
    requires k < |ls|
    ensures Contains(ListingBlocks(ls), ListingBlock(ls[k]))
  {
    var n := |ls| - 1;
    assert ListingBlocks(ls) == ListingBlocks(ls[..n]) + ListingBlock(ls[n]);
    if k == n {
      ContainsAtEnd(ListingBlocks(ls[..n]), ListingBlock(ls[n]));
    } else {
      ListingBlocksContainEach(ls[..n], k);
      assert ls[..n][k] == ls[k];
      ContainsBefore(ListingBlocks(ls[..n]), ListingBlock(ls[n]), ListingBlock(ls[k]));
    }
  }

  /**
    For a known domain, the reply starts with the count of that category's
    listings and shows every listing's name, provider, price, description and id.
  */
  lemma KnownDomainListsEvery(cat: seq<Category>, d: string, k: nat)
    requires Lookup(cat, d).Some?
    requires k < |Lookup(cat, d).value|
    ensures var ls := Lookup(cat, d).value; var r := SearchReply(cat, d);
      && r[..|FoundHeader(|ls|, d)|] == FoundHeader(|ls|, d)
      && Contains(r, ListingBlock(ls[k]))
  {
    var ls := Lookup(cat, d).value;
    ListingBlocksContainEach(ls, k);
    ContainsInMiddle(FoundHeader(|ls|, d), ListingBlocks(ls), "", ListingBlock(ls[k]));
    assert SearchReply(cat, d) == FoundHeader(|ls|, d) + ListingBlocks(ls) + "";
  }

  /** The shipped catalogue answers "NLP" exactly as it answers "nlp", with its one NLP listing. */
  lemma NlpSearchExample()
    ensures SearchReply(Catalogue(), Lower("NLP")) == SearchReply(Catalogue(), Lower("nlp"))
    ensures Lookup(Catalogue(), Lower("NLP")) == Some(Catalogue()[1].listings)
  {
    var upper, lower := Lower("NLP"), Lower("nlp");
    assert |upper| == 3 && upper[0] == 'n' && upper[1] == 'l' && upper[2] == 'p';
    assert |lower| == 3 && lower[0] == 'n' && lower[1] == 'l' && lower[2] == 'p';
    assert upper == lower == "nlp";
  }
}
