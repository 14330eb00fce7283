/**
 * The history page: the past campaigns and statuses, the search box that
 * keeps the items whose title contains the search term ignoring case,
 * and the two tabs that split the result by kind.
 */
module History {
  import opened Strings
  import opened Lists

  /** A history entry is a campaign or a status. */
  datatype ItemType = CampaignItem | StatusItem

  /** How the sending went. */
  datatype SendStatus = Completed | Failed | Partial

  datatype HistoryItem = HistoryItem(
    id: string,
    itemType: ItemType,
    title: string,
    date: string,
    time: string,
    status: SendStatus,
    messagesSent: nat,
    totalMessages: nat,
    audience: string)

  /** `item.title.toLowerCase().includes(searchTerm.toLowerCase())`. */
  predicate Matches(term: string, item: HistoryItem) {
    Contains(ToLower(item.title), ToLower(term))
  }

  /** `filteredHistory`: the matching items, in their original order. */
  function FilteredHistory(data: seq<HistoryItem>, term: string): (r: seq<HistoryItem>)
    ensures forall item :: item in r <==> item in data && Matches(term, item)
    ensures IsSubsequence(r, data)
  {
    var keep := (item: HistoryItem) => Matches(term, item);
    FilterIsSubsequence(data, keep);
    Filter(data, keep)
  }

  /** `campaignHistory`: the matching campaigns, in order. */
  function CampaignHistory(data: seq<HistoryItem>, term: string): (r: seq<HistoryItem>)
    ensures forall item :: item in r <==> item in data && Matches(term, item) && item.itemType == CampaignItem
  {
    Filter(FilteredHistory(data, term), (item: HistoryItem) => item.itemType == CampaignItem)
  }

  /** `statusHistory`: the matching statuses, in order. */
  function StatusHistory(data: seq<HistoryItem>, term: string): (r: seq<HistoryItem>)
    ensures forall item :: item in r <==> item in data && Matches(term, item) && item.itemType == StatusItem
  {
    Filter(FilteredHistory(data, term), (item: HistoryItem) => item.itemType == StatusItem)
  }

  /** An empty search box shows every item, in order. */
  lemma EmptyTermKeepsAll(data: seq<HistoryItem>)
    ensures FilteredHistory(data, []) == data
  {
    forall item | item in data ensures Matches([], item) {
      ContainsEmpty(ToLower(item.title));
    }
    FilterAll(data, (item: HistoryItem) => Matches([], item));
  }

  /** Every item shows in exactly one of the two tabs: their sizes add up to the number of matches. */
  lemma TabsPartition(data: seq<HistoryItem>, term: string)
    ensures |CampaignHistory(data, term)| + |StatusHistory(data, term)| == |FilteredHistory(data, term)|
  {
    FilterPartition(FilteredHistory(data, term),
      (item: HistoryItem) => item.itemType == CampaignItem,
      (item: HistoryItem) => item.itemType == StatusItem);
  }

  /** The campaign tab keeps the campaigns of the data that match, in their original order. */
  lemma CampaignTabInOrder(data: seq<HistoryItem>, term: string)
    ensures CampaignHistory(data, term) == Filter(data, (item: HistoryItem) => Matches(term, item) && item.itemType == CampaignItem)
    ensures IsSubsequence(CampaignHistory(data, term), data)
  {
    FilterFilter(data, (item: HistoryItem) => Matches(term, item),
      (item: HistoryItem) => item.itemType == CampaignItem,
      (item: HistoryItem) => Matches(term, item) && item.itemType == CampaignItem);
    FilterIsSubsequence(data, (item: HistoryItem) => Matches(term, item) && item.itemType == CampaignItem);
  }

  /** The search ignores case: a term and its lower-cased form find the same items. */
  lemma SearchIgnoresCase(data: seq<HistoryItem>, term: string)
    ensures FilteredHistory(data, ToLower(term)) == FilteredHistory(data, term)
  {
    ToLowerIdempotent(term);
    FilterSame(data, (item: HistoryItem) => Matches(ToLower(term), item), (item: HistoryItem) => Matches(term, item));
  }

  /** An item whose title includes the term as written is always found. */
  lemma TitleFound(item: HistoryItem, pre: string, term: string, post: string)
    requires item.title == pre + term + post
    ensures Matches(term, item)
  {
    var lower := ToLower(item.title);
    assert lower[|pre|..|pre| + |term|] == ToLower(term);
    assert OccursAt(lower, ToLower(term), |pre|);
  }

  /** The page's built-in history: three campaigns and two statuses. */
  const HistoryData: seq<HistoryItem> := [
    HistoryItem("1", CampaignItem, "Prato do Dia - Clientes Quentes", "2025-10-01", "14:00", Completed, 850, 850, "850 clientes"),
    HistoryItem("2", StatusItem, "Promoção Especial", "2025-10-01", "10:30", Completed, 1, 1, "Todos os contatos"),
    HistoryItem("3", CampaignItem, "Recuperação de Clientes Frios", "2025-09-30", "16:00", Partial, 350, 500, "500 clientes"),
    HistoryItem("4", StatusItem, "Cardápio da Semana", "2025-09-29", "09:00", Completed, 1, 1, "Todos os contatos"),
    HistoryItem("5", CampaignItem, "Promoção Fim de Semana", "2025-09-28", "18:00", Failed, 0, 1200, "1.2k clientes")]

  predicate IsCampaign(item: HistoryItem) {
    item.itemType == CampaignItem
  }

  predicate IsStatus(item: HistoryItem) {
    item.itemType == StatusItem
  }

  /** With the search box empty, the campaign tab lists three items and the status tab two. */
  lemma BuiltInTabs()
    ensures |CampaignHistory(HistoryData, [])| == 3 && |StatusHistory(HistoryData, [])| == 2
  {
    EmptyTermKeepsAll(HistoryData);
    var d := HistoryData;
    BuiltInKinds();
    TabSizes(d);
    FilterSame(d, (item: HistoryItem) => item.itemType == CampaignItem, IsCampaign);
    FilterSame(d, (item: HistoryItem) => item.itemType == StatusItem, IsStatus);
  }

  /** The kinds of the built-in entries, in order. */
  lemma BuiltInKinds()
    ensures |HistoryData| == 5
    ensures HistoryData[0].itemType == CampaignItem && HistoryData[1].itemType == StatusItem
    ensures HistoryData[2].itemType == CampaignItem && HistoryData[3].itemType == StatusItem
    ensures HistoryData[4].itemType == CampaignItem
  {
  }

  /** The tab sizes of five items of kinds campaign, status, campaign, status, campaign. */
  lemma TabSizes(d: seq<HistoryItem>)
    requires |d| == 5
    requires d[0].itemType == CampaignItem && d[1].itemType == StatusItem && d[2].itemType == CampaignItem
    requires d[3].itemType == StatusItem && d[4].itemType == CampaignItem
    ensures |Filter(d, IsCampaign)| == 3 && |Filter(d, IsStatus)| == 2
  {
    assert d == [d[0]] + ([d[1]] + ([d[2]] + ([d[3]] + [d[4]])));
    FilterAppend([d[0]], [d[1]] + ([d[2]] + ([d[3]] + [d[4]])), IsCampaign);
    FilterAppend([d[1]], [d[2]] + ([d[3]] + [d[4]]), IsCampaign);
    FilterAppend([d[2]], [d[3]] + [d[4]], IsCampaign);
    FilterAppend([d[3]], [d[4]], IsCampaign);
    FilterAppend([d[0]], [d[1]] + ([d[2]] + ([d[3]] + [d[4]])), IsStatus);
    FilterAppend([d[1]], [d[2]] + ([d[3]] + [d[4]]), IsStatus);
    FilterAppend([d[2]], [d[3]] + [d[4]], IsStatus);
    FilterAppend([d[3]], [d[4]], IsStatus);
  }
}
