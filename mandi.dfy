/** The market page: the crop rate list with its filter, and the sell form that estimates
    earnings and issues a gate pass. */
module Mandi {
  import opened Js

  datatype MarketEntry = MarketEntry(id: int, crop: string, market: string, price: int)

  /** The rates the page lists, in order. */
  const MARKET_DATA := [
    MarketEntry(1, "Wheat (Gehu)", "Rampur Mandi", 2125),
    MarketEntry(2, "Rice (Dhaan)", "Rampur Mandi", 2040),
    MarketEntry(3, "Mustard", "Sitapur Mandi", 5450),
    MarketEntry(4, "Potato", "Local Haat", 850)
  ]

  /** The filter that shows every entry. */
  const ALL := "All"

  /** The price of the first entry for `crop`, or 0 when no entry is for it. */
  function PriceOf(entries: seq<MarketEntry>, crop: string): (p: int)
    ensures (exists i :: 0 <= i < |entries| && entries[i].crop == crop) || p == 0
    ensures forall i :: 0 <= i < |entries| && entries[i].crop == crop ==>
              exists j :: 0 <= j <= i && entries[j].crop == crop && p == entries[j].price
  {
    if entries == [] then 0
    else if entries[0].crop == crop then entries[0].price
    else PriceOf(entries[1..], crop)
  }

  /** No two entries are for the same crop. */
  predicate DistinctCrops(entries: seq<MarketEntry>)
  {
    forall i, j :: 0 <= i < j < |entries| ==> entries[i].crop != entries[j].crop
  }

  /** Each crop the sell form offers (one option per entry) has exactly its listed price. */
  lemma OfferedCropPrices(i: int)
    requires 0 <= i < |MARKET_DATA|
    ensures PriceOf(MARKET_DATA, MARKET_DATA[i].crop) == MARKET_DATA[i].price
  {
    var d := MARKET_DATA;
    assert d[0].crop[0] == 'W' && d[1].crop[0] == 'R' && d[2].crop[0] == 'M' && d[3].crop[0] == 'P';
    assert DistinctCrops(d);
  }

  /** `calculateEarnings()`: 0 for an empty quantity, otherwise the quantity read by `parseInt`
      times the crop's price; `None` stands for NaN, when the quantity has no leading number. */
  function Earnings(entries: seq<MarketEntry>, crop: string, qty: string): (r: Option<int>)
    ensures qty == "" ==> r == Some(0)
    ensures qty != "" ==> (r.None? <==> ParseInt(qty).None?)
    ensures qty != "" && r.Some? ==> r.value == ParseInt(qty).value * PriceOf(entries, crop)
  {
    if qty == "" then Some(0)
    else match ParseInt(qty)
      case None => None
      case Some(n) => Some(n * PriceOf(entries, crop))
  }

  /** A quantity typed as a whole number earns that many times the price; for a crop with no
      entry that is 0, and trailing text after the number (as in "12.5") is ignored. */
  lemma EarningsOfWholeQuantity(entries: seq<MarketEntry>, crop: string, n: int, rest: string)
    requires rest == [] || !IsDigit(rest[0])
    ensures Earnings(entries, crop, NumberToString(n) + rest) == Some(n * PriceOf(entries, crop))
    ensures (forall i :: 0 <= i < |entries| ==> entries[i].crop != crop) ==>
              Earnings(entries, crop, NumberToString(n) + rest) == Some(0)
  {
    ParseIntOfNumberToString(n, rest);
    assert NumberToString(n) + rest != "" by {
      assert |NumberToString(n)| > 0;
    }
  }

  function FilterCrop(entries: seq<MarketEntry>, selected: string): (r: seq<MarketEntry>)
    ensures |r| <= |entries|
    ensures forall i :: 0 <= i < |r| ==> Includes(r[i].crop, selected)
  {
    if entries == [] then []
    else if Includes(entries[0].crop, selected) then [entries[0]] + FilterCrop(entries[1..], selected)
    else FilterCrop(entries[1..], selected)
  }

  /** `filteredData`: the whole list for "All", otherwise the entries whose crop name contains
      the selected text, in list order. */
  function FilteredData(entries: seq<MarketEntry>, selected: string): (r: seq<MarketEntry>)
    ensures selected == ALL ==> r == entries
    ensures selected != ALL ==> forall i :: 0 <= i < |r| ==> Includes(r[i].crop, selected)
    ensures |r| <= |entries|
  {
    if selected == ALL then entries else FilterCrop(entries, selected)
  }

  /** The filter keeps exactly the matching entries: an entry is shown if and only if it is
      listed and its crop name contains the selected text. */
  lemma {:induction false} FilterCropExactly(entries: seq<MarketEntry>, selected: string, m: MarketEntry)
    ensures m in FilterCrop(entries, selected) <==> m in entries && Includes(m.crop, selected)
  {
    if entries != [] {
      FilterCropExactly(entries[1..], selected, m);
      assert entries == [entries[0]] + entries[1..];
    }
  }

  /** The filter keeps list order: filtering a concatenation concatenates the filtered parts. */
  lemma {:induction false} FilterCropAppend(a: seq<MarketEntry>, b: seq<MarketEntry>, selected: string)
    ensures FilterCrop(a + b, selected) == FilterCrop(a, selected) + FilterCrop(b, selected)
  {
    if a == [] {
      assert a + b == b;
    } else {
      assert (a + b)[1..] == a[1..] + b;
      FilterCropAppend(a[1..], b, selected);
    }
  }

  /** The sell form and the gate pass. */
  class MandiPage {
    var selectedCrop: string
    var crop: string
    var qty: string
    var quality: string
    var showPass: bool

    constructor ()
      ensures selectedCrop == ALL && crop == "Wheat (Gehu)" && qty == "" && quality == "A" && !showPass
    {
      selectedCrop := ALL;
      crop := "Wheat (Gehu)";
      qty := "";
      quality := "A";
      showPass := false;
    }

    /** One of the filter chips. */
    method SelectFilter(choice: string)
      modifies this`selectedCrop
      ensures selectedCrop == choice
    {
      selectedCrop := choice;
    }

    /** The crop select of the sell form. */
    method ChooseCrop(value: string)
      modifies this`crop
      ensures crop == value
    {
      crop := value;
    }

    /** The quantity input of the sell form. */
    method EnterQuantity(value: string)
      modifies this`qty
      ensures qty == value
    {
      qty := value;
    }

    /** Submitting the sell form: the quantity field is `required`, so the browser submits only
        a non-empty quantity, and `handleGeneratePass` then shows the pass. */
    method GeneratePass()
      requires !showPass
      modifies this`showPass
      ensures showPass == (qty != "")
    {
      if qty != "" {
        showPass := true;
      }
    }

    /** "Create New Pass" on the pass. */
    method CreateNewPass()
      requires showPass
      modifies this`showPass
      ensures !showPass
    {
      showPass := false;
    }
  }
}
