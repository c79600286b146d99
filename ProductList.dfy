/** The product list page: the displayed list derived from the loaded products, a search
    term and a price range, and the component state that holds them. */
module ProductList {
  import opened Strings
  import opened Sequences

  /** A product as the page receives it. Only `name` and `price` drive the filter; `id`,
      `category` and `image` are shown on the cards. */
  datatype Item = Item(id: string, name: string, price: real, category: string, image: string)

  const DefaultMinPrice: real := 0.0
  const DefaultMaxPrice: real := 1000.0

  /** `product.name.toLowerCase().includes(searchTerm.toLowerCase())` */
  predicate NameMatches(p: Item, term: string)
  {
    Contains(Lower(p.name), Lower(term))
  }

  /** `product.price >= minPrice && product.price <= maxPrice` */
  predicate PriceWithin(p: Item, minPrice: real, maxPrice: real)
  {
    minPrice <= p.price <= maxPrice
  }

  /** The filter effect: the name filter when the term is non-empty, then the price filter. */
  function Filtered(productList: seq<Item>, searchTerm: string, minPrice: real, maxPrice: real): (shown: seq<Item>)
    ensures |shown| <= |productList|
    ensures forall p :: p in shown ==>
              p in productList && PriceWithin(p, minPrice, maxPrice)
              && (searchTerm != "" ==> NameMatches(p, searchTerm))
  {
    var named := if searchTerm != "" then Select(productList, (p: Item) => NameMatches(p, searchTerm))
                 else productList;
    Select(named, (p: Item) => PriceWithin(p, minPrice, maxPrice))
  }

  /** Whether a product belongs on screen. */
  predicate Shown(p: Item, searchTerm: string, minPrice: real, maxPrice: real)
  {
    NameMatches(p, searchTerm) && PriceWithin(p, minPrice, maxPrice)
  }

  /** The empty term matches every name, so skipping the name filter for it changes nothing:
      the two-step filter is a single stable filter by `Shown`. */
  lemma FilteredIsOneFilter(productList: seq<Item>, searchTerm: string, minPrice: real, maxPrice: real)
    ensures Filtered(productList, searchTerm, minPrice, maxPrice)
            == Select(productList, (p: Item) => Shown(p, searchTerm, minPrice, maxPrice))
  {
    var byName := (p: Item) => NameMatches(p, searchTerm);
    var byPrice := (p: Item) => PriceWithin(p, minPrice, maxPrice);
    var shown := (p: Item) => Shown(p, searchTerm, minPrice, maxPrice);
    if searchTerm != "" {
      SelectSelect(productList, byName, byPrice, shown);
    } else {
      forall p | p in productList
        ensures byPrice(p) == shown(p)
      {
        ContainsEmpty(Lower(p.name));
      }
      SelectCongruent(productList, byPrice, shown);
    }
  }

  /** The displayed products are the loaded ones with some left out, in their original order. */
  lemma FilteredIsSubsequence(productList: seq<Item>, searchTerm: string, minPrice: real, maxPrice: real)
    ensures IsSubsequence(Filtered(productList, searchTerm, minPrice, maxPrice), productList)
  {
    var byName := (p: Item) => NameMatches(p, searchTerm);
    var byPrice := (p: Item) => PriceWithin(p, minPrice, maxPrice);
    var named := if searchTerm != "" then Select(productList, byName) else productList;
    if searchTerm != "" {
      SelectIsSubsequence(productList, byName);
    } else {
      SubsequenceReflexive(productList);
    }
    SelectIsSubsequence(named, byPrice);
    SubsequenceTransitive(Select(named, byPrice), named, productList);
  }

  /** Soundness and completeness: a loaded product is displayed exactly when its price is in
      the range (both ends included) and, for a non-empty term, its name contains the term
      case-insensitively. */
  lemma FilteredMembership(productList: seq<Item>, searchTerm: string, minPrice: real, maxPrice: real, p: Item)
    ensures p in Filtered(productList, searchTerm, minPrice, maxPrice)
            <==> p in productList
                 && (searchTerm != "" ==> NameMatches(p, searchTerm))
                 && minPrice <= p.price <= maxPrice
  {
  }

  /** Filtering the displayed list again with the same criteria gives it back unchanged. */
  lemma FilteredIdempotent(productList: seq<Item>, searchTerm: string, minPrice: real, maxPrice: real)
    ensures var shown := Filtered(productList, searchTerm, minPrice, maxPrice);
            Filtered(shown, searchTerm, minPrice, maxPrice) == shown
  {
    var shown := Filtered(productList, searchTerm, minPrice, maxPrice);
    FilteredIsOneFilter(productList, searchTerm, minPrice, maxPrice);
    FilteredIsOneFilter(shown, searchTerm, minPrice, maxPrice);
    SelectIdempotent(productList, (p: Item) => Shown(p, searchTerm, minPrice, maxPrice));
  }

  /** With an empty term and every price in range, everything is displayed. */
  lemma ShowsAllInRange(productList: seq<Item>, minPrice: real, maxPrice: real)
    requires forall p :: p in productList ==> minPrice <= p.price <= maxPrice
    ensures Filtered(productList, "", minPrice, maxPrice) == productList
  {
    SelectKeepsAll(productList, (p: Item) => PriceWithin(p, minPrice, maxPrice));
  }

  /** `Math.min(...prices)` */
  function MinPrice(data: seq<Item>): (m: real)
    requires |data| > 0
    ensures forall p :: p in data ==> m <= p.price
    ensures exists p :: p in data && p.price == m
    decreases |data|
  {
    if |data| == 1 then data[0].price
    else
      var rest := MinPrice(data[1..]);
      if data[0].price <= rest then data[0].price else rest
  }

  /** `Math.max(...prices)` */
  function MaxPrice(data: seq<Item>): (m: real)
    requires |data| > 0
    ensures forall p :: p in data ==> p.price <= m
    ensures exists p :: p in data && p.price == m
    decreases |data|
  {
    if |data| == 1 then data[0].price
    else
      var rest := MaxPrice(data[1..]);
      if data[0].price >= rest then data[0].price else rest
  }

  /** Clearing resets to the fixed 0..1000 range, not to the observed one: a product priced
      above 1000 is displayed right after loading and hidden after clearing. */
  lemma ClearedRangeIsNotObservedRange()
    ensures var data := [Item("9", "Grand Piano", 4999.0, "Music", "")];
            && Filtered(data, "", MinPrice(data), MaxPrice(data)) == data
            && Filtered(data, "", DefaultMinPrice, DefaultMaxPrice) == []
  {
    var data := [Item("9", "Grand Piano", 4999.0, "Music", "")];
    ShowsAllInRange(data, MinPrice(data), MaxPrice(data));
  }

  /** Searching with a term of the same length as both names keeps exactly the product
      whose name equals the term up to case, when its price is in range. */
  lemma {:induction false} SameLengthSearch(a: Item, b: Item, term: string, minPrice: real, maxPrice: real)
    requires term != "" && Lower(a.name) == Lower(term)
    requires |b.name| == |term| && Lower(b.name) != Lower(term)
    requires PriceWithin(a, minPrice, maxPrice)
    ensures Filtered([a, b], term, minPrice, maxPrice) == [a]
  {
    var t := Lower(term);
    assert StartsWith(t, t);
    assert NameMatches(a, term);
    ContainsAt(Lower(b.name), t);
    assert Lower(b.name)[0..|t|] == Lower(b.name);
    assert forall i :: !OccursAt(Lower(b.name), t, i);
    assert !NameMatches(b, term);
    var byName := (p: Item) => NameMatches(p, term);
    assert [a, b][1..] == [b] && [b][1..] == [];
    assert Select([a, b], byName) == [a];
    assert [a][1..] == [];
  }

  /** The search test's scenario on the page's state: two products load, "Product A" is
      typed, and only "Product A" is displayed. */
  method SearchExample() returns (shown: seq<Item>)
    ensures shown == [Item("1", "Product A", 10.0, "", "")]
  {
    var a := Item("1", "Product A", 10.0, "", "");
    var b := Item("2", "Product B", 20.0, "", "");
    var page := new ProductListState();
    page.Load([a, b]);
    page.SetSearchTerm("Product A");
    assert a in [a, b];
    assert Lower(b.name)[8] == 'b' && Lower(a.name)[8] == 'a';
    SameLengthSearch(a, b, "Product A", page.minPrice, page.maxPrice);
    shown := page.filteredList;
  }

  /** The page's state: the five `useState` variables. The filter effect runs after every
      change of its inputs, so each transition ends with `filteredList` re-derived. */
  class ProductListState {
    var productList: seq<Item>
    var searchTerm: string
    var minPrice: real
    var maxPrice: real
    var filteredList: seq<Item>

    /** `filteredList` is what the filter effect makes of the other four variables. */
    ghost predicate Valid()
      reads this
    {
      filteredList == Filtered(productList, searchTerm, minPrice, maxPrice)
    }

    /** The placeholder text is shown instead of cards when nothing is displayed. */
    function ShowsPlaceholder(): (placeholder: bool)
      reads this
      requires Valid()
      ensures placeholder <==>
              forall p :: p in productList ==>
                !((searchTerm != "" ==> NameMatches(p, searchTerm)) && PriceWithin(p, minPrice, maxPrice))
    {
      FilteredMembershipAll(productList, searchTerm, minPrice, maxPrice);
      assert |filteredList| > 0 ==> filteredList[0] in filteredList;
      |filteredList| == 0
    }

    /** The initial state; it stays this way when the fetch fails, so the placeholder stays. */
    constructor ()
      ensures Valid()
      ensures productList == [] && searchTerm == "" && filteredList == []
      ensures minPrice == DefaultMinPrice && maxPrice == DefaultMaxPrice
      ensures ShowsPlaceholder()
    {
      productList := [];
      searchTerm := "";
      minPrice := DefaultMinPrice;
      maxPrice := DefaultMaxPrice;
      filteredList := [];
    }

    /** The data arrived: store it and seed the range with the observed cheapest and
        dearest prices. */
    method Load(data: seq<Item>)
      requires |data| > 0
      modifies this
      ensures Valid()
      ensures productList == data && searchTerm == old(searchTerm)
      ensures forall p :: p in data ==> minPrice <= p.price <= maxPrice
      ensures (exists p :: p in data && p.price == minPrice) && (exists p :: p in data && p.price == maxPrice)
      ensures searchTerm == "" ==> filteredList == data && !ShowsPlaceholder()
    {
      productList := data;
      minPrice := MinPrice(data);
      maxPrice := MaxPrice(data);
      filteredList := Filtered(productList, searchTerm, minPrice, maxPrice);
      if searchTerm == "" {
        ShowsAllInRange(data, minPrice, maxPrice);
      }
    }

    /** Typing in the search box. */
    method SetSearchTerm(term: string)
      modifies this
      ensures Valid()
      ensures searchTerm == term
      ensures productList == old(productList) && minPrice == old(minPrice) && maxPrice == old(maxPrice)
    {
      searchTerm := term;
      filteredList := Filtered(productList, searchTerm, minPrice, maxPrice);
    }

    /** Moving the lower price slider. */
    method SetMinPrice(value: real)
      modifies this
      ensures Valid()
      ensures minPrice == value
      ensures productList == old(productList) && searchTerm == old(searchTerm) && maxPrice == old(maxPrice)
    {
      minPrice := value;
      filteredList := Filtered(productList, searchTerm, minPrice, maxPrice);
    }

    /** Moving the upper price slider. */
    method SetMaxPrice(value: real)
      modifies this
      ensures Valid()
      ensures maxPrice == value
      ensures productList == old(productList) && searchTerm == old(searchTerm) && minPrice == old(minPrice)
    {
      maxPrice := value;
      filteredList := Filtered(productList, searchTerm, minPrice, maxPrice);
    }

    /** "Clear Filters": empty term and the fixed range 0..1000. Every product priced within
        that range is displayed again. */
    method ClearFilters()
      modifies this
      ensures Valid()
      ensures searchTerm == "" && minPrice == DefaultMinPrice && maxPrice == DefaultMaxPrice
      ensures productList == old(productList)
      ensures forall p :: p in filteredList <==> p in productList && DefaultMinPrice <= p.price <= DefaultMaxPrice
      ensures (forall p :: p in productList ==> DefaultMinPrice <= p.price <= DefaultMaxPrice) ==>
              filteredList == productList
    {
      searchTerm := "";
      minPrice := DefaultMinPrice;
      maxPrice := DefaultMaxPrice;
      filteredList := Filtered(productList, searchTerm, minPrice, maxPrice);
      if forall p :: p in productList ==> DefaultMinPrice <= p.price <= DefaultMaxPrice {
        ShowsAllInRange(productList, minPrice, maxPrice);
      }
    }
  }

  /** `FilteredMembership` for every product at once. */
  lemma FilteredMembershipAll(productList: seq<Item>, searchTerm: string, minPrice: real, maxPrice: real)
    ensures forall p :: (p in Filtered(productList, searchTerm, minPrice, maxPrice)
                         <==> p in productList
                              && (searchTerm != "" ==> NameMatches(p, searchTerm))
                              && PriceWithin(p, minPrice, maxPrice))
  {
    forall p {
      FilteredMembership(productList, searchTerm, minPrice, maxPrice, p);
    }
  }
}
