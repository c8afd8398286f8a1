/** `fetchStockData` of the stock tracker: one shop's entries of the parsed
    stock payload are merged by display name (quantities summed), sorted by
    name, totalled and rendered. The HTTP request itself is an input: the
    payload arrives already parsed. */
module StockSnapshot {
  import opened Common
  import opened Names

  /** One stock entry, `{display_name, quantity}`; merged items have the
      same shape. */
  datatype StockItem = StockItem(displayName: string, quantity: int)

  /** The parsed stock response: shop key to that shop's entries. */
  type StockPayload = map<string, seq<StockItem>>

  /** `data[shop] || []`: a shop the payload does not list has no entries. */
  function ShopEntries(payload: StockPayload, shop: string): seq<StockItem> {
    if shop in payload then payload[shop] else []
  }

  // ---------------------------------------------------------------------
  // Reference definitions the merged snapshot is specified against

  /** The set of display names occurring in `items`. */
  function NamesOf(items: seq<StockItem>): set<string> {
    set it | it in items :: it.displayName
  }

  /** Sum of the quantities of every entry called `name`. */
  function QuantityOf(items: seq<StockItem>, name: string): int {
    if items == [] then 0
    else (if items[0].displayName == name then items[0].quantity else 0) + QuantityOf(items[1..], name)
  }

  /** Sum of all quantities: `reduce((sum, item) => sum + item.quantity, 0)`. */
  function TotalQuantity(items: seq<StockItem>): int {
    if items == [] then 0 else items[0].quantity + TotalQuantity(items[1..])
  }

  /** No name occurs twice. */
  predicate Distinct(names: seq<string>) {
    forall i, j :: 0 <= i < j < |names| ==> names[i] != names[j]
  }

  /** The display names of `items`, in order. */
  function ItemNames(items: seq<StockItem>): seq<string> {
    seq(|items|, i requires 0 <= i < |items| => items[i].displayName)
  }

  /** No two items share a display name. */
  predicate DistinctNames(items: seq<StockItem>) {
    Distinct(ItemNames(items))
  }

  /** `DistinctNames` item by item. */
  lemma DistinctNamesAt(items: seq<StockItem>)
    ensures DistinctNames(items) <==>
      forall i, j :: 0 <= i < j < |items| ==> items[i].displayName != items[j].displayName
  {
    assert forall k :: 0 <= k < |items| ==> ItemNames(items)[k] == items[k].displayName;
  }

  /** Every item's name sorts strictly before every later item's name; in
      particular no name occurs twice. */
  predicate StrictlySorted(items: seq<StockItem>) {
    forall i, j :: 0 <= i < j < |items| ==> NameBefore(items[i].displayName, items[j].displayName)
  }

  // ---------------------------------------------------------------------
  // The merge: the state of `itemMap` after the `forEach` has seen `raw`

  /** The values of `itemMap`: each name mapped to its running sum. */
  function Tally(raw: seq<StockItem>): map<string, int>
    decreases |raw|
  {
    if raw == [] then map[]
    else
      var t := Tally(raw[..|raw| - 1]);
      var item := raw[|raw| - 1];
      if item.displayName in t then t[item.displayName := t[item.displayName] + item.quantity]
      else t[item.displayName := item.quantity]
  }

  /** The insertion order of `itemMap`'s keys: each name where it first
      occurs, once. */
  function FirstNames(raw: seq<StockItem>): (order: seq<string>)
    ensures forall n :: n in order <==> n in Tally(raw)
    ensures Distinct(order)
    decreases |raw|
  {
    if raw == [] then []
    else
      var o := FirstNames(raw[..|raw| - 1]);
      var name := raw[|raw| - 1].displayName;
      if name in o then o else o + [name]
  }

  /** `Array.from(itemMap.values())`: one merged item per key, in key order. */
  function Entries(order: seq<string>, tally: map<string, int>): (items: seq<StockItem>)
    requires forall k :: 0 <= k < |order| ==> order[k] in tally
    ensures |items| == |order|
  {
    if order == [] then []
    else [StockItem(order[0], tally[order[0]])] + Entries(order[1..], tally)
  }

  // ---------------------------------------------------------------------
  // The sort (`sort((a, b) => a.display_name.localeCompare(b.display_name))`)

  function Insert(x: StockItem, s: seq<StockItem>): (r: seq<StockItem>)
    ensures multiset(r) == multiset(s) + multiset{x}
  {
    if s == [] then [x]
    else if NameBefore(x.displayName, s[0].displayName) then [x] + s
    else
      assert s == [s[0]] + s[1..];
      [s[0]] + Insert(x, s[1..])
  }

  function SortByName(s: seq<StockItem>): (r: seq<StockItem>)
    ensures multiset(r) == multiset(s)
  {
    if s == [] then []
    else
      assert s == [s[0]] + s[1..];
      Insert(s[0], SortByName(s[1..]))
  }

  /** `combinedItems`: the merged items sorted by name. */
  function Combined(raw: seq<StockItem>): seq<StockItem> {
    SortByName(Entries(FirstNames(raw), Tally(raw)))
  }

  /** The result of `fetchStockData` once the request has succeeded. */
  datatype StockData =
    | Unavailable                   // `success: false`, no `combinedItems`
    | Available(combined: seq<StockItem>, itemCount: nat, totalItems: int)

  function StockDataOf(payload: StockPayload, shop: string): StockData {
    var raw := ShopEntries(payload, shop);
    if raw == [] then Unavailable
    else
      var combined := Combined(raw);
      Available(combined, |combined|, TotalQuantity(combined))
  }

  // ---------------------------------------------------------------------
  // The imperative merge of the source and the fetch around it

  /** The `forEach` over the shop's entries updating `itemMap` in place,
      followed by the sort. */
  method CombineItems(raw: seq<StockItem>) returns (combined: seq<StockItem>)
    ensures combined == Combined(raw)
  {
    var order: seq<string> := [];
    var totals: map<string, int> := map[];
    var i := 0;
    while i < |raw|
      invariant 0 <= i <= |raw|
      invariant order == FirstNames(raw[..i])
      invariant totals == Tally(raw[..i])
    {
      var item := raw[i];
      assert raw[..i + 1][..i] == raw[..i];
      if item.displayName in totals {
        totals := totals[item.displayName := totals[item.displayName] + item.quantity];
      } else {
        totals := totals[item.displayName := item.quantity];
        order := order + [item.displayName];
      }
      i := i + 1;
    }
    assert raw[..i] == raw;
    combined := SortByName(Entries(order, totals));
  }

  /** `fetchStockData(shop)` given the parsed response. */
  method FetchStockData(payload: StockPayload, shop: string) returns (data: StockData)
    ensures data == StockDataOf(payload, shop)
  {
    var raw := ShopEntries(payload, shop);
    if |raw| == 0 {
      return Unavailable;
    }
    var combined := CombineItems(raw);
    data := Available(combined, |combined|, TotalQuantity(combined));
  }

  // ---------------------------------------------------------------------
  // Rendering

  /** `s.replace(c, d)` with a string pattern: only the first `c` is replaced. */
  function ReplaceFirst(s: string, c: char, d: char): (r: string)
    ensures |r| == |s|
  {
    if s == [] then []
    else if s[0] == c then [d] + s[1..]
    else [s[0]] + ReplaceFirst(s[1..], c, d)
  }

  function ItemFields(items: seq<StockItem>): (fields: seq<EmbedField>)
    ensures |fields| == |items|
  {
    if items == [] then []
    else [EmbedField(items[0].displayName, "Stock: " + Decimal(items[0].quantity), true)] + ItemFields(items[1..])
  }

  /** The embed `fetchStockData` builds: an error description when the shop
      has no entries, otherwise one inline field per merged item and a total. */
  function StockEmbed(shop: string, data: StockData): Embed {
    match data
    case Unavailable => Embed("", "Cannot fetch stock data or invalid shop", [])
    case Available(combined, _, total) =>
      Embed("\U{1F6D2} Current " + ReplaceFirst(shop, '_', ' ') + " (Auto-Updating)", "",
            ItemFields(combined) + [EmbedField("Total Items Available", Decimal(total), false)])
  }

  /** Only the first occurrence of `c` becomes `d`; every other character
      stays. */
  lemma {:induction false} ReplaceFirstAt(s: string, c: char, d: char, k: nat)
    requires k < |s|
    ensures ReplaceFirst(s, c, d)[k] == (if s[k] == c && c !in s[..k] then d else s[k])
    decreases k
  {
    if k > 0 && s[0] != c {
      ReplaceFirstAt(s[1..], c, d, k - 1);
      assert s[..k] == [s[0]] + s[1..][..k - 1];
    }
  }

  // ---------------------------------------------------------------------
  // Lemmas: the sort

  lemma SameElementsSameNames(a: seq<StockItem>, b: seq<StockItem>)
    requires multiset(a) == multiset(b)
    ensures NamesOf(a) == NamesOf(b)
  {
    forall n | n in NamesOf(a) ensures n in NamesOf(b) {
      var it :| it in a && it.displayName == n;
      assert it in multiset(b);
    }
    forall n | n in NamesOf(b) ensures n in NamesOf(a) {
      var it :| it in b && it.displayName == n;
      assert it in multiset(a);
    }
  }

  lemma {:induction false} InsertSorted(x: StockItem, s: seq<StockItem>)
    requires StrictlySorted(s)
    requires x.displayName !in NamesOf(s)
    ensures StrictlySorted(Insert(x, s))
    decreases |s|
  {
    if s == [] {
    } else if NameBefore(x.displayName, s[0].displayName) {
      var r := [x] + s;
      forall i, j | 0 <= i < j < |r| ensures NameBefore(r[i].displayName, r[j].displayName) {
        if i == 0 && j > 1 {
          NameBeforeTransitive(x.displayName, s[0].displayName, s[j - 1].displayName);
        }
      }
    } else {
      NameBeforeTotal(x.displayName, s[0].displayName);
      forall it | it in s[1..] ensures NameBefore(s[0].displayName, it.displayName) && it in s {
        var k :| 0 <= k < |s[1..]| && s[1..][k] == it;
        assert s[k + 1] == it;
      }
      assert x.displayName !in NamesOf(s[1..]);
      InsertSorted(x, s[1..]);
      InsertAfter(x, s[1..], s[0].displayName);
      SortedCons(s[0], Insert(x, s[1..]));
    }
  }

  /** A name before every inserted name is before every name of the result. */
  lemma InsertAfter(x: StockItem, s: seq<StockItem>, h: string)
    requires NameBefore(h, x.displayName)
    requires forall it :: it in s ==> NameBefore(h, it.displayName)
    ensures forall it :: it in Insert(x, s) ==> NameBefore(h, it.displayName)
  {
    forall it | it in Insert(x, s) ensures NameBefore(h, it.displayName) {
      assert it in multiset(Insert(x, s));
    }
  }

  lemma SortedCons(h: StockItem, rest: seq<StockItem>)
    requires StrictlySorted(rest)
    requires forall it :: it in rest ==> NameBefore(h.displayName, it.displayName)
    ensures StrictlySorted([h] + rest)
  {
    var r := [h] + rest;
    forall i, j | 0 <= i < j < |r| ensures NameBefore(r[i].displayName, r[j].displayName) {
      assert r[j] == rest[j - 1];
      if i > 0 {
        assert r[i] == rest[i - 1];
      }
    }
  }

  /** Sorting items with pairwise different names puts them in strictly
      increasing name order. */
  lemma {:induction false} SortByNameSorted(s: seq<StockItem>)
    requires DistinctNames(s)
    ensures StrictlySorted(SortByName(s))
    decreases |s|
  {
    if s != [] {
      DistinctNamesAt(s);
      DistinctNamesAt(s[1..]);
      SortByNameSorted(s[1..]);
      var r := SortByName(s[1..]);
      SameElementsSameNames(r, s[1..]);
      assert s[0].displayName !in NamesOf(s[1..]);
      InsertSorted(s[0], r);
    }
  }

  lemma {:induction false} InsertTotal(x: StockItem, s: seq<StockItem>)
    ensures TotalQuantity(Insert(x, s)) == x.quantity + TotalQuantity(s)
    decreases |s|
  {
    if s != [] && !NameBefore(x.displayName, s[0].displayName) {
      InsertTotal(x, s[1..]);
    }
  }

  lemma {:induction false} SortByNameTotal(s: seq<StockItem>)
    ensures TotalQuantity(SortByName(s)) == TotalQuantity(s)
    decreases |s|
  {
    if s != [] {
      SortByNameTotal(s[1..]);
      InsertTotal(s[0], SortByName(s[1..]));
    }
  }

  // ---------------------------------------------------------------------
  // Lemmas: the merge

  lemma {:induction false} QuantityOfAppend(a: seq<StockItem>, x: StockItem, name: string)
    ensures QuantityOf(a + [x], name) == QuantityOf(a, name) + (if x.displayName == name then x.quantity else 0)
    decreases |a|
  {
    if a != [] {
      assert (a + [x])[1..] == a[1..] + [x];
      QuantityOfAppend(a[1..], x, name);
    }
  }

  lemma {:induction false} TotalQuantityAppend(a: seq<StockItem>, x: StockItem)
    ensures TotalQuantity(a + [x]) == TotalQuantity(a) + x.quantity
    decreases |a|
  {
    if a != [] {
      assert (a + [x])[1..] == a[1..] + [x];
      TotalQuantityAppend(a[1..], x);
    }
  }

  /** The merge keeps exactly the names of the raw entries. */
  lemma {:induction false} TallyKeys(raw: seq<StockItem>)
    ensures Tally(raw).Keys == NamesOf(raw)
    decreases |raw|
  {
    if raw != [] {
      var init := raw[..|raw| - 1];
      TallyKeys(init);
      assert raw == init + [raw[|raw| - 1]];
      assert forall it :: it in raw <==> it in init || it == raw[|raw| - 1];
    }
  }

  /** The merge gives each name the sum of the quantities of all entries
      with that name. */
  lemma {:induction false} TallyQuantity(raw: seq<StockItem>, name: string)
    requires name in Tally(raw)
    ensures Tally(raw)[name] == QuantityOf(raw, name)
    decreases |raw|
  {
    var init := raw[..|raw| - 1];
    var x := raw[|raw| - 1];
    assert raw == init + [x];
    QuantityOfAppend(init, x, name);
    if name in Tally(init) {
      TallyQuantity(init, name);
    } else {
      TallyKeys(init);
      QuantityOfAbsent(init, name);
    }
  }

  lemma {:induction false} QuantityOfAbsent(items: seq<StockItem>, name: string)
    requires name !in NamesOf(items)
    ensures QuantityOf(items, name) == 0
    decreases |items|
  {
    if items != [] {
      assert items[0] in items;
      assert NamesOf(items[1..]) <= NamesOf(items) by {
        forall n | n in NamesOf(items[1..]) ensures n in NamesOf(items) {
          var it :| it in items[1..] && it.displayName == n;
          assert it in items;
        }
      }
      QuantityOfAbsent(items[1..], name);
    }
  }

  lemma {:induction false} EntriesAppend(order: seq<string>, name: string, tally: map<string, int>)
    requires forall k :: 0 <= k < |order| ==> order[k] in tally
    requires name in tally
    ensures Entries(order + [name], tally) == Entries(order, tally) + [StockItem(name, tally[name])]
    decreases |order|
  {
    if order != [] {
      assert (order + [name])[1..] == order[1..] + [name];
      EntriesAppend(order[1..], name, tally);
    }
  }

  /** Updating a key the order does not mention changes no entry. */
  lemma {:induction false} EntriesOtherKey(order: seq<string>, tally: map<string, int>, name: string, v: int)
    requires forall k :: 0 <= k < |order| ==> order[k] in tally
    requires name !in order
    ensures Entries(order, tally[name := v]) == Entries(order, tally)
    decreases |order|
  {
    if order != [] {
      EntriesOtherKey(order[1..], tally, name, v);
    }
  }

  /** Adding `d` to the one entry of a name that occurs once adds `d` to the total. */
  lemma {:induction false} EntriesBump(order: seq<string>, tally: map<string, int>, name: string, d: int)
    requires forall k :: 0 <= k < |order| ==> order[k] in tally
    requires Distinct(order) && name in order
    ensures TotalQuantity(Entries(order, tally[name := tally[name] + d])) == TotalQuantity(Entries(order, tally)) + d
    decreases |order|
  {
    if order[0] == name {
      assert name !in order[1..];
      EntriesOtherKey(order[1..], tally, name, tally[name] + d);
    } else {
      EntriesBump(order[1..], tally, name, d);
    }
  }

  lemma {:induction false} MergeTotal(raw: seq<StockItem>)
    ensures TotalQuantity(Entries(FirstNames(raw), Tally(raw))) == TotalQuantity(raw)
    decreases |raw|
  {
    if raw == [] {
      assert FirstNames(raw) == [];
    } else {
      MergeTotal(raw[..|raw| - 1]);
      MergeTotalStep(raw);
    }
  }

  /** The inductive step of `MergeTotal`: the last entry adds its quantity
      on both sides. */
  lemma MergeTotalStep(raw: seq<StockItem>)
    requires raw != []
    requires var init := raw[..|raw| - 1];
      TotalQuantity(Entries(FirstNames(init), Tally(init))) == TotalQuantity(init)
    ensures TotalQuantity(Entries(FirstNames(raw), Tally(raw))) == TotalQuantity(raw)
  {
    var init := raw[..|raw| - 1];
    var x := raw[|raw| - 1];
    TotalQuantityLast(raw);
    if x.displayName in Tally(init) {
      MergeLastBump(raw);
    } else {
      MergeLastNew(raw);
    }
  }

  lemma MergeLastBump(raw: seq<StockItem>)
    requires raw != [] && raw[|raw| - 1].displayName in Tally(raw[..|raw| - 1])
    ensures var init := raw[..|raw| - 1];
      TotalQuantity(Entries(FirstNames(raw), Tally(raw)))
        == TotalQuantity(Entries(FirstNames(init), Tally(init))) + raw[|raw| - 1].quantity
  {
    var init := raw[..|raw| - 1];
    MergeUnfold(raw);
    MergeBump(FirstNames(init), Tally(init), raw[|raw| - 1], FirstNames(raw), Tally(raw));
  }

  lemma MergeLastNew(raw: seq<StockItem>)
    requires raw != [] && raw[|raw| - 1].displayName !in Tally(raw[..|raw| - 1])
    ensures var init := raw[..|raw| - 1];
      TotalQuantity(Entries(FirstNames(raw), Tally(raw)))
        == TotalQuantity(Entries(FirstNames(init), Tally(init))) + raw[|raw| - 1].quantity
  {
    var init := raw[..|raw| - 1];
    MergeUnfold(raw);
    MergeNew(FirstNames(init), Tally(init), raw[|raw| - 1], FirstNames(raw), Tally(raw));
  }

  lemma TotalQuantityLast(raw: seq<StockItem>)
    requires raw != []
    ensures TotalQuantity(raw) == TotalQuantity(raw[..|raw| - 1]) + raw[|raw| - 1].quantity
  {
    assert raw == raw[..|raw| - 1] + [raw[|raw| - 1]];
    TotalQuantityAppend(raw[..|raw| - 1], raw[|raw| - 1]);
  }

  /** The key order and the map after the last entry, in terms of those
      before it. */
  lemma MergeUnfold(raw: seq<StockItem>)
    requires raw != []
    ensures var init, x := raw[..|raw| - 1], raw[|raw| - 1];
      && Distinct(FirstNames(init))
      && (forall k :: 0 <= k < |FirstNames(init)| ==> FirstNames(init)[k] in Tally(init))
      && (x.displayName in Tally(init) <==> x.displayName in FirstNames(init))
      && (x.displayName in Tally(init) ==>
            FirstNames(raw) == FirstNames(init)
            && Tally(raw) == Tally(init)[x.displayName := Tally(init)[x.displayName] + x.quantity])
      && (x.displayName !in Tally(init) ==>
            FirstNames(raw) == FirstNames(init) + [x.displayName]
            && Tally(raw) == Tally(init)[x.displayName := x.quantity])
  {
  }

  /** A step of the `forEach` that meets a known name: the entry's quantity
      is added to the total of the map's values. */
  lemma MergeBump(o: seq<string>, t: map<string, int>, x: StockItem, o': seq<string>, t': map<string, int>)
    requires Distinct(o) && forall k :: 0 <= k < |o| ==> o[k] in t
    requires x.displayName in o
    requires o' == o && t' == t[x.displayName := t[x.displayName] + x.quantity]
    ensures forall k :: 0 <= k < |o'| ==> o'[k] in t'
    ensures TotalQuantity(Entries(o', t')) == TotalQuantity(Entries(o, t)) + x.quantity
  {
    EntriesBump(o, t, x.displayName, x.quantity);
  }

  /** A step of the `forEach` that meets a new name: the new item's quantity
      is added to the total of the map's values. */
  lemma MergeNew(o: seq<string>, t: map<string, int>, x: StockItem, o': seq<string>, t': map<string, int>)
    requires forall k :: 0 <= k < |o| ==> o[k] in t
    requires x.displayName !in t
    requires o' == o + [x.displayName] && t' == t[x.displayName := x.quantity]
    ensures forall k :: 0 <= k < |o'| ==> o'[k] in t'
    ensures TotalQuantity(Entries(o', t')) == TotalQuantity(Entries(o, t)) + x.quantity
  {
    EntriesAppend(o, x.displayName, t');
    assert x.displayName !in o;
    EntriesOtherKey(o, t, x.displayName, x.quantity);
    TotalQuantityAppend(Entries(o, t), StockItem(x.displayName, x.quantity));
  }

  lemma EntriesNames(order: seq<string>, tally: map<string, int>)
    requires forall k :: 0 <= k < |order| ==> order[k] in tally
    ensures NamesOf(Entries(order, tally)) == set n | n in order
    ensures Distinct(order) ==> DistinctNames(Entries(order, tally))
    ensures forall it :: it in Entries(order, tally) ==> it.displayName in tally && it.quantity == tally[it.displayName]
  {
    var e := Entries(order, tally);
    forall k | 0 <= k < |e| ensures e[k] == StockItem(order[k], tally[order[k]]) {
      EntriesAt(order, tally, k);
    }
    forall n | n in order ensures n in NamesOf(e) {
      var k :| 0 <= k < |order| && order[k] == n;
      assert e[k] in e;
    }
  }

  lemma {:induction false} EntriesAt(order: seq<string>, tally: map<string, int>, k: nat)
    requires forall i :: 0 <= i < |order| ==> order[i] in tally
    requires k < |order|
    ensures Entries(order, tally)[k] == StockItem(order[k], tally[order[k]])
    decreases k
  {
    if k > 0 {
      EntriesAt(order[1..], tally, k - 1);
    }
  }

  lemma {:induction false} DistinctCount(order: seq<string>)
    requires Distinct(order)
    ensures |set n | n in order| == |order|
    decreases |order|
  {
    if order != [] {
      DistinctCount(order[1..]);
      var rest := set n | n in order[1..];
      assert (set n | n in order) == {order[0]} + rest;
      assert order[0] !in rest;
    }
  }

  // ---------------------------------------------------------------------
  // Lemmas: the properties of `combinedItems`

  /** `combinedItems` is sorted by name, so every name appears at most once. */
  lemma CombinedSorted(raw: seq<StockItem>)
    ensures StrictlySorted(Combined(raw))
    ensures DistinctNames(Combined(raw))
  {
    EntriesNames(FirstNames(raw), Tally(raw));
    SortByNameSorted(Entries(FirstNames(raw), Tally(raw)));
    var c := Combined(raw);
    forall i, j | 0 <= i < j < |c| ensures c[i].displayName != c[j].displayName {
      if c[i].displayName == c[j].displayName {
        NameBeforeIrreflexive(c[i].displayName);
      }
    }
  }

  /** `combinedItems` has exactly the names of the raw entries. */
  lemma CombinedNames(raw: seq<StockItem>)
    ensures NamesOf(Combined(raw)) == NamesOf(raw)
  {
    var e := Entries(FirstNames(raw), Tally(raw));
    EntriesNames(FirstNames(raw), Tally(raw));
    SameElementsSameNames(Combined(raw), e);
    TallyKeys(raw);
  }

  /** Each merged item carries the sum of the quantities of all raw entries
      with its name. */
  lemma CombinedQuantities(raw: seq<StockItem>)
    ensures forall it :: it in Combined(raw) ==> it.quantity == QuantityOf(raw, it.displayName)
  {
    var t := Tally(raw);
    var e := Entries(FirstNames(raw), t);
    var c := Combined(raw);
    assert multiset(c) == multiset(e);
    EntriesNames(FirstNames(raw), t);
    forall it | it in c ensures it.quantity == QuantityOf(raw, it.displayName) {
      assert it in multiset(e);
      assert it.quantity == t[it.displayName];
      TallyQuantity(raw, it.displayName);
    }
  }

  /** The total of the merged items is the total of the raw entries. */
  lemma CombinedTotal(raw: seq<StockItem>)
    ensures TotalQuantity(Combined(raw)) == TotalQuantity(raw)
  {
    SortByNameTotal(Entries(FirstNames(raw), Tally(raw)));
    MergeTotal(raw);
  }

  /** There is one merged item per distinct raw name. */
  lemma CombinedCount(raw: seq<StockItem>)
    ensures |Combined(raw)| == |NamesOf(raw)|
  {
    var o := FirstNames(raw);
    var e := Entries(o, Tally(raw));
    assert |Combined(raw)| == |multiset(e)| == |e| == |o|;
    DistinctCount(o);
    TallyKeys(raw);
    assert (set n | n in o) == NamesOf(raw);
  }

  /** What `fetchStockData` returns: failure exactly when the shop has no
      entries; otherwise the merged items sorted by name, one per raw name,
      each with its summed quantity, with `itemCount` the number of distinct
      names and `totalItems` the sum of all raw quantities. */
  lemma StockDataOfSpec(payload: StockPayload, shop: string)
    ensures StockDataOf(payload, shop).Unavailable? <==> ShopEntries(payload, shop) == []
    ensures StockDataOf(payload, shop).Available? ==>
      var raw := ShopEntries(payload, shop);
      var d := StockDataOf(payload, shop);
      && StrictlySorted(d.combined)
      && NamesOf(d.combined) == NamesOf(raw)
      && (forall it :: it in d.combined ==> it.quantity == QuantityOf(raw, it.displayName))
      && d.itemCount == |NamesOf(raw)|
      && d.totalItems == TotalQuantity(raw)
  {
    var raw := ShopEntries(payload, shop);
    CombinedSorted(raw);
    CombinedNames(raw);
    CombinedQuantities(raw);
    CombinedTotal(raw);
    CombinedCount(raw);
  }

  /** Two entries named "Grape" with quantities 2 and 3 combine into one
      item of quantity 5. */
  lemma GrapesCombine()
    ensures Combined([StockItem("Grape", 2), StockItem("Grape", 3)]) == [StockItem("Grape", 5)]
  {
    var raw := [StockItem("Grape", 2), StockItem("Grape", 3)];
    assert raw[..1] == [StockItem("Grape", 2)];
    assert raw[..1][..0] == [];
  }

  // ---------------------------------------------------------------------
  // Lemmas: rendering

  /** The rendered embed lists the merged items in order, one field each,
      whose value reads back as the item's quantity, followed by a field
      that reads back as the total. */
  lemma {:induction false} StockEmbedFields(shop: string, data: StockData)
    requires data.Available?
    ensures var fields := StockEmbed(shop, data).fields;
      && |fields| == |data.combined| + 1
      && (forall k :: 0 <= k < |data.combined| ==>
            && fields[k].name == data.combined[k].displayName
            && exists digits :: fields[k].value == "Stock: " + digits
                                && ParseDecimal(digits) == Some(data.combined[k].quantity))
      && ParseDecimal(fields[|data.combined|].value) == Some(data.totalItems)
  {
    var fields := StockEmbed(shop, data).fields;
    forall k | 0 <= k < |data.combined|
      ensures && fields[k].name == data.combined[k].displayName
              && exists digits :: fields[k].value == "Stock: " + digits
                                  && ParseDecimal(digits) == Some(data.combined[k].quantity)
    {
      ItemFieldAt(data.combined, k);
      DecimalRoundTrip(data.combined[k].quantity);
    }
    DecimalRoundTrip(data.totalItems);
  }

  lemma {:induction false} ItemFieldAt(items: seq<StockItem>, k: nat)
    requires k < |items|
    ensures ItemFields(items)[k] == EmbedField(items[k].displayName, "Stock: " + Decimal(items[k].quantity), true)
    decreases k
  {
    if k > 0 {
      ItemFieldAt(items[1..], k - 1);
    }
  }
}
