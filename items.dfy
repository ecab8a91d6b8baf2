/** The item parts of a reader tick: the display string of each equipped body
    location (`ReadEquippedItemStrings`) and the class ids of all inventory
    items (`ReadInventoryItemIds`). The inventory arrives as the sequence the
    inventory reader enumerates, in its order. */
module ItemReading {
  import opened ProcessMemory

  /** `Environment.NewLine` on the platform the reader runs on (Windows). */
  const NewLine: string := "\r\n"
  /** Indentation of every magical property line. */
  const PropertyIndent: string := "    "

  /** The magical property lines: each indented and ended by a newline. */
  function PropertyLines(strs: seq<string>): (r: string)
    ensures strs == [] ==> r == ""
    decreases |strs|
  {
    if strs == [] then ""
    else PropertyLines(strs[..|strs| - 1]) + PropertyIndent + strs[|strs| - 1] + NewLine
  }

  /** The string of one item: its full name, a newline, then its property
      lines. */
  function ItemText(item: InventoryItem): string {
    item.fullName + NewLine + PropertyLines(item.magicalStrings)
  }

  /** The string builder loop of one item. */
  method BuildItemText(item: InventoryItem) returns (text: string)
    ensures text == ItemText(item)
    ensures |text| >= |item.fullName| + |NewLine| && text[..|item.fullName|] == item.fullName
  {
    text := item.fullName + NewLine;
    var strs := item.magicalStrings;
    var k := 0;
    while k < |strs|
      invariant 0 <= k <= |strs|
      invariant text == item.fullName + NewLine + PropertyLines(strs[..k])
    {
      assert strs[..k + 1][..k] == strs[..k];
      text := text + PropertyIndent + strs[k] + NewLine;
      k := k + 1;
    }
    assert strs[..k] == strs;
  }

  /** The filter of the equipped-item enumeration (`BodyLoc != None`) together
      with the skip of items whose stat list cannot be read. */
  predicate Contributes(item: InventoryItem) {
    item.bodyLoc != NoLocation && item.hasStats
  }

  /** No earlier item in `items[..j]` contributes to the location of
      `items[j]`. */
  ghost predicate FirstForLocation(items: seq<InventoryItem>, j: int)
    requires 0 <= j < |items|
  {
    forall i :: 0 <= i < j ==> !(Contributes(items[i]) && items[i].bodyLoc == items[j].bodyLoc)
  }

  /** The body locations that the items of `items` occupy. */
  function Occupied(items: seq<InventoryItem>): set<BodyLocation>
    decreases |items|
  {
    if items == [] then {}
    else
      var last := items[|items| - 1];
      Occupied(items[..|items| - 1]) + (if Contributes(last) then {last.bodyLoc} else {})
  }

  lemma {:induction false} OccupiedMembership(items: seq<InventoryItem>, loc: BodyLocation)
    ensures loc in Occupied(items) <==>
            exists j :: 0 <= j < |items| && Contributes(items[j]) && items[j].bodyLoc == loc
    decreases |items|
  {
    if items != [] {
      var init := items[..|items| - 1];
      OccupiedMembership(init, loc);
      if exists j :: 0 <= j < |items| && Contributes(items[j]) && items[j].bodyLoc == loc {
        var j :| 0 <= j < |items| && Contributes(items[j]) && items[j].bodyLoc == loc;
        if j < |items| - 1 {
          assert init[j] == items[j];
        }
      }
    }
  }

  /** What `ReadEquippedItemStrings` promises: one string per body location
      that some readable equipped item occupies, namely that of the first
      such item. */
  ghost predicate IsEquippedStrings(items: seq<InventoryItem>, itemStrings: map<BodyLocation, string>) {
    (forall loc :: loc in itemStrings <==>
       exists j :: 0 <= j < |items| && Contributes(items[j]) && items[j].bodyLoc == loc) &&
    (forall j :: 0 <= j < |items| && Contributes(items[j]) && FirstForLocation(items, j) ==>
       itemStrings[items[j].bodyLoc] == ItemText(items[j]))
  }

  /** That promise determines the strings completely. */
  lemma EquippedStringsUnique(items: seq<InventoryItem>, a: map<BodyLocation, string>, b: map<BodyLocation, string>)
    requires IsEquippedStrings(items, a) && IsEquippedStrings(items, b)
    ensures a == b
  {
    forall loc | loc in a
      ensures a[loc] == b[loc]
    {
      var j := FirstIndexFor(items, loc);
    }
  }

  /** The first index whose item contributes to `loc`. */
  lemma FirstIndexFor(items: seq<InventoryItem>, loc: BodyLocation) returns (j: int)
    requires exists j :: 0 <= j < |items| && Contributes(items[j]) && items[j].bodyLoc == loc
    ensures 0 <= j < |items| && Contributes(items[j]) && items[j].bodyLoc == loc && FirstForLocation(items, j)
  {
    j :| 0 <= j < |items| && Contributes(items[j]) && items[j].bodyLoc == loc;
    var k := 0;
    while k < j
      invariant 0 <= k <= j
      invariant forall i :: 0 <= i < k ==> !(Contributes(items[i]) && items[i].bodyLoc == loc)
    {
      if Contributes(items[k]) && items[k].bodyLoc == loc {
        j := k;
        return;
      }
      k := k + 1;
    }
  }

  /** An item whose location is not yet taken is the first for it. */
  lemma FreshLocationIsFirst(items: seq<InventoryItem>, n: int)
    requires 0 <= n < |items| && items[n].bodyLoc !in Occupied(items[..n])
    ensures FirstForLocation(items, n)
  {
    forall i | 0 <= i < n && Contributes(items[i])
      ensures items[i].bodyLoc != items[n].bodyLoc
    {
      OccupiedMembership(items[..n], items[i].bodyLoc);
      assert items[..n][i] == items[i];
    }
  }

  /** An item whose location is already taken is not the first for it. */
  lemma TakenLocationIsNotFirst(items: seq<InventoryItem>, n: int)
    requires 0 <= n < |items| && items[n].bodyLoc in Occupied(items[..n])
    ensures !FirstForLocation(items, n)
  {
    OccupiedMembership(items[..n], items[n].bodyLoc);
    var i :| 0 <= i < n && Contributes(items[..n][i]) && items[..n][i].bodyLoc == items[n].bodyLoc;
    assert items[..n][i] == items[i];
  }

  /** `ReadEquippedItemStrings`: one string per body location that some
      readable equipped item occupies, namely that of the first such item;
      never one for `None`. */
  method ReadEquippedItemStrings(items: seq<InventoryItem>) returns (itemStrings: map<BodyLocation, string>)
    ensures IsEquippedStrings(items, itemStrings)
    ensures NoLocation !in itemStrings
  {
    itemStrings := map[];
    var n := 0;
    while n < |items|
      invariant 0 <= n <= |items|
      invariant itemStrings.Keys == Occupied(items[..n])
      invariant forall j :: 0 <= j < n && Contributes(items[j]) && FirstForLocation(items, j) ==>
                  items[j].bodyLoc in itemStrings && itemStrings[items[j].bodyLoc] == ItemText(items[j])
    {
      var item := items[n];
      assert items[..n + 1][..n] == items[..n];
      if item.bodyLoc != NoLocation && item.hasStats {
        var text := BuildItemText(item);
        if item.bodyLoc !in itemStrings {
          FreshLocationIsFirst(items, n);
          itemStrings := itemStrings[item.bodyLoc := text];
        } else {
          TakenLocationIsNotFirst(items, n);
        }
      }
      n := n + 1;
    }
    assert items[..n] == items;
    forall loc
      ensures loc in itemStrings <==> exists j :: 0 <= j < |items| && Contributes(items[j]) && items[j].bodyLoc == loc
    {
      OccupiedMembership(items, loc);
    }
  }

  /** The class ids of the items socketed into each item, item by item. */
  function SocketedIds(items: seq<InventoryItem>): (r: seq<int>)
    decreases |items|
  {
    if items == [] then [] else items[0].socketedClasses + SocketedIds(items[1..])
  }

  /** `ReadInventoryItemIds`: the ids of all enumerated items in order,
      followed by the ids of their socketed items. */
  function ReadInventoryItemIds(items: seq<InventoryItem>): (r: seq<int>)
    ensures |r| >= |items|
    ensures forall k :: 0 <= k < |items| ==> r[k] == items[k].itemClass
    ensures r[|items|..] == SocketedIds(items)
  {
    seq(|items|, k requires 0 <= k < |items| => items[k].itemClass) + SocketedIds(items)
  }

  /** An id is listed exactly when it is the class of an enumerated item or of
      an item socketed into one. */
  lemma ItemIdsMembership(items: seq<InventoryItem>, id: int)
    ensures id in ReadInventoryItemIds(items) <==>
            exists k :: 0 <= k < |items| && (id == items[k].itemClass || id in items[k].socketedClasses)
  {
    var r := ReadInventoryItemIds(items);
    SocketedIdsMembership(items, id);
    if id in r {
      var p :| 0 <= p < |r| && r[p] == id;
      if p >= |items| {
        assert id in r[|items|..];
      }
    }
  }

  lemma {:induction false} SocketedIdsMembership(items: seq<InventoryItem>, id: int)
    ensures id in SocketedIds(items) <==> exists k :: 0 <= k < |items| && id in items[k].socketedClasses
    decreases |items|
  {
    if items != [] {
      SocketedIdsMembership(items[1..], id);
      if id in SocketedIds(items[1..]) {
        var k :| 0 <= k < |items[1..]| && id in items[1..][k].socketedClasses;
        assert id in items[k + 1].socketedClasses;
      }
      if exists k :: 0 <= k < |items| && id in items[k].socketedClasses {
        var k :| 0 <= k < |items| && id in items[k].socketedClasses;
        if k > 0 {
          assert id in items[1..][k - 1].socketedClasses;
        }
      }
    }
  }

  /** The list holds one id per item plus one per socketed item. */
  lemma {:induction false} ItemIdsLength(items: seq<InventoryItem>)
    ensures |ReadInventoryItemIds(items)| == |items| + SocketCount(items)
    decreases |items|
  {
    SocketedIdsLength(items);
  }

  function SocketCount(items: seq<InventoryItem>): nat
    decreases |items|
  {
    if items == [] then 0 else |items[0].socketedClasses| + SocketCount(items[1..])
  }

  lemma {:induction false} SocketedIdsLength(items: seq<InventoryItem>)
    ensures |SocketedIds(items)| == SocketCount(items)
    decreases |items|
  {
    if items != [] {
      SocketedIdsLength(items[1..]);
    }
  }
}
