/** Inspecting a returned parcel: the lines a client sends, and the check that they account for the order. */
module Inspection {
  import opened Common
  import opened Cart

  /** An order item is known by its position in the order. */
  type ItemId = nat

  datatype Disposition = Sellable | Damaged | Missing

  datatype InspectionLine = InspectionLine(item: ItemId, disposition: Disposition, quantity: int)

  /** What the lines of one item add up to, over some dispositions. */
  function Total(lines: seq<InspectionLine>, item: ItemId): int {
    if lines == [] then 0
    else Total(lines[..|lines| - 1], item) + if lines[|lines| - 1].item == item then lines[|lines| - 1].quantity else 0
  }

  function TotalOf(lines: seq<InspectionLine>, item: ItemId, disposition: Disposition): int {
    if lines == [] then 0
    else
      var last := lines[|lines| - 1];
      TotalOf(lines[..|lines| - 1], item, disposition)
        + if last.item == item && last.disposition == disposition then last.quantity else 0
  }

  predicate Mentions(lines: seq<InspectionLine>, item: ItemId) {
    exists i :: 0 <= i < |lines| && lines[i].item == item
  }

  predicate AllKnown(items: seq<CartItem>, lines: seq<InspectionLine>) {
    forall i :: 0 <= i < |lines| ==> lines[i].item < |items|
  }

  /** Every item is mentioned and its lines add up to what was ordered. */
  predicate AccountsFor(items: seq<CartItem>, lines: seq<InspectionLine>) {
    forall i :: 0 <= i < |items| ==> Mentions(lines, i) && Total(lines, i) == items[i].quantity
  }

  /** The sellable units of each item, as the lines that go back on the shelf. */
  function SellableUnits(items: seq<CartItem>, lines: seq<InspectionLine>): (units: seq<CartItem>)
    ensures |units| == |items|
    ensures forall i :: 0 <= i < |items| ==> units[i] == CartItem(items[i].product, TotalOf(lines, i, Sellable))
  {
    seq(|items|, i requires 0 <= i < |items| => CartItem(items[i].product, TotalOf(lines, i, Sellable)))
  }

  function Inspect(items: seq<CartItem>, lines: seq<InspectionLine>): Result<seq<CartItem>> {
    if AllKnown(items, lines) && AccountsFor(items, lines) then Ok(SellableUnits(items, lines)) else Err(BadRequest)
  }

  ghost predicate PositiveLines(lines: seq<InspectionLine>) {
    forall i :: 0 <= i < |lines| ==> lines[i].quantity >= 1
  }

  lemma {:induction false} TotalsAddUp(lines: seq<InspectionLine>, item: ItemId)
    requires PositiveLines(lines)
    ensures Total(lines, item) ==
            TotalOf(lines, item, Sellable) + TotalOf(lines, item, Damaged) + TotalOf(lines, item, Missing)
    ensures forall disposition :: 0 <= TotalOf(lines, item, disposition)
    ensures Mentions(lines, item) <==> Total(lines, item) > 0
  {
    if lines != [] {
      var front, last := lines[..|lines| - 1], lines[|lines| - 1];
      TotalsAddUp(front, item);
      assert forall i :: 0 <= i < |front| ==> front[i] == lines[i];
      if Mentions(lines, item) && last.item != item {
        var i :| 0 <= i < |lines| && lines[i].item == item;
        assert front[i].item == item;
      }
      if Mentions(front, item) {
        var i :| 0 <= i < |front| && front[i].item == item;
        assert lines[i].item == item;
      }
      assert last.item == item ==> Mentions(lines, item);
    }
  }

  /** An inspection is accepted exactly when its lines name ordered items only and split each ordered quantity. */
  lemma AcceptedExactlyWhen(items: seq<CartItem>, lines: seq<InspectionLine>)
    requires PositiveLines(lines)
    requires forall i :: 0 <= i < |items| ==> items[i].quantity >= 1
    ensures Inspect(items, lines).Ok? <==>
      && (forall i :: 0 <= i < |lines| ==> lines[i].item < |items|)
      && (forall i :: 0 <= i < |items| ==>
            TotalOf(lines, i, Sellable) + TotalOf(lines, i, Damaged) + TotalOf(lines, i, Missing) == items[i].quantity)
  {
    forall i | 0 <= i < |items|
      ensures Total(lines, i) == TotalOf(lines, i, Sellable) + TotalOf(lines, i, Damaged) + TotalOf(lines, i, Missing)
      ensures Mentions(lines, i) <==> Total(lines, i) > 0
    {
      TotalsAddUp(lines, i);
    }
  }

  // ------------------------------------------------------------------ the client

  /** What an inspector typed for one item; None is anything but a whole number, and an empty field is 0. */
  datatype Tally = Tally(sellable: Option<int>, damaged: Option<int>, missing: Option<int>)

  predicate IsWhole(entry: Option<int>) {
    entry.Some? && entry.value >= 0
  }

  function Entry(item: ItemId, disposition: Disposition, quantity: int): seq<InspectionLine> {
    if quantity > 0 then [InspectionLine(item, disposition, quantity)] else []
  }

  predicate Fills(tally: Tally, quantity: int) {
    && IsWhole(tally.sellable) && IsWhole(tally.damaged) && IsWhole(tally.missing)
    && tally.sellable.value + tally.damaged.value + tally.missing.value == quantity
  }

  /** The lines of one item that is filled in. */
  function Lines(item: ItemId, tally: Tally): seq<InspectionLine>
    requires tally.sellable.Some? && tally.damaged.Some? && tally.missing.Some?
  {
    Entry(item, Sellable, tally.sellable.value)
      + Entry(item, Damaged, tally.damaged.value)
      + Entry(item, Missing, tally.missing.value)
  }

  function TallyOf(tallies: map<ItemId, Tally>, item: ItemId): Tally {
    if item in tallies then tallies[item] else Tally(Some(0), Some(0), Some(0))
  }

  function Build(items: seq<CartItem>, tallies: map<ItemId, Tally>): (result: Result<seq<InspectionLine>>)
    ensures result.Err? ==> result.error == BadRequest
  {
    if items == [] then Ok([])
    else
      var last := |items| - 1;
      var lines :- Build(items[..last], tallies);
      var tally := TallyOf(tallies, last);
      if Fills(tally, items[last].quantity) then Ok(lines + Lines(last, tally)) else Err(BadRequest)
  }

  /** Pushes a line for each quantity of one item that is not zero. */
  method PushEntries(lines: seq<InspectionLine>, item: ItemId, values: Tally) returns (pushed: seq<InspectionLine>)
    requires values.sellable.Some? && values.damaged.Some? && values.missing.Some?
    ensures pushed == lines + Lines(item, values)
  {
    pushed := lines;
    if values.sellable.value > 0 {
      pushed := pushed + [InspectionLine(item, Sellable, values.sellable.value)];
    }
    if values.damaged.value > 0 {
      pushed := pushed + [InspectionLine(item, Damaged, values.damaged.value)];
    }
    if values.missing.value > 0 {
      pushed := pushed + [InspectionLine(item, Missing, values.missing.value)];
    }
  }

  /** Reads the form item by item and pushes a line for every quantity that is not zero. */
  method BuildInspectionLines(items: seq<CartItem>, tallies: map<ItemId, Tally>)
    returns (result: Result<seq<InspectionLine>>)
    ensures result == Build(items, tallies)
  {
    var lines: seq<InspectionLine> := [];
    for i := 0 to |items|
      invariant Build(items[..i], tallies) == Ok(lines)
    {
      assert items[..i + 1][..i] == items[..i];
      var values := TallyOf(tallies, i);
      if !IsWhole(values.sellable) || !IsWhole(values.damaged) || !IsWhole(values.missing)
        || values.sellable.value + values.damaged.value + values.missing.value != items[i].quantity
      {
        BuildFails(items, tallies, i);
        return Err(BadRequest);
      }
      lines := PushEntries(lines, i, values);
    }
    assert items[..|items|] == items;
    return Ok(lines);
  }

  lemma {:induction false} BuildFails(items: seq<CartItem>, tallies: map<ItemId, Tally>, i: nat)
    requires i < |items| && Build(items[..i + 1], tallies).Err?
    ensures Build(items, tallies) == Err(BadRequest)
    decreases |items|
  {
    if i + 1 == |items| {
      assert items[..i + 1] == items;
    } else {
      assert items[..|items| - 1][..i + 1] == items[..i + 1];
      BuildFails(items[..|items| - 1], tallies, i);
    }
  }

  lemma {:induction false} TotalOfSplit(a: seq<InspectionLine>, b: seq<InspectionLine>, item: ItemId,
                                        disposition: Disposition)
    ensures TotalOf(a + b, item, disposition) == TotalOf(a, item, disposition) + TotalOf(b, item, disposition)
  {
    if b == [] {
      assert a + b == a;
    } else {
      TotalOfSplit(a, b[..|b| - 1], item, disposition);
      assert (a + b)[..|a + b| - 1] == a + b[..|b| - 1];
    }
  }

  lemma EntryTotal(owner: ItemId, kind: Disposition, quantity: int, item: ItemId, disposition: Disposition)
    requires quantity >= 0
    ensures TotalOf(Entry(owner, kind, quantity), item, disposition) ==
            if owner == item && kind == disposition then quantity else 0
  {
    var line := InspectionLine(owner, kind, quantity);
    assert [line][..0] == [];
  }

  lemma LinesTotal(owner: ItemId, tally: Tally, quantity: int, item: ItemId, disposition: Disposition)
    requires Fills(tally, quantity)
    ensures TotalOf(Lines(owner, tally), item, disposition) == if owner != item then 0 else Entered(tally, disposition)
  {
    var s := Entry(owner, Sellable, tally.sellable.value);
    var d := Entry(owner, Damaged, tally.damaged.value);
    var m := Entry(owner, Missing, tally.missing.value);
    TotalOfSplit(s + d, m, item, disposition);
    TotalOfSplit(s, d, item, disposition);
    EntryTotal(owner, Sellable, tally.sellable.value, item, disposition);
    EntryTotal(owner, Damaged, tally.damaged.value, item, disposition);
    EntryTotal(owner, Missing, tally.missing.value, item, disposition);
  }

  function Entered(tally: Tally, disposition: Disposition): int
    requires tally.sellable.Some? && tally.damaged.Some? && tally.missing.Some?
  {
    match disposition
    case Sellable => tally.sellable.value
    case Damaged => tally.damaged.value
    case Missing => tally.missing.value
  }

  /** The lines carry what the form says about an item. */
  ghost predicate BuiltItem(tallies: map<ItemId, Tally>, lines: seq<InspectionLine>, item: ItemId) {
    var tally := TallyOf(tallies, item);
    && tally.sellable.Some? && tally.damaged.Some? && tally.missing.Some?
    && TotalOf(lines, item, Sellable) == tally.sellable.value
    && TotalOf(lines, item, Damaged) == tally.damaged.value
    && TotalOf(lines, item, Missing) == tally.missing.value
  }

  lemma ItemKept(tallies: map<ItemId, Tally>, lines: seq<InspectionLine>, item: ItemId, last: ItemId, quantity: int)
    requires BuiltItem(tallies, lines, item) && item != last && Fills(TallyOf(tallies, last), quantity)
    ensures BuiltItem(tallies, lines + Lines(last, TallyOf(tallies, last)), item)
  {
    var more := Lines(last, TallyOf(tallies, last));
    forall disposition ensures TotalOf(lines + more, item, disposition) == TotalOf(lines, item, disposition) {
      TotalOfSplit(lines, more, item, disposition);
      LinesTotal(last, TallyOf(tallies, last), quantity, item, disposition);
    }
  }

  lemma ItemAdded(tallies: map<ItemId, Tally>, lines: seq<InspectionLine>, last: ItemId, quantity: int)
    requires Fills(TallyOf(tallies, last), quantity)
    requires forall i :: 0 <= i < |lines| ==> lines[i].item < last
    ensures BuiltItem(tallies, lines + Lines(last, TallyOf(tallies, last)), last)
  {
    var tally := TallyOf(tallies, last);
    forall disposition ensures TotalOf(lines + Lines(last, tally), last, disposition) == Entered(tally, disposition) {
      TotalOfSplit(lines, Lines(last, tally), last, disposition);
      LinesTotal(last, tally, quantity, last, disposition);
      NotMentioned(lines, last, disposition);
    }
  }

  /** A form can be sent exactly when every item is filled in. */
  lemma {:induction false} BuildsExactlyWhen(items: seq<CartItem>, tallies: map<ItemId, Tally>)
    ensures Build(items, tallies).Ok? <==>
      forall i :: 0 <= i < |items| ==> Fills(TallyOf(tallies, i), items[i].quantity)
  {
    if items != [] {
      var last := |items| - 1;
      assert forall i :: 0 <= i < last ==> items[..last][i] == items[i];
      BuildsExactlyWhen(items[..last], tallies);
    }
  }

  lemma LinesFit(earlier: seq<InspectionLine>, last: ItemId, tally: Tally)
    requires tally.sellable.Some? && tally.damaged.Some? && tally.missing.Some?
    requires PositiveLines(earlier) && forall i :: 0 <= i < |earlier| ==> earlier[i].item < last
    ensures PositiveLines(earlier + Lines(last, tally))
    ensures forall i :: 0 <= i < |earlier + Lines(last, tally)| ==> (earlier + Lines(last, tally))[i].item <= last
  {
    var more := Lines(last, tally);
    assert forall i :: 0 <= i < |more| ==> more[i].item == last && more[i].quantity >= 1;
  }

  lemma BuildStep(items: seq<CartItem>, tallies: map<ItemId, Tally>, earlier: seq<InspectionLine>, last: ItemId)
    requires last < |items| && Fills(TallyOf(tallies, last), items[last].quantity)
    requires forall i :: 0 <= i < |earlier| ==> earlier[i].item < last
    requires forall i :: 0 <= i < last ==> BuiltItem(tallies, earlier, i)
    ensures forall i :: 0 <= i <= last ==> BuiltItem(tallies, earlier + Lines(last, TallyOf(tallies, last)), i)
  {
    forall i | 0 <= i <= last ensures BuiltItem(tallies, earlier + Lines(last, TallyOf(tallies, last)), i) {
      if i == last {
        ItemAdded(tallies, earlier, last, items[last].quantity);
      } else {
        ItemKept(tallies, earlier, i, last, items[last].quantity);
      }
    }
  }

  /** What is sent names ordered items with at least one unit a line, and says what the form says. */
  lemma {:induction false} BuildMeans(items: seq<CartItem>, tallies: map<ItemId, Tally>)
    requires Build(items, tallies).Ok?
    ensures var lines := Build(items, tallies).value;
      && AllKnown(items, lines)
      && PositiveLines(lines)
      && (forall i :: 0 <= i < |items| ==> BuiltItem(tallies, lines, i))
  {
    if items != [] {
      var last := |items| - 1;
      var earlier := Build(items[..last], tallies).value;
      BuildMeans(items[..last], tallies);
      BuildStep(items, tallies, earlier, last);
      LinesFit(earlier, last, TallyOf(tallies, last));
    }
  }

  lemma {:induction false} NotMentioned(lines: seq<InspectionLine>, item: ItemId, disposition: Disposition)
    requires forall i :: 0 <= i < |lines| ==> lines[i].item < item
    ensures TotalOf(lines, item, disposition) == 0
  {
    if lines != [] {
      NotMentioned(lines[..|lines| - 1], item, disposition);
    }
  }

  /** Whatever the client builds the server accepts, and puts back exactly the units entered as sellable. */
  lemma BuiltLinesAreAccepted(items: seq<CartItem>, tallies: map<ItemId, Tally>)
    requires forall i :: 0 <= i < |items| ==> items[i].quantity >= 1
    requires Build(items, tallies).Ok?
    ensures var lines := Build(items, tallies).value;
      && Inspect(items, lines).Ok?
      && (forall i :: 0 <= i < |items| ==>
            && TallyOf(tallies, i).sellable.Some?
            && Inspect(items, lines).value[i] == CartItem(items[i].product, TallyOf(tallies, i).sellable.value))
  {
    var lines := Build(items, tallies).value;
    BuildsExactlyWhen(items, tallies);
    BuildMeans(items, tallies);
    AcceptedExactlyWhen(items, lines);
    forall i | 0 <= i < |items|
      ensures Fills(TallyOf(tallies, i), items[i].quantity)
      ensures TotalOf(lines, i, Sellable) == TallyOf(tallies, i).sellable.value
      ensures TotalOf(lines, i, Sellable) + TotalOf(lines, i, Damaged) + TotalOf(lines, i, Missing) == items[i].quantity
    {
      assert BuiltItem(tallies, lines, i);
    }
  }

  /** The form that says the same as some lines. */
  function FormOf(items: seq<CartItem>, lines: seq<InspectionLine>): map<ItemId, Tally> {
    map i: nat | i < |items| ::
      Tally(Some(TotalOf(lines, i, Sellable)), Some(TotalOf(lines, i, Damaged)), Some(TotalOf(lines, i, Missing)))
  }

  /** Every inspection the server accepts can be entered in the client's form, with the same effect on stock. */
  lemma {:induction false} AcceptedLinesCanBeBuilt(items: seq<CartItem>, lines: seq<InspectionLine>)
    requires PositiveLines(lines) && forall i :: 0 <= i < |items| ==> items[i].quantity >= 1
    requires Inspect(items, lines).Ok?
    ensures var built := Build(items, FormOf(items, lines));
      built.Ok? && Inspect(items, built.value) == Inspect(items, lines)
  {
    var form := FormOf(items, lines);
    AcceptedExactlyWhen(items, lines);
    forall i | 0 <= i < |items| ensures Fills(TallyOf(form, i), items[i].quantity) {
      TotalsAddUp(lines, i);
    }
    BuildsExactlyWhen(items, form);
    BuildMeans(items, form);
    BuiltLinesAreAccepted(items, form);
    assert Inspect(items, Build(items, form).value).value == Inspect(items, lines).value;
  }

  // ------------------------------------------------------------------ the server

  /** A group of the grouping loop's map: one item with its running sums. */
  datatype Group = Group(item: ItemId, total: int, sellable: int)

  function FindGroup(groups: seq<Group>, item: ItemId): (at: Option<nat>)
    ensures at.Some? ==> at.value < |groups| && groups[at.value].item == item
    ensures at.None? ==> forall i :: 0 <= i < |groups| ==> groups[i].item != item
  {
    if groups == [] then None
    else if groups[|groups| - 1].item == item then Some(|groups| - 1)
    else FindGroup(groups[..|groups| - 1], item)
  }

  /** The groups are those of the lines: one per mentioned item, with its sums. */
  ghost predicate GroupsOf(groups: seq<Group>, lines: seq<InspectionLine>) {
    && (forall i, k :: 0 <= i < k < |groups| ==> groups[i].item != groups[k].item)
    && (forall i :: 0 <= i < |groups| ==> IsGroup(groups[i], lines))
    && (forall i :: 0 <= i < |lines| ==> HasGroup(groups, lines[i].item))
  }

  ghost predicate IsGroup(group: Group, lines: seq<InspectionLine>) {
    && group.total == Total(lines, group.item)
    && group.sellable == TotalOf(lines, group.item, Sellable)
    && Mentions(lines, group.item)
  }

  ghost predicate HasGroup(groups: seq<Group>, item: ItemId) {
    exists i :: 0 <= i < |groups| && groups[i].item == item
  }

  function AddTo(group: Group, line: InspectionLine): Group {
    Group(
      group.item,
      group.total + line.quantity,
      group.sellable + if line.disposition.Sellable? then line.quantity else 0)
  }

  lemma MentionsAppend(lines: seq<InspectionLine>, line: InspectionLine, item: ItemId)
    ensures Mentions(lines + [line], item) <==> Mentions(lines, item) || line.item == item
  {
    var all := lines + [line];
    if Mentions(lines, item) {
      var i :| 0 <= i < |lines| && lines[i].item == item;
      assert all[i].item == item;
    }
    assert all[|lines|] == line;
  }

  lemma GroupAfter(group: Group, lines: seq<InspectionLine>, line: InspectionLine)
    requires IsGroup(group, lines)
    ensures IsGroup(if group.item == line.item then AddTo(group, line) else group, lines + [line])
  {
    assert (lines + [line])[..|lines|] == lines;
    MentionsAppend(lines, line, group.item);
  }

  lemma NewGroup(lines: seq<InspectionLine>, line: InspectionLine)
    requires !Mentions(lines, line.item)
    ensures IsGroup(AddTo(Group(line.item, 0, 0), line), lines + [line])
  {
    assert (lines + [line])[..|lines|] == lines;
    MentionsAppend(lines, line, line.item);
    Unmentioned(lines, line.item);
  }

  lemma {:induction false} Unmentioned(lines: seq<InspectionLine>, item: ItemId)
    requires !Mentions(lines, item)
    ensures Total(lines, item) == 0 && TotalOf(lines, item, Sellable) == 0
  {
    if lines != [] {
      var front := lines[..|lines| - 1];
      assert forall i :: 0 <= i < |front| ==> front[i] == lines[i];
      assert !Mentions(front, item) && lines[|lines| - 1].item != item;
      Unmentioned(front, item);
    }
  }

  /** Adds a line to the group of its item, or opens a group for it. */
  function Regroup(groups: seq<Group>, line: InspectionLine): seq<Group> {
    var at := FindGroup(groups, line.item);
    if at.Some? then groups[at.value := AddTo(groups[at.value], line)]
    else groups + [AddTo(Group(line.item, 0, 0), line)]
  }

  lemma GroupsStep(groups: seq<Group>, lines: seq<InspectionLine>, line: InspectionLine)
    requires GroupsOf(groups, lines)
    ensures GroupsOf(Regroup(groups, line), lines + [line])
  {
    var after := Regroup(groups, line);
    var at := FindGroup(groups, line.item);
    if at.None? {
      assert !Mentions(lines, line.item);
      NewGroup(lines, line);
    }
    forall i | 0 <= i < |after| ensures IsGroup(after[i], lines + [line]) {
      if i < |groups| {
        GroupAfter(groups[i], lines, line);
      }
    }
    forall i | 0 <= i < |lines| + 1 ensures HasGroup(after, (lines + [line])[i].item) {
      if i < |lines| {
        assert HasGroup(groups, lines[i].item);
        var k :| 0 <= k < |groups| && groups[k].item == lines[i].item;
        assert after[k].item == lines[i].item;
      } else {
        assert after[if at.Some? then at.value else |groups|].item == line.item;
      }
    }
  }

  lemma FirstBelow(groups: seq<Group>, bound: nat)
    requires |groups| > 0 && forall i :: 0 <= i < |groups| ==> groups[i].item < bound
    ensures 0 < bound
  {
    assert groups[0].item < bound;
  }

  lemma {:induction false} DistinctItems(groups: seq<Group>, bound: nat)
    requires forall i, k :: 0 <= i < k < |groups| ==> groups[i].item != groups[k].item
    requires forall i :: 0 <= i < |groups| ==> groups[i].item < bound
    requires forall item: nat :: item < bound ==> HasGroup(groups, item)
    ensures |groups| == bound
  {
    if bound > 0 {
      assert HasGroup(groups, bound - 1);
      var k :| 0 <= k < |groups| && groups[k].item == bound - 1;
      var rest := groups[..k] + groups[k + 1..];
      forall item: nat | item < bound - 1 ensures HasGroup(rest, item) {
        assert HasGroup(groups, item);
        var i :| 0 <= i < |groups| && groups[i].item == item;
        assert rest[if i < k then i else i - 1] == groups[i];
      }
      DistinctItems(rest, bound - 1);
    } else if |groups| > 0 {
      FirstBelow(groups, bound);
    }
  }

  /** Covering every item makes as many groups as items, so the size check refuses nothing more. */
  lemma SizeFollows(items: seq<CartItem>, lines: seq<InspectionLine>, groups: seq<Group>)
    requires GroupsOf(groups, lines) && AllKnown(items, lines) && AccountsFor(items, lines)
    ensures |groups| == |items|
  {
    forall i | 0 <= i < |groups| ensures groups[i].item < |items| {
      assert IsGroup(groups[i], lines);
    }
    forall item: nat | item < |items| ensures HasGroup(groups, item) {
      assert Mentions(lines, item);
    }
    DistinctItems(groups, |items|);
  }

  /** What the grouping loop has after some lines. */
  function GroupsAfter(lines: seq<InspectionLine>): seq<Group> {
    if lines == [] then [] else Regroup(GroupsAfter(lines[..|lines| - 1]), lines[|lines| - 1])
  }

  lemma {:induction false} GroupsAfterAre(lines: seq<InspectionLine>)
    ensures GroupsOf(GroupsAfter(lines), lines)
  {
    if lines != [] {
      var front, last := lines[..|lines| - 1], lines[|lines| - 1];
      GroupsAfterAre(front);
      GroupsStep(GroupsAfter(front), front, last);
      assert front + [last] == lines;
    }
  }

  /** Gets the group of the line's item, or a new one, adds the line's units and sets it back. */
  method AddLine(groups: seq<Group>, line: InspectionLine) returns (after: seq<Group>)
    ensures after == Regroup(groups, line)
  {
    var at := FindGroup(groups, line.item);
    var current := if at.Some? then groups[at.value] else Group(line.item, 0, 0);
    current := current.(total := current.total + line.quantity);
    if line.disposition.Sellable? {
      current := current.(sellable := current.sellable + line.quantity);
    }
    after := if at.Some? then groups[at.value := current] else groups + [current];
  }

  /** Groups the lines by item in a map; None when a line names no ordered item. */
  method GroupLines(items: seq<CartItem>, lines: seq<InspectionLine>) returns (grouped: Option<seq<Group>>)
    ensures grouped.Some? <==> AllKnown(items, lines)
    ensures grouped.Some? ==> grouped.value == GroupsAfter(lines)
  {
    var groups: seq<Group> := [];
    for i := 0 to |lines|
      invariant forall k :: 0 <= k < i ==> lines[k].item < |items|
      invariant groups == GroupsAfter(lines[..i])
    {
      var line := lines[i];
      if line.item >= |items| {
        return None;
      }
      assert lines[..i + 1][..i] == lines[..i];
      groups := AddLine(groups, line);
    }
    assert lines[..|lines|] == lines;
    return Some(groups);
  }

  lemma GroupTells(groups: seq<Group>, lines: seq<InspectionLine>, item: ItemId)
    requires GroupsOf(groups, lines)
    ensures var at := FindGroup(groups, item);
      && (at.Some? <==> Mentions(lines, item))
      && (at.Some? ==> IsGroup(groups[at.value], lines))
  {
    var at := FindGroup(groups, item);
    if Mentions(lines, item) {
      var k :| 0 <= k < |lines| && lines[k].item == item;
      assert HasGroup(groups, lines[k].item);
    }
    if at.Some? {
      assert IsGroup(groups[at.value], lines);
    }
  }

  /** Checks the number of groups and each group's total, and lists the sellable units. */
  method InspectLines(items: seq<CartItem>, lines: seq<InspectionLine>) returns (result: Result<seq<CartItem>>)
    ensures result == Inspect(items, lines)
  {
    var grouped := GroupLines(items, lines);
    if grouped.None? {
      return Err(BadRequest);
    }
    GroupsAfterAre(lines);
    if |grouped.value| != |items| {
      if AccountsFor(items, lines) {
        SizeFollows(items, lines, grouped.value);
      }
      return Err(BadRequest);
    }
    var units: seq<CartItem> := [];
    for i := 0 to |items|
      invariant |units| == i
      invariant forall k :: 0 <= k < i ==> Mentions(lines, k) && Total(lines, k) == items[k].quantity
      invariant forall k :: 0 <= k < i ==> units[k] == CartItem(items[k].product, TotalOf(lines, k, Sellable))
    {
      GroupTells(grouped.value, lines, i);
      var at := FindGroup(grouped.value, i);
      if at.None? || grouped.value[at.value].total != items[i].quantity {
        return Err(BadRequest);
      }
      units := units + [CartItem(items[i].product, grouped.value[at.value].sellable)];
    }
    assert units == SellableUnits(items, lines);
    return Ok(units);
  }
}
