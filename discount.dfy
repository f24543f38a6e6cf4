/** The point-of-sale global discount button.

    `ApplyDiscount` removes every line of the configured discount product from
    the current order, then adds one discount line per tax group of the
    remaining lines: its price is `-(pc / 100) * base`, where `base` is the
    amount of the group's lines that accept a global discount, and it is added
    only when that price is negative. */
module DiscountButton {
  import opened Seqs
  import opened TaxKeys

  datatype Option<T> = None | Some(value: T)

  datatype Product = Product(id: nat)

  /** What the description of a discount line says about its taxes. */
  datatype TaxNote = NoTax | TaxRates(taxIds: seq<nat>)

  datatype Description = Plain | DiscountNote(percent: real, taxes: TaxNote)

  /** An order line; `cid` is the identity of the line object within the order. */
  datatype Orderline = Orderline(
    cid: nat,
    product: Product,
    price: real,
    lstPrice: real,
    taxIds: seq<nat>,
    description: Description,
    priceAutomaticallySet: bool)

  /** The options record handed to `add_product`. */
  datatype LineOptions = LineOptions(
    price: real,
    lstPrice: real,
    taxIds: seq<nat>,
    merge: bool,
    description: Description,
    priceAutomaticallySet: bool)

  /** One entry of the order's lines grouped by tax ids: the lines whose
      taxes are `taxIds`, filed under the key `TaxKeyOf(taxIds)`. */
  datatype TaxGroup = TaxGroup(taxIds: seq<nat>, lines: seq<Orderline>) {
    function Key(): string {
      TaxKeyOf(taxIds)
    }
  }

  /** The collaborators of the order whose code is not part of this model:
      `get_orderlines_grouped_by_tax_ids`, `calculate_base_amount` and the
      line predicate `isGlobalDiscountApplicable`. */
  datatype PosContext = PosContext(
    groupByTaxIds: seq<Orderline> -> seq<TaxGroup>,
    calculateBaseAmount: (seq<nat>, seq<Orderline>) -> real,
    isGlobalDiscountApplicable: Orderline -> bool)

  /** `NoDiscountProduct` is the run that shows the "No discount product found" popup. */
  datatype Outcome = Applied | NoDiscountProduct

  function Min(a: real, b: real): real {
    if a <= b then a else b
  }

  function Max(a: real, b: real): real {
    if a >= b then a else b
  }

  /** `Math.max(0, Math.min(100, payload))`: the percentage actually applied. */
  function Clamp(payload: real): (pc: real)
    ensures 0.0 <= pc <= 100.0
    ensures 0.0 <= payload <= 100.0 ==> pc == payload
    ensures payload > 100.0 ==> pc == 100.0
    ensures payload < 0.0 ==> pc == 0.0
  {
    Max(0.0, Min(100.0, payload))
  }

  function OfProduct(p: Product): Orderline -> bool {
    (line: Orderline) => line.product == p
  }

  function NotOfProduct(p: Product): Orderline -> bool {
    (line: Orderline) => line.product != p
  }

  function OtherThan(cid: nat): Orderline -> bool {
    (line: Orderline) => line.cid != cid
  }

  function NotIn(removed: seq<Orderline>): Orderline -> bool {
    (line: Orderline) => line !in removed
  }

  /** No two lines of an order are the same line object. */
  ghost predicate UniqueCids(lines: seq<Orderline>) {
    forall a, b :: a in lines && b in lines && a.cid == b.cid ==> a == b
  }

  /** The order's lines once the discount product's lines are removed. */
  function Remaining(lines: seq<Orderline>, p: Product): (kept: seq<Orderline>)
    ensures forall l :: l in kept <==> l in lines && l.product != p
  {
    Filter(lines, NotOfProduct(p))
  }

  /** `(-pc / 100) * base`: the signed amount of a group's discount line. */
  function DiscountAmount(pc: real, base: real): real {
    (-pc / 100.0) * base
  }

  /** With a percentage in [0, 100] the discount is never positive and never
      exceeds the base; it is negative exactly when both the percentage and the
      base are positive. */
  lemma DiscountAmountBounds(pc: real, base: real)
    requires 0.0 <= pc <= 100.0
    ensures 0.0 <= base ==> -base <= DiscountAmount(pc, base) <= 0.0
    ensures DiscountAmount(pc, base) < 0.0 <==> pc > 0.0 && base > 0.0
  {
    var factor := -pc / 100.0;
    assert -1.0 <= factor <= 0.0;
    if 0.0 <= base {
      assert factor * base >= -1.0 * base;
    }
    if pc > 0.0 && base > 0.0 {
      assert factor * base < 0.0;
    } else if pc == 0.0 {
      assert factor == 0.0;
    } else {
      assert factor * base >= 0.0;
    }
  }

  /** The base of a group: the amount of its lines that accept a global discount. */
  function GroupBase(group: TaxGroup, ctx: PosContext): real
  {
    ctx.calculateBaseAmount(group.taxIds, Filter(group.lines, ctx.isGlobalDiscountApplicable))
  }

  function TaxNoteOf(taxIds: seq<nat>): TaxNote {
    if |taxIds| == 0 then NoTax else TaxRates(taxIds)
  }

  /** The options of the discount line a group receives, if it receives one:
      its price is the group's discount, its taxes are the group's own taxes,
      and it never merges into another line. */
  function DiscountOptions(pc: real, group: TaxGroup, ctx: PosContext): (o: Option<LineOptions>)
    ensures o.Some? <==> DiscountAmount(pc, GroupBase(group, ctx)) < 0.0
    ensures o.Some? ==> o.value.price == DiscountAmount(pc, GroupBase(group, ctx)) &&
                        o.value.lstPrice == o.value.price
    ensures o.Some? ==> o.value.taxIds == group.taxIds
    ensures o.Some? ==> !o.value.merge && o.value.priceAutomaticallySet
    ensures o.Some? ==> o.value.description.DiscountNote? && o.value.description.percent == pc
    ensures o.Some? ==> (o.value.description.taxes == NoTax <==> group.taxIds == [])
  {
    var taxIds := group.taxIds;
    var discount := DiscountAmount(pc, GroupBase(group, ctx));
    if discount < 0.0 then
      Some(LineOptions(discount, discount, taxIds, false, DiscountNote(pc, TaxNoteOf(taxIds)), true))
    else
      None
  }

  /** The line `add_product` creates from `options` when it does not merge. */
  function NewLine(cid: nat, product: Product, options: LineOptions): Orderline {
    Orderline(cid, product, options.price, options.lstPrice, options.taxIds,
              options.description, options.priceAutomaticallySet)
  }

  /** The options `apply_discount` computes for each group, in group order. */
  function GroupOptions(pc: real, groups: seq<TaxGroup>, ctx: PosContext): (opts: seq<Option<LineOptions>>)
    ensures |opts| == |groups|
    decreases |groups|
  {
    if groups == [] then []
    else GroupOptions(pc, groups[..|groups| - 1], ctx) + [DiscountOptions(pc, groups[|groups| - 1], ctx)]
  }

  /** The options of consecutive runs of groups are those of each run in turn. */
  lemma {:induction false} GroupOptionsAppend(pc: real, g1: seq<TaxGroup>, g2: seq<TaxGroup>, ctx: PosContext)
    ensures GroupOptions(pc, g1 + g2, ctx) == GroupOptions(pc, g1, ctx) + GroupOptions(pc, g2, ctx)
    decreases |g2|
  {
    if g2 == [] {
      assert g1 + g2 == g1;
    } else {
      var init := g2[..|g2| - 1];
      var gs := g1 + g2;
      assert gs[..|gs| - 1] == g1 + init;
      assert gs[|gs| - 1] == g2[|g2| - 1];
      GroupOptionsAppend(pc, g1, init, ctx);
    }
  }

  /** Entry `j` of `GroupOptions` belongs to group `j`. */
  lemma {:induction false} GroupOptionsAt(pc: real, groups: seq<TaxGroup>, ctx: PosContext)
    ensures forall j :: 0 <= j < |groups| ==> GroupOptions(pc, groups, ctx)[j] == DiscountOptions(pc, groups[j], ctx)
    decreases |groups|
  {
    if groups != [] {
      var init := groups[..|groups| - 1];
      GroupOptionsAt(pc, init, ctx);
      assert forall j :: 0 <= j < |init| ==> groups[j] == init[j];
    }
  }

  /** The line (if any) `add_product` creates for one entry, with identity `cid`. */
  function LineOf(p: Product, opt: Option<LineOptions>, cid: nat): seq<Orderline> {
    match opt
    case None => []
    case Some(o) => [NewLine(cid, p, o)]
  }

  /** The options of the `Some` entries of `opts`, in their order. */
  function Chosen(opts: seq<Option<LineOptions>>): (chosen: seq<LineOptions>)
    ensures |chosen| <= |opts|
    decreases |opts|
  {
    if opts == [] then []
    else
      var last := opts[|opts| - 1];
      Chosen(opts[..|opts| - 1]) + (if last.Some? then [last.value] else [])
  }

  /** The lines `add_product` creates for the `Some` entries of `opts`, in
      their order, with identities handed out one by one from `firstCid`. */
  function LinesFor(p: Product, opts: seq<Option<LineOptions>>, firstCid: nat): (lines: seq<Orderline>)
    ensures |lines| <= |opts|
  {
    var chosen := Chosen(opts);
    seq(|chosen|, k requires 0 <= k < |chosen| => NewLine(firstCid + k, p, chosen[k]))
  }

  /** The discount lines added for `groups`, in group order, numbered from `firstCid`. */
  function DiscountLines(p: Product, pc: real, groups: seq<TaxGroup>, ctx: PosContext, firstCid: nat)
    : (added: seq<Orderline>)
    ensures |added| <= |groups|
  {
    LinesFor(p, GroupOptions(pc, groups, ctx), firstCid)
  }

  /** The order's lines after the discount button ran, new lines numbered from `firstCid`. */
  function AfterDiscount(lines: seq<Orderline>, product: Option<Product>, pc: real,
                         ctx: PosContext, firstCid: nat): seq<Orderline>
  {
    match product
    case None => lines
    case Some(p) =>
      var kept := Remaining(lines, p);
      kept + DiscountLines(p, pc, ctx.groupByTaxIds(kept), ctx, firstCid)
  }

  /** Choosing from consecutive runs of entries chooses from each in turn. */
  lemma {:induction false} ChosenAppend(o1: seq<Option<LineOptions>>, o2: seq<Option<LineOptions>>)
    ensures Chosen(o1 + o2) == Chosen(o1) + Chosen(o2)
    decreases |o2|
  {
    if o2 == [] {
      assert o1 + o2 == o1;
    } else {
      var init := o2[..|o2| - 1];
      var os := o1 + o2;
      assert os[..|os| - 1] == o1 + init;
      ChosenAppend(o1, init);
    }
  }

  /** Entries that are all `None` choose nothing. */
  lemma {:induction false} ChosenNone(opts: seq<Option<LineOptions>>)
    requires forall j :: 0 <= j < |opts| ==> opts[j].None?
    ensures Chosen(opts) == []
    decreases |opts|
  {
    if opts != [] {
      ChosenNone(opts[..|opts| - 1]);
    }
  }

  /** Each chosen option comes from a `Some` entry of `opts`. */
  lemma {:induction false} ChosenFrom(opts: seq<Option<LineOptions>>, k: int)
    requires 0 <= k < |Chosen(opts)|
    ensures exists j :: 0 <= j < |opts| && opts[j] == Some(Chosen(opts)[k])
    decreases |opts|
  {
    var n := |opts| - 1;
    var init := opts[..n];
    if k < |Chosen(init)| {
      ChosenFrom(init, k);
      var j :| 0 <= j < |init| && init[j] == Some(Chosen(init)[k]);
      assert opts[j] == init[j];
    } else {
      assert opts[n] == Some(Chosen(opts)[k]);
    }
  }

  /** Each `Some` entry of `opts` is chosen. */
  lemma {:induction false} ChosenHas(opts: seq<Option<LineOptions>>, j: int)
    requires 0 <= j < |opts| && opts[j].Some?
    ensures exists k :: 0 <= k < |Chosen(opts)| && Chosen(opts)[k] == opts[j].value
    decreases |opts|
  {
    var n := |opts| - 1;
    var init := opts[..n];
    if j < n {
      ChosenHas(init, j);
      var k :| 0 <= k < |Chosen(init)| && Chosen(init)[k] == init[j].value;
      assert opts[j] == init[j];
      assert Chosen(opts)[k] == Chosen(init)[k];
    } else {
      assert Chosen(opts)[|Chosen(init)|] == opts[j].value;
    }
  }

  /** Options of consecutive runs of groups give lines laid end to end, the
      second run numbered after the first. */
  lemma LinesForAppend(p: Product, o1: seq<Option<LineOptions>>, o2: seq<Option<LineOptions>>, firstCid: nat)
    ensures var d1 := LinesFor(p, o1, firstCid);
            LinesFor(p, o1 + o2, firstCid) == d1 + LinesFor(p, o2, firstCid + |d1|)
  {
    ChosenAppend(o1, o2);
  }

  /** Every added line is a line of the discount product with a strictly
      negative price equal to its list price, marked as priced automatically,
      describing the entered percentage and carrying the taxes of one group;
      the added lines receive consecutive identities from `firstCid`. */
  lemma DiscountLinesShape(p: Product, pc: real, groups: seq<TaxGroup>, ctx: PosContext, firstCid: nat)
    ensures var added := DiscountLines(p, pc, groups, ctx, firstCid);
            forall k :: 0 <= k < |added| ==>
              added[k].cid == firstCid + k && added[k].product == p &&
              added[k].price < 0.0 && added[k].lstPrice == added[k].price &&
              added[k].priceAutomaticallySet &&
              added[k].description.DiscountNote? && added[k].description.percent == pc &&
              exists j :: 0 <= j < |groups| && added[k].taxIds == groups[j].taxIds
  {
    var added := DiscountLines(p, pc, groups, ctx, firstCid);
    forall k | 0 <= k < |added|
      ensures added[k].cid == firstCid + k && added[k].product == p &&
              added[k].price < 0.0 && added[k].lstPrice == added[k].price &&
              added[k].priceAutomaticallySet &&
              added[k].description.DiscountNote? && added[k].description.percent == pc &&
              exists j :: 0 <= j < |groups| && added[k].taxIds == groups[j].taxIds
    {
      AddedLineSource(p, pc, groups, ctx, firstCid, k);
    }
  }

  /** The k-th added line is the line of some group that asks for one. */
  lemma AddedLineSource(p: Product, pc: real, groups: seq<TaxGroup>, ctx: PosContext, firstCid: nat, k: int)
    requires 0 <= k < |DiscountLines(p, pc, groups, ctx, firstCid)|
    ensures exists j :: 0 <= j < |groups| && DiscountOptions(pc, groups[j], ctx).Some? &&
              DiscountLines(p, pc, groups, ctx, firstCid)[k]
                == NewLine(firstCid + k, p, DiscountOptions(pc, groups[j], ctx).value)
  {
    var opts := GroupOptions(pc, groups, ctx);
    ChosenFrom(opts, k);
    var j :| 0 <= j < |opts| && opts[j] == Some(Chosen(opts)[k]);
    GroupOptionsAt(pc, groups, ctx);
    assert opts[j] == DiscountOptions(pc, groups[j], ctx);
    assert DiscountLines(p, pc, groups, ctx, firstCid)[k] == NewLine(firstCid + k, p, Chosen(opts)[k]);
  }

  /** The line of a group that asks for one is among the added lines. */
  lemma GroupLineAdded(p: Product, pc: real, groups: seq<TaxGroup>, ctx: PosContext, firstCid: nat, j: int)
    requires 0 <= j < |groups| && DiscountOptions(pc, groups[j], ctx).Some?
    ensures var added := DiscountLines(p, pc, groups, ctx, firstCid);
            exists k :: 0 <= k < |added| &&
              added[k] == NewLine(firstCid + k, p, DiscountOptions(pc, groups[j], ctx).value)
  {
    var opts := GroupOptions(pc, groups, ctx);
    GroupOptionsAt(pc, groups, ctx);
    assert opts[j] == DiscountOptions(pc, groups[j], ctx);
    ChosenHas(opts, j);
    var k :| 0 <= k < |Chosen(opts)| && Chosen(opts)[k] == opts[j].value;
    assert DiscountLines(p, pc, groups, ctx, firstCid)[k] == NewLine(firstCid + k, p, opts[j].value);
  }

  /** Every group whose discount is negative has a line among the added ones,
      priced at that discount and carrying that group's taxes. */
  lemma EveryDiscountedGroupHasLine(p: Product, pc: real, groups: seq<TaxGroup>, ctx: PosContext, firstCid: nat)
    ensures var added := DiscountLines(p, pc, groups, ctx, firstCid);
            forall j :: 0 <= j < |groups| && DiscountAmount(pc, GroupBase(groups[j], ctx)) < 0.0 ==>
              exists k :: 0 <= k < |added| &&
                added[k].price == DiscountAmount(pc, GroupBase(groups[j], ctx)) &&
                added[k].taxIds == groups[j].taxIds
  {
    var added := DiscountLines(p, pc, groups, ctx, firstCid);
    forall j | 0 <= j < |groups| && DiscountAmount(pc, GroupBase(groups[j], ctx)) < 0.0
      ensures exists k :: 0 <= k < |added| &&
                added[k].price == DiscountAmount(pc, GroupBase(groups[j], ctx)) &&
                added[k].taxIds == groups[j].taxIds
    {
      GroupLineAdded(p, pc, groups, ctx, firstCid, j);
    }
  }

  /** `line` is priced at the negative discount of one of `groups` and
      carries that group's taxes. */
  predicate FromDiscountedGroup(line: Orderline, pc: real, groups: seq<TaxGroup>, ctx: PosContext) {
    exists j :: 0 <= j < |groups| && DiscountAmount(pc, GroupBase(groups[j], ctx)) < 0.0 &&
      line.price == DiscountAmount(pc, GroupBase(groups[j], ctx)) &&
      line.taxIds == groups[j].taxIds
  }

  /** Every added line is the line of a group whose discount is negative,
      priced at that discount and carrying that group's taxes. */
  lemma EveryLineHasDiscountedGroup(p: Product, pc: real, groups: seq<TaxGroup>, ctx: PosContext, firstCid: nat)
    ensures var added := DiscountLines(p, pc, groups, ctx, firstCid);
            forall k :: 0 <= k < |added| ==> FromDiscountedGroup(added[k], pc, groups, ctx)
  {
    var added := DiscountLines(p, pc, groups, ctx, firstCid);
    forall k | 0 <= k < |added|
      ensures FromDiscountedGroup(added[k], pc, groups, ctx)
    {
      AddedLineSource(p, pc, groups, ctx, firstCid, k);
      var j :| 0 <= j < |groups| && DiscountOptions(pc, groups[j], ctx).Some? &&
               added[k] == NewLine(firstCid + k, p, DiscountOptions(pc, groups[j], ctx).value);
    }
  }

  /** No two groups are filed under the same key, as the keys of an object are distinct. */
  predicate DistinctKeys(groups: seq<TaxGroup>) {
    forall a, b :: 0 <= a < b < |groups| ==> groups[a].Key() != groups[b].Key()
  }

  /** No two lines carry the same tax ids. */
  predicate DistinctTaxIds(lines: seq<Orderline>) {
    forall a, b :: 0 <= a < b < |lines| ==> lines[a].taxIds != lines[b].taxIds
  }

  /** With groups filed under distinct keys, each tax signature receives at most
      one discount line. */
  lemma {:induction false} DistinctGroupsDistinctLines(p: Product, pc: real, groups: seq<TaxGroup>,
                                                       ctx: PosContext, firstCid: nat)
    requires DistinctKeys(groups)
    ensures DistinctTaxIds(DiscountLines(p, pc, groups, ctx, firstCid))
    decreases |groups|
  {
    if groups != [] {
      var n := |groups| - 1;
      var init := groups[..n];
      assert DistinctKeys(init) by {
        forall a, b | 0 <= a < b < |init| ensures init[a].Key() != init[b].Key() {
          assert init[a] == groups[a] && init[b] == groups[b];
        }
      }
      DistinctGroupsDistinctLines(p, pc, init, ctx, firstCid);
      DiscountLinesStep(p, pc, groups, n, ctx, firstCid);
      assert groups[..n + 1] == groups;
      var prev := DiscountLines(p, pc, init, ctx, firstCid);
      var opt := DiscountOptions(pc, groups[n], ctx);
      if opt.Some? {
        var line := NewLine(firstCid + |prev|, p, opt.value);
        DiscountLinesShape(p, pc, init, ctx, firstCid);
        forall k | 0 <= k < |prev| ensures prev[k].taxIds != line.taxIds {
          var i :| 0 <= i < |init| && prev[k].taxIds == init[i].taxIds;
          assert init[i] == groups[i];
          assert groups[i].Key() != groups[n].Key();
        }
        var all := prev + [line];
        assert DistinctTaxIds(all) by {
          forall a, b | 0 <= a < b < |all| ensures all[a].taxIds != all[b].taxIds {
            if b < |prev| {
              assert all[a] == prev[a] && all[b] == prev[b];
            } else {
              assert all[a] == prev[a] && all[b] == line;
            }
          }
        }
      }
    }
  }

  /** With a positive percentage a group receives a line exactly when its base
      is positive; a zero or negative base never yields a line. */
  lemma GroupGetsLineIffPositiveBase(pc: real, group: TaxGroup, ctx: PosContext)
    requires 0.0 < pc
    ensures DiscountOptions(pc, group, ctx).Some? <==> GroupBase(group, ctx) > 0.0
  {
    var base := GroupBase(group, ctx);
    var factor := -pc / 100.0;
    assert factor < 0.0;
    if base > 0.0 {
      assert factor * base < 0.0;
    } else {
      assert factor * base >= 0.0;
    }
  }

  /** A zero percentage adds no line at all. */
  lemma ZeroPercentAddsNothing(p: Product, groups: seq<TaxGroup>, ctx: PosContext, firstCid: nat)
    ensures DiscountLines(p, 0.0, groups, ctx, firstCid) == []
  {
    GroupOptionsAt(0.0, groups, ctx);
    ChosenNone(GroupOptions(0.0, groups, ctx));
  }

  /** Discount lines of consecutive runs of groups are laid end to end: each
      group contributes its own line (or none) in its own place. */
  lemma DiscountLinesAppend(p: Product, pc: real, g1: seq<TaxGroup>, g2: seq<TaxGroup>,
                            ctx: PosContext, firstCid: nat)
    ensures var d1 := DiscountLines(p, pc, g1, ctx, firstCid);
            DiscountLines(p, pc, g1 + g2, ctx, firstCid)
              == d1 + DiscountLines(p, pc, g2, ctx, firstCid + |d1|)
  {
    var o1, o2 := GroupOptions(pc, g1, ctx), GroupOptions(pc, g2, ctx);
    GroupOptionsAppend(pc, g1, g2, ctx);
    LinesForAppend(p, o1, o2, firstCid);
    var d1 := LinesFor(p, o1, firstCid);
    assert DiscountLines(p, pc, g1, ctx, firstCid) == d1;
    assert DiscountLines(p, pc, g2, ctx, firstCid + |d1|) == LinesFor(p, o2, firstCid + |d1|);
    assert DiscountLines(p, pc, g1 + g2, ctx, firstCid) == LinesFor(p, o1 + o2, firstCid);
  }

  /** The next group's line, if any, follows the lines of the groups before it. */
  lemma DiscountLinesStep(p: Product, pc: real, groups: seq<TaxGroup>, j: nat, ctx: PosContext, firstCid: nat)
    requires j < |groups|
    ensures var prev := DiscountLines(p, pc, groups[..j], ctx, firstCid);
            DiscountLines(p, pc, groups[..j + 1], ctx, firstCid)
              == prev + LineOf(p, DiscountOptions(pc, groups[j], ctx), firstCid + |prev|)
  {
    var gs := groups[..j + 1];
    assert gs[..j] == groups[..j];
    var o := GroupOptions(pc, groups[..j], ctx);
    var opts := GroupOptions(pc, gs, ctx);
    assert opts == o + [DiscountOptions(pc, groups[j], ctx)];
    assert opts[..j] == o;
  }

  /** The discount lines differ between two runs over the same groups only in
      the identities the order hands out. */
  lemma DiscountLinesCidShift(p: Product, pc: real, groups: seq<TaxGroup>, ctx: PosContext, c1: nat, c2: nat)
    ensures var d1 := DiscountLines(p, pc, groups, ctx, c1);
            var d2 := DiscountLines(p, pc, groups, ctx, c2);
            |d1| == |d2| && forall k :: 0 <= k < |d1| ==> d2[k] == d1[k].(cid := c2 + k)
  {
  }

  /** Lines that do not accept a global discount never influence the discount:
      groups that agree on their taxes and on their eligible lines get the same lines. */
  lemma IneligibleLinesIgnored(p: Product, pc: real, g1: seq<TaxGroup>, g2: seq<TaxGroup>,
                               ctx: PosContext, firstCid: nat)
    requires |g1| == |g2|
    requires forall j :: 0 <= j < |g1| ==>
               g1[j].taxIds == g2[j].taxIds &&
               Filter(g1[j].lines, ctx.isGlobalDiscountApplicable) == Filter(g2[j].lines, ctx.isGlobalDiscountApplicable)
    ensures DiscountLines(p, pc, g1, ctx, firstCid) == DiscountLines(p, pc, g2, ctx, firstCid)
  {
    GroupOptionsAt(pc, g1, ctx);
    GroupOptionsAt(pc, g2, ctx);
    assert GroupOptions(pc, g1, ctx) == GroupOptions(pc, g2, ctx) by {
      forall j | 0 <= j < |g1| ensures DiscountOptions(pc, g1[j], ctx) == DiscountOptions(pc, g2[j], ctx) {
        assert GroupBase(g1[j], ctx) == GroupBase(g2[j], ctx);
      }
    }
  }

  /** After a run the discount product's lines are exactly the lines that run
      added, and all other lines are those of the order before the run, in order. */
  lemma StaleDiscountsReplaced(lines: seq<Orderline>, p: Product, pc: real, ctx: PosContext, firstCid: nat)
    ensures var kept := Remaining(lines, p);
            var after := AfterDiscount(lines, Some(p), pc, ctx, firstCid);
            Filter(after, OfProduct(p)) == DiscountLines(p, pc, ctx.groupByTaxIds(kept), ctx, firstCid) &&
            Remaining(after, p) == kept
  {
    var kept := Remaining(lines, p);
    var added := DiscountLines(p, pc, ctx.groupByTaxIds(kept), ctx, firstCid);
    FilterAppend(kept, added, OfProduct(p));
    FilterDropsAll(kept, OfProduct(p));
    DiscountLinesShape(p, pc, ctx.groupByTaxIds(kept), ctx, firstCid);
    FilterKeepsAll(added, OfProduct(p));
    FilterAppend(kept, added, NotOfProduct(p));
    FilterKeepsAll(kept, NotOfProduct(p));
    FilterDropsAll(added, NotOfProduct(p));
  }

  /** The discount lines present before a run play no part in it: running on
      the order without them gives the same order. */
  lemma PriorDiscountsIrrelevant(lines: seq<Orderline>, p: Product, pc: real, ctx: PosContext, firstCid: nat)
    ensures AfterDiscount(Remaining(lines, p), Some(p), pc, ctx, firstCid)
         == AfterDiscount(lines, Some(p), pc, ctx, firstCid)
  {
    FilterKeepsAll(Remaining(lines, p), NotOfProduct(p));
  }

  /** Pressing the button twice with the same percentage replaces the first
      run's discount lines instead of stacking them: the second order equals
      the first up to the identities of the new discount lines. */
  lemma ReapplyIsIdempotent(lines: seq<Orderline>, p: Product, pc: real, ctx: PosContext, c1: nat, c2: nat)
    ensures var once := AfterDiscount(lines, Some(p), pc, ctx, c1);
            var twice := AfterDiscount(once, Some(p), pc, ctx, c2);
            |twice| == |once| &&
            Remaining(twice, p) == Remaining(once, p) &&
            forall k :: 0 <= k < |once| ==> twice[k] == once[k].(cid := twice[k].cid)
  {
    var kept := Remaining(lines, p);
    var once := AfterDiscount(lines, Some(p), pc, ctx, c1);
    StaleDiscountsReplaced(lines, p, pc, ctx, c1);
    assert Remaining(once, p) == kept;
    var groups := ctx.groupByTaxIds(kept);
    DiscountLinesCidShift(p, pc, groups, ctx, c1, c2);
    var twice := AfterDiscount(once, Some(p), pc, ctx, c2);
    StaleDiscountsReplaced(once, p, pc, ctx, c2);
    assert twice == kept + DiscountLines(p, pc, groups, ctx, c2);
  }

  /** The order the button works on. */
  class Order {
    var orderlines: seq<Orderline>
    /** The identity the next created line receives. */
    var nextCid: nat

    ghost predicate Valid()
      reads this
    {
      UniqueCids(orderlines) && forall l :: l in orderlines ==> l.cid < nextCid
    }

    constructor ()
      ensures Valid() && orderlines == [] && nextCid == 0
    {
      orderlines := [];
      nextCid := 0;
    }

    /** `order.remove_orderline(line)`: drops that line object from the order. */
    method RemoveOrderline(line: Orderline)
      requires Valid()
      modifies this
      ensures Valid() && nextCid == old(nextCid)
      ensures orderlines == Filter(old(orderlines), OtherThan(line.cid))
    {
      orderlines := Filter(orderlines, OtherThan(line.cid));
    }

    /** `order.add_product(product, options)` with `merge: false`: a new line at the end. */
    method AddProduct(product: Product, options: LineOptions) returns (line: Orderline)
      requires Valid()
      requires !options.merge
      modifies this
      ensures Valid()
      ensures line == NewLine(old(nextCid), product, options)
      ensures orderlines == old(orderlines) + [line] && nextCid == old(nextCid) + 1
    {
      line := NewLine(nextCid, product, options);
      orderlines := orderlines + [line];
      nextCid := nextCid + 1;
    }

    /** `apply_discount(pc)` on this order; `product` is the result of looking
        up the configured discount product. */
    method ApplyDiscount(pc: real, product: Option<Product>, ctx: PosContext) returns (outcome: Outcome)
      requires Valid()
      modifies this
      ensures Valid()
      ensures outcome == NoDiscountProduct <==> product.None?
      ensures orderlines == AfterDiscount(old(orderlines), product, pc, ctx, old(nextCid))
      ensures product.None? ==> orderlines == old(orderlines) && nextCid == old(nextCid)
      ensures product.Some? ==>
                nextCid == old(nextCid) + |DiscountLines(product.value, pc,
                             ctx.groupByTaxIds(Remaining(old(orderlines), product.value)), ctx, old(nextCid))|
    {
      if product.None? {
        return NoDiscountProduct;
      }
      var discountProduct := product.value;
      RemoveDiscountLines(discountProduct);
      AddDiscountLines(discountProduct, pc, ctx);
      outcome := Applied;
    }

    /** The first half of `apply_discount`: every line of the discount product
        is removed, one `remove_orderline` at a time. */
    method RemoveDiscountLines(discountProduct: Product)
      requires Valid()
      modifies this
      ensures Valid() && nextCid == old(nextCid)
      ensures orderlines == Remaining(old(orderlines), discountProduct)
    {
      ghost var before := orderlines;
      var stale := Filter(orderlines, OfProduct(discountProduct));
      FilterKeepsAll(before, NotIn(stale[..0]));
      var i := 0;
      while i < |stale|
        invariant 0 <= i <= |stale|
        invariant Valid() && nextCid == old(nextCid)
        invariant orderlines == Filter(before, NotIn(stale[..i]))
      {
        RemoveStep(before, stale, i);
        RemoveOrderline(stale[i]);
        i := i + 1;
      }
      assert stale[..i] == stale;
      FilterExt(before, NotIn(stale), NotOfProduct(discountProduct));
    }

    /** The second half of `apply_discount`: for each tax group of the order's
        lines, a discount line is added when the group's discount is negative. */
    method AddDiscountLines(discountProduct: Product, pc: real, ctx: PosContext)
      requires Valid()
      modifies this
      ensures Valid()
      ensures orderlines == old(orderlines) +
                DiscountLines(discountProduct, pc, ctx.groupByTaxIds(old(orderlines)), ctx, old(nextCid))
      ensures nextCid == old(nextCid) +
                |DiscountLines(discountProduct, pc, ctx.groupByTaxIds(old(orderlines)), ctx, old(nextCid))|
    {
      var linesByTax := ctx.groupByTaxIds(orderlines);
      var j := 0;
      while j < |linesByTax|
        invariant 0 <= j <= |linesByTax|
        invariant Valid()
        invariant orderlines == old(orderlines) + DiscountLines(discountProduct, pc, linesByTax[..j], ctx, old(nextCid))
        invariant nextCid == old(nextCid) + |DiscountLines(discountProduct, pc, linesByTax[..j], ctx, old(nextCid))|
      {
        var taxIds := ParseTaxKey(linesByTax[j].Key());
        ParseTaxKeyOf(linesByTax[j].taxIds);
        var baseToDiscount := ctx.calculateBaseAmount(taxIds, Filter(linesByTax[j].lines, ctx.isGlobalDiscountApplicable));
        var discount := DiscountAmount(pc, baseToDiscount);
        ghost var opt := DiscountOptions(pc, linesByTax[j], ctx);
        ghost var prev := DiscountLines(discountProduct, pc, linesByTax[..j], ctx, old(nextCid));
        ghost var next := DiscountLines(discountProduct, pc, linesByTax[..j + 1], ctx, old(nextCid));
        DiscountLinesStep(discountProduct, pc, linesByTax, j, ctx, old(nextCid));
        if discount < 0.0 {
          var note := if |taxIds| == 0 then NoTax else TaxRates(taxIds);
          var options := LineOptions(discount, discount, taxIds, false, DiscountNote(pc, note), true);
          assert opt == Some(options);
          var line := AddProduct(discountProduct, options);
          assert next == prev + [line];
          assert old(orderlines) + prev + [line] == old(orderlines) + next;
        } else {
          assert next == prev;
        }
        j := j + 1;
        assert next == DiscountLines(discountProduct, pc, linesByTax[..j], ctx, old(nextCid));
      }
      assert linesByTax[..j] == linesByTax;
    }

    /** The button's click handler after the percentage popup closed. When
        confirmed, the entered percentage is parsed and clamped to [0, 100] and
        applied. `payload` is `None` when the entry does not parse as a number:
        the percentage is then NaN, every discount computed from it is NaN and
        no `discount < 0` test holds, so the run only removes the discount
        product's lines. */
    method OnClick(confirmed: bool, payload: Option<real>, product: Option<Product>, ctx: PosContext)
      returns (outcome: Option<Outcome>)
      requires Valid()
      modifies this
      ensures Valid()
      ensures !confirmed ==> outcome == None && orderlines == old(orderlines) && nextCid == old(nextCid)
      ensures confirmed ==> outcome == Some(if product.None? then NoDiscountProduct else Applied)
      ensures confirmed && payload.Some? ==>
                orderlines == AfterDiscount(old(orderlines), product, Clamp(payload.value), ctx, old(nextCid))
      ensures confirmed && payload.Some? && product.None? ==> nextCid == old(nextCid)
      ensures confirmed && payload.Some? && product.Some? ==>
                nextCid == old(nextCid) + |DiscountLines(product.value, Clamp(payload.value),
                             ctx.groupByTaxIds(Remaining(old(orderlines), product.value)), ctx, old(nextCid))|
      ensures confirmed && payload.None? ==>
                nextCid == old(nextCid) &&
                orderlines == if product.None? then old(orderlines) else Remaining(old(orderlines), product.value)
    {
      if !confirmed {
        return None;
      }
      if payload.Some? {
        var val := Clamp(payload.value);
        var applied := ApplyDiscount(val, product, ctx);
        outcome := Some(applied);
      } else if product.None? {
        outcome := Some(NoDiscountProduct);
      } else {
        RemoveDiscountLines(product.value);
        outcome := Some(Applied);
      }
    }
  }

  /** Removing the next stale line by identity removes exactly that line. */
  lemma RemoveStep(before: seq<Orderline>, stale: seq<Orderline>, i: nat)
    requires UniqueCids(before)
    requires i < |stale|
    requires forall l :: l in stale ==> l in before
    ensures Filter(Filter(before, NotIn(stale[..i])), OtherThan(stale[i].cid)) == Filter(before, NotIn(stale[..i + 1]))
  {
    assert stale[..i + 1] == stale[..i] + [stale[i]];
    assert stale[i] in before;
    FilterFilter(before, NotIn(stale[..i]), OtherThan(stale[i].cid), NotIn(stale[..i + 1]));
  }
}
