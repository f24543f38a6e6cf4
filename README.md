# Point-of-sale global discount button

This project models the "Discount" control button of the point-of-sale `pos_discount`
add-on. When the cashier confirms a percentage, the button works in three steps:

1. It clamps the entry to [0, 100].
2. It removes every order line of the configured discount product.
3. It regroups the remaining lines by their tax ids. For each group it adds one
   discount-product line priced at `-(pc / 100) * base`, but only when that amount is
   negative. Here `base` is the amount of the group's lines that accept a global discount.

The model has three modules:

- `Seqs` (`seqs.dfy`) holds the order-preserving `Filter` the routine uses. It comes with
  lemmas on concatenation, composition and order preservation.
- `TaxKeys` (`tax_keys.dfy`) covers the grouping key: tax ids joined by commas, and its
  parse through `split(",")`, dropping empty pieces and `Number`. The parse is proved to
  invert the key construction.
- `DiscountButton` (`discount.dfy`) holds the entities and the specification functions:
  - `DiscountOptions` gives the options one group receives.
  - `DiscountLines` gives the lines added for all groups.
  - `AfterDiscount` gives the order after a run.

  The module also holds the lemmas about these functions and the `Order` class. The class
  methods change the order's lines in place: `RemoveOrderline`, `AddProduct`,
  `ApplyDiscount` (split into `RemoveDiscountLines` and `AddDiscountLines`, one loop each)
  and `OnClick`. Each method's `ensures` ties the new state to those functions.

An order line is a value. Its `cid` stands for the identity of the line object. `Order.Valid`
states that the identities are distinct and below the next identity the order hands out.
Three collaborators whose code is not part of this model are fields of `PosContext`:

- the order's grouping of its lines by tax ids,
- its base-amount computation,
- the per-line "accepts a global discount" test.

## Model

| member | source | states |
|---|---|---|
| DiscountButton.Clamp | addons/pos_discount/static/src/js/DiscountButton.js:21 | The applied percentage always lies in [0, 100]. Entries above 100 become 100, entries below 0 become 0, and entries inside the range are kept. |
| DiscountButton.Order.OnClick | addons/pos_discount/static/src/js/DiscountButton.js:13-23 | Cancelling the popup changes nothing. Confirming a numeric entry leaves the order as `AfterDiscount` of the clamped percentage describes it, and hands out exactly one identity per added line. Confirming an entry that does not parse only removes the discount product's lines. The outcome reports the missing-product popup exactly when the product is missing. |
| DiscountButton.Order.ApplyDiscount | addons/pos_discount/static/src/js/DiscountButton.js:26-84 | A missing discount product leaves the order unchanged and reports it. Otherwise the new lines are `AfterDiscount` of the old ones, and the order hands out exactly one identity per added line. |
| DiscountButton.Order.RemoveDiscountLines | addons/pos_discount/static/src/js/DiscountButton.js:40-43 | Removing the stale lines one `remove_orderline` at a time leaves exactly the lines of other products, in their order. No identity is consumed. |
| DiscountButton.Order.AddDiscountLines | addons/pos_discount/static/src/js/DiscountButton.js:46-83 | The loop parses each group's key, computes its base and discount, and calls `add_product` for negative discounts. It appends exactly `DiscountLines` of the grouping of the lines present before the loop. |
| DiscountButton.Order.RemoveOrderline | addons/pos_discount/static/src/js/DiscountButton.js:43 | `remove_orderline` drops exactly the line object passed, keeping the order valid. |
| DiscountButton.Order.AddProduct | addons/pos_discount/static/src/js/DiscountButton.js:63-81 | `add_product` with `merge: false` appends one new line built from the options, with a fresh identity. |
| DiscountButton.RemoveStep | addons/pos_discount/static/src/js/DiscountButton.js:41-43 | Removing the next stale line by identity removes exactly that line from what is left. |
| DiscountButton.Remaining | addons/pos_discount/static/src/js/DiscountButton.js:40-43 | After the removal step a line remains if and only if it was in the order and is not of the discount product. |
| Seqs.FilterEmbeds | addons/pos_discount/static/src/js/DiscountButton.js:41-42 | The lines that survive a filter keep their original relative order: they sit at increasing positions of the original. |
| DiscountButton.DiscountOptions | addons/pos_discount/static/src/js/DiscountButton.js:55-81 | A group receives a line exactly when `(-pc/100) * base < 0`. Its price and list price both equal that amount. It carries the group's own tax ids, never merges, and is marked as priced automatically. Its description names the percentage, and says "no tax" exactly when the group has no tax ids. |
| DiscountButton.GroupGetsLineIffPositiveBase | addons/pos_discount/static/src/js/DiscountButton.js:61-62 | With a positive percentage a group receives a line if and only if its base is positive. A zero or negative base adds nothing. |
| DiscountButton.ZeroPercentAddsNothing | addons/pos_discount/static/src/js/DiscountButton.js:61-62 | A zero percentage adds no line. |
| DiscountButton.DiscountLinesShape | addons/pos_discount/static/src/js/DiscountButton.js:61-81 | Every added line has these properties: it is of the discount product, its price is strictly negative and equal to its list price, and it is marked as priced automatically. It describes the percentage and carries the tax ids of one of the groups. The added lines take consecutive identities. |
| DiscountButton.AddedLineSource | addons/pos_discount/static/src/js/DiscountButton.js:47-82 | Each added line is exactly the line built from the options of some group that receives one. |
| DiscountButton.GroupLineAdded | addons/pos_discount/static/src/js/DiscountButton.js:47-82 | The line of every group that receives one is among the added lines. |
| DiscountButton.EveryDiscountedGroupHasLine | addons/pos_discount/static/src/js/DiscountButton.js:61-66 | Every group whose discount is negative has an added line priced at that discount and carrying that group's tax ids. |
| DiscountButton.EveryLineHasDiscountedGroup | addons/pos_discount/static/src/js/DiscountButton.js:61-66 | Every added line is priced at the negative discount of some group and carries that group's tax ids. This is the converse of the previous row. |
| DiscountButton.DiscountLinesStep | addons/pos_discount/static/src/js/DiscountButton.js:47-82 | Each loop iteration adds the current group's line, or nothing, after the lines of the groups before it. Each group adds at most one line. |
| DiscountButton.DiscountLinesAppend | addons/pos_discount/static/src/js/DiscountButton.js:47-82 | The lines for consecutive runs of groups are laid end to end, each group in its own place. |
| DiscountButton.DiscountLinesCidShift | addons/pos_discount/static/src/js/DiscountButton.js:47-82 | Two runs over the same groups add the same lines except for their identities. |
| DiscountButton.IneligibleLinesIgnored | addons/pos_discount/static/src/js/DiscountButton.js:55-58 | Only lines that accept a global discount reach the base. Groups that agree on their tax ids and on their eligible lines receive the same discount lines. |
| DiscountButton.StaleDiscountsReplaced | addons/pos_discount/static/src/js/DiscountButton.js:40-47 | After a run, the discount-product lines are exactly those the run added. All other lines are the order's earlier lines of other products, in order. |
| DiscountButton.PriorDiscountsIrrelevant | addons/pos_discount/static/src/js/DiscountButton.js:40-47 | Earlier discount lines never contribute to a base. Running on the order without them gives the same result. |
| DiscountButton.ReapplyIsIdempotent | addons/pos_discount/static/src/js/DiscountButton.js:40-83 | Pressing the button twice with the same percentage replaces the discounts instead of stacking them. The second result equals the first up to the identities of the discount lines. |
| DiscountButton.AfterDiscount | addons/pos_discount/static/src/js/DiscountButton.js:26-84 | Definition of the order after a run: unchanged when the product is missing, otherwise the lines of other products followed by the discount lines of the regrouped remainder. `StaleDiscountsReplaced`, `PriorDiscountsIrrelevant` and `ReapplyIsIdempotent` state its properties. |
| DiscountButton.DiscountLines | addons/pos_discount/static/src/js/DiscountButton.js:47-83 | The loop adds at most one line per group, so never more lines than there are groups. |
| DiscountButton.GroupBase | addons/pos_discount/static/src/js/DiscountButton.js:55-58 | Definition of a group's base: the base amount for the group's tax ids, computed from its lines that accept a global discount. `IneligibleLinesIgnored` states what follows from it. |
| DiscountButton.DiscountAmount | addons/pos_discount/static/src/js/DiscountButton.js:61 | Definition of the discount `(-pc / 100) * base`. `DiscountAmountBounds` states its sign and size. |
| DiscountButton.DiscountAmountBounds | addons/pos_discount/static/src/js/DiscountButton.js:21-62 | For a clamped percentage, the discount is never positive and never larger than a non-negative base. It is negative exactly when both the percentage and the base are positive. |
| DiscountButton.NewLine | addons/pos_discount/static/src/js/DiscountButton.js:63-81 | Definition of the line `add_product` builds: the given identity and product, with price, list price, tax ids, description and the automatic-price flag taken from the options. |
| DiscountButton.DistinctGroupsDistinctLines | addons/pos_discount/static/src/js/DiscountButton.js:46-47 | When the groups are filed under distinct keys, as the entries of an object are, no two added lines carry the same tax ids: each tax signature receives at most one discount line. |
| TaxKeys.TaxKeyOfInjective | addons/pos_discount/static/src/js/DiscountButton.js:46-53 | Two tax-id lists are filed under the same key exactly when they are equal. Distinct keys and distinct tax-id lists are therefore the same condition. |
| TaxKeys.DecimalValue | addons/pos_discount/static/src/js/DiscountButton.js:53 | Definition of `Number` on a string of decimal digits. `DecimalRoundTrip` states that it inverts the rendering of a tax id. |
| DiscountButton.GroupOptionsAt | addons/pos_discount/static/src/js/DiscountButton.js:47-62 | The options computed for the groups are, entry by entry, the options of each group in order. |
| DiscountButton.GroupOptionsAppend | addons/pos_discount/static/src/js/DiscountButton.js:47-62 | The options of consecutive runs of groups are those of each run in turn. |
| DiscountButton.ChosenAppend | addons/pos_discount/static/src/js/DiscountButton.js:62-63 | The groups whose discount passes the test are selected run by run, in order. |
| DiscountButton.ChosenNone | addons/pos_discount/static/src/js/DiscountButton.js:62 | When no group passes the test, no options are selected. |
| DiscountButton.ChosenFrom | addons/pos_discount/static/src/js/DiscountButton.js:62-63 | Each selected option comes from a group that passed the test. |
| DiscountButton.ChosenHas | addons/pos_discount/static/src/js/DiscountButton.js:62-63 | Each group that passed the test has its options selected. |
| DiscountButton.LinesForAppend | addons/pos_discount/static/src/js/DiscountButton.js:47-82 | The lines for consecutive runs of options are laid end to end, the second run numbered after the first. |
| TaxKeys.ParseTaxKey | addons/pos_discount/static/src/js/DiscountButton.js:50-53 | A key made only of commas, the empty key of untaxed lines included, parses to no tax ids. |
| TaxKeys.TaxKeyOf | addons/pos_discount/static/src/js/DiscountButton.js:46-47 | A group's key is made of digits and commas, and it is empty exactly when the group has no tax ids. |
| TaxKeys.ParseTaxKeyOf | addons/pos_discount/static/src/js/DiscountButton.js:50-53 | Parsing a group's key gives back its tax ids, one per non-empty piece and in key order. The empty key gives the empty list. |
| TaxKeys.Split | addons/pos_discount/static/src/js/DiscountButton.js:51 | `split(",")` yields at least one piece, and no piece holds a comma. |
| TaxKeys.JoinSplit | addons/pos_discount/static/src/js/DiscountButton.js:51 | Joining the pieces of `split(",")` with commas restores the string. |
| TaxKeys.SplitJoin | addons/pos_discount/static/src/js/DiscountButton.js:51 | Splitting a comma-join of comma-free pieces restores the pieces. |
| TaxKeys.SplitCommas | addons/pos_discount/static/src/js/DiscountButton.js:51-52 | A string of commas alone splits into empty pieces only, which the filter drops. |
| TaxKeys.DecimalString | addons/pos_discount/static/src/js/DiscountButton.js:53 | A tax id renders as a non-empty string of decimal digits. |
| TaxKeys.DecimalRoundTrip | addons/pos_discount/static/src/js/DiscountButton.js:53 | `Number` applied to the decimal rendering of a tax id gives back the id. |
| Seqs.Filter | addons/pos_discount/static/src/js/DiscountButton.js:42 | The filtered sequence is no longer than the original. An element is in it if and only if it is in the original and passes the test. |
| Seqs.FilterAppend | addons/pos_discount/static/src/js/DiscountButton.js:42 | Filtering distributes over concatenation. |
| Seqs.FilterFilter | addons/pos_discount/static/src/js/DiscountButton.js:41-43 | Filtering twice is filtering once by the conjunction of the tests. This is how removing stale lines one by one composes. |
| Seqs.FilterKeepsAll | addons/pos_discount/static/src/js/DiscountButton.js:52 | A filter every element passes changes nothing. |
| Seqs.FilterDropsAll | addons/pos_discount/static/src/js/DiscountButton.js:52 | A filter no element passes leaves nothing. |
| Seqs.FilterExt | addons/pos_discount/static/src/js/DiscountButton.js:42 | Only the values a test takes on the sequence's own elements matter. |

## Left out

- The popups, the listener set-up, the template and the registration of the button are user-interface glue and are not modelled. The same goes for the `async`/`await` sequencing. `OnClick` takes the popup's `confirmed` flag and its parsed entry as inputs.
- `parseFloat` and IEEE-754 arithmetic are not modelled. Percentages and amounts are exact `real`s. An entry that does not parse is `None`; in the source it becomes NaN, passes through the clamp, and fails every `discount < 0` test. `OnClick` therefore only removes the discount lines for it, and skips the loop over groups, whose calls have no effect there.
- The product lookup `get_product_by_id` is an `Option<Product>` input.
- `get_orderlines_grouped_by_tax_ids`, `calculate_base_amount` and `isGlobalDiscountApplicable` are parameters (`PosContext`). Their code is not part of this model.
  - The grouping is any sequence of groups. Each group's key is the comma-join of its tax ids (`TaxGroup.Key`).
  - The order in which `Object.entries` lists the keys is whatever that sequence says.
  - The sequence is not required to have distinct keys, although the entries of an object always do. `DistinctGroupsDistinctLines` states the one-line-per-tax-signature property under that condition.
- `TaxKeys.ParseTaxKey`: requires a key of digits and commas. `Number` on other text (NaN, hexadecimal, blanks) is not modelled, because keys are always built from integer ids.
- The specification functions read a group's tax ids directly. `Order.AddDiscountLines` parses the key as the source does. `TaxKeys.ParseTaxKeyOf` proves the two agree.
- The description text is reduced to the percentage and either "no tax" or the tax ids (`DiscountNote`). Translation, `sprintf`, and the tax rates looked up through `taxes_by_id` are not modelled.
- `Order.AddProduct`: models only `merge: false`, the one mode the routine uses. The merge path of `add_product` is not modelled. Line selection and the rest of the `extras` handling are not modelled either.
- Order lines are values. Their identity is the `cid` field, so aliasing between line objects is not modelled.
