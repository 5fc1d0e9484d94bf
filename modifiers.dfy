/** The modifier picker (`ModifierModal`): for one product, the chosen
    modifiers of each of its modifier groups, kept as a set of modifier ids
    per group id, the toggle that respects the group's `max_select`, the
    `min_select` check on required groups, and the list of chosen modifiers
    handed back to the cart. */
module Modifiers {
  import opened Wrappers

  /** A modifier; `price_override` is None when the column holds no number. */
  datatype Modifier = Modifier(id: string, name: string, priceOverride: Option<int>)

  datatype ModifierGroup = ModifierGroup(name: string, minSelect: int, maxSelect: int, isRequired: bool,
                                         modifiers: seq<Modifier>)

  /** One entry of the product's `modifier_groups`: the group's id and the group. */
  datatype ProductGroup = ProductGroup(groupId: string, group: ModifierGroup)

  /** A `CartItemModifier`. */
  datatype ChosenModifier = ChosenModifier(modifierId: string, name: string, priceOverride: int)

  type Selections = map<string, set<string>>

  function GroupIds(groups: seq<ProductGroup>): set<string> {
    set k | 0 <= k < |groups| :: groups[k].groupId
  }

  /** `selections[groupId] ?? new Set()` */
  function Selected(sel: Selections, groupId: string): set<string> {
    if groupId in sel then sel[groupId] else {}
  }

  /** One group's selection after a click on a modifier: a selected
      modifier is dropped; otherwise it is taken when the group has room,
      a group with `max_select` 1 first giving up its previous choice. */
  function Toggled(g: set<string>, modifierId: string, maxSelect: int): (r: set<string>)
    ensures modifierId in r <==> modifierId !in g && (maxSelect == 1 || |g| < maxSelect)
    ensures forall x | x != modifierId :: x in r <==> x in g && (modifierId in g || maxSelect != 1)
    ensures |g| <= maxSelect ==> |r| <= maxSelect
  {
    if modifierId in g then g - {modifierId}
    else
      var kept := if maxSelect == 1 then {} else g;
      if |kept| < maxSelect then kept + {modifierId} else kept
  }

  /** Clicking a modifier that was just taken gives the group back its
      former selection, unless taking it replaced a single choice. */
  lemma ToggleTwice(g: set<string>, modifierId: string, maxSelect: int)
    requires modifierId !in g && maxSelect != 1 && |g| < maxSelect
    ensures Toggled(Toggled(g, modifierId, maxSelect), modifierId, maxSelect) == g
  {
    assert Toggled(g, modifierId, maxSelect) == g + {modifierId};
  }

  /** A required group is satisfied by at least `min_select` choices; a
      group that is not required is always satisfied. */
  predicate GroupSatisfied(pg: ProductGroup, sel: Selections) {
    !pg.group.isRequired || |Selected(sel, pg.groupId)| >= pg.group.minSelect
  }

  predicate ValidSelection(groups: seq<ProductGroup>, sel: Selections) {
    forall k | 0 <= k < |groups| :: GroupSatisfied(groups[k], sel)
  }

  /** A product none of whose groups is required accepts any selection. */
  lemma OptionalGroupsNeverBlock(groups: seq<ProductGroup>, sel: Selections)
    requires forall k | 0 <= k < |groups| :: !groups[k].group.isRequired
    ensures ValidSelection(groups, sel)
  {
  }

  /** A selection is refused exactly when some required group holds fewer
      than its `min_select` choices. */
  lemma InvalidIffShortRequiredGroup(groups: seq<ProductGroup>, sel: Selections)
    ensures !ValidSelection(groups, sel) <==>
      exists k | 0 <= k < |groups| :: groups[k].group.isRequired && |Selected(sel, groups[k].groupId)| < groups[k].group.minSelect
  {
  }

  /** With nothing chosen yet, the selection is valid exactly when no
      required group asks for a choice. */
  lemma InitialValidity(groups: seq<ProductGroup>, sel: Selections)
    requires forall id | id in sel :: sel[id] == {}
    ensures ValidSelection(groups, sel) <==>
      forall k | 0 <= k < |groups| :: groups[k].group.isRequired ==> groups[k].group.minSelect <= 0
  {
    assert forall k | 0 <= k < |groups| :: |Selected(sel, groups[k].groupId)| == 0;
  }

  function ModifierIds(mods: seq<Modifier>): set<string> {
    set k | 0 <= k < |mods| :: mods[k].id
  }

  predicate DistinctGroupIds(groups: seq<ProductGroup>) {
    forall i, j | 0 <= i < j < |groups| :: groups[i].groupId != groups[j].groupId
  }

  /** What the picker keeps true: a group with a non-negative `max_select`
      never holds more choices than that, and holds only its own
      modifiers. */
  predicate Consistent(groups: seq<ProductGroup>, sel: Selections) {
    forall k | 0 <= k < |groups| ::
      && (groups[k].group.maxSelect >= 0 ==> |Selected(sel, groups[k].groupId)| <= groups[k].group.maxSelect)
      && Selected(sel, groups[k].groupId) <= ModifierIds(groups[k].group.modifiers)
  }

  /** Clicking one of a group's own modifiers, with the group's own
      `max_select`, keeps the picker consistent. */
  lemma ToggleKeepsConsistent(groups: seq<ProductGroup>, sel: Selections, i: nat, j: nat)
    requires DistinctGroupIds(groups) && Consistent(groups, sel)
    requires i < |groups| && j < |groups[i].group.modifiers|
    ensures var pg := groups[i];
      Consistent(groups, sel[pg.groupId := Toggled(Selected(sel, pg.groupId), pg.group.modifiers[j].id, pg.group.maxSelect)])
  {
    var pg := groups[i];
    var m := pg.group.modifiers[j].id;
    var sel' := sel[pg.groupId := Toggled(Selected(sel, pg.groupId), m, pg.group.maxSelect)];
    assert m in ModifierIds(pg.group.modifiers);
    forall k | 0 <= k < |groups|
      ensures groups[k].group.maxSelect >= 0 ==> |Selected(sel', groups[k].groupId)| <= groups[k].group.maxSelect
      ensures Selected(sel', groups[k].groupId) <= ModifierIds(groups[k].group.modifiers)
    {
      if k != i {
        assert groups[k].groupId != pg.groupId;
      }
    }
  }

  /** `ChosenModifier` of a modifier: a missing price override counts 0. */
  function Entry(m: Modifier): ChosenModifier {
    ChosenModifier(m.id, m.name, m.priceOverride.GetOr(0))
  }

  /** The chosen modifiers of one group, in the group's modifier order. */
  function ChosenIn(mods: seq<Modifier>, ids: set<string>): (r: seq<ChosenModifier>)
    ensures |r| <= |mods|
    ensures forall j | 0 <= j < |r| :: r[j].modifierId in ids
    ensures ids == {} ==> r == []
  {
    if |mods| == 0 then []
    else
      var last := mods[|mods| - 1];
      var prev := ChosenIn(mods[..|mods| - 1], ids);
      if last.id in ids then prev + [Entry(last)] else prev
  }

  /** The chosen modifiers, group after group. */
  function Chosen(groups: seq<ProductGroup>, sel: Selections): seq<ChosenModifier>
  {
    if |groups| == 0 then []
    else
      var last := groups[|groups| - 1];
      Chosen(groups[..|groups| - 1], sel) + ChosenIn(last.group.modifiers, Selected(sel, last.groupId))
  }

  /** A group's output is exactly its selected modifiers: each selected
      modifier is emitted, and each emitted entry is a selected modifier,
      its price override defaulting to 0. */
  lemma {:induction false} ChosenInExactly(mods: seq<Modifier>, ids: set<string>)
    ensures forall k | 0 <= k < |mods| && mods[k].id in ids :: Entry(mods[k]) in ChosenIn(mods, ids)
    ensures forall c | c in ChosenIn(mods, ids) ::
      exists k | 0 <= k < |mods| :: mods[k].id in ids && c == Entry(mods[k])
  {
    if |mods| > 0 {
      var init := mods[..|mods| - 1];
      ChosenInExactly(init, ids);
      forall k | 0 <= k < |mods| - 1
        ensures mods[k] == init[k]
      {
      }
    }
  }

  /** When every modifier of a group is selected, the group's output lists
      them all, one entry per modifier, in the group's order. */
  lemma {:induction false} ChosenInAll(mods: seq<Modifier>, ids: set<string>)
    requires forall k | 0 <= k < |mods| :: mods[k].id in ids
    ensures |ChosenIn(mods, ids)| == |mods|
    ensures forall k | 0 <= k < |mods| :: ChosenIn(mods, ids)[k] == Entry(mods[k])
  {
    if |mods| > 0 {
      ChosenInAll(mods[..|mods| - 1], ids);
    }
  }

  /** One more modifier of a group: its entry is added when it is selected. */
  lemma ChosenInStep(before: seq<ChosenModifier>, mods: seq<Modifier>, ids: set<string>, j: nat)
    requires j < |mods|
    ensures mods[j].id in ids ==>
      (before + ChosenIn(mods[..j], ids)) + [Entry(mods[j])] == before + ChosenIn(mods[..j + 1], ids)
    ensures mods[j].id !in ids ==> before + ChosenIn(mods[..j], ids) == before + ChosenIn(mods[..j + 1], ids)
  {
    assert mods[..j + 1][..j] == mods[..j];
  }

  /** One more group: its chosen modifiers follow those of the earlier groups. */
  lemma ChosenStep(groups: seq<ProductGroup>, sel: Selections, i: nat)
    requires i < |groups|
    ensures Chosen(groups[..i + 1], sel)
      == Chosen(groups[..i], sel) + ChosenIn(groups[i].group.modifiers, Selected(sel, groups[i].groupId))
  {
    assert groups[..i + 1][..i] == groups[..i];
  }

  /** The output lists the first groups' modifiers before the later
      groups'. */
  lemma {:induction false} ChosenAppend(g1: seq<ProductGroup>, g2: seq<ProductGroup>, sel: Selections)
    ensures Chosen(g1 + g2, sel) == Chosen(g1, sel) + Chosen(g2, sel)
    decreases |g2|
  {
    if |g2| == 0 {
      assert g1 + g2 == g1;
    } else {
      var init := g2[..|g2| - 1];
      assert (g1 + g2)[..|g1 + g2| - 1] == g1 + init;
      ChosenAppend(g1, init, sel);
    }
  }

  /** With no modifier selected in any group, nothing is handed back. */
  lemma {:induction false} NothingSelectedChoosesNothing(groups: seq<ProductGroup>, sel: Selections)
    requires forall id | id in sel :: sel[id] == {}
    ensures Chosen(groups, sel) == []
  {
    if |groups| > 0 {
      NothingSelectedChoosesNothing(groups[..|groups| - 1], sel);
    }
  }

  /** The modal's state for one product. */
  class ModifierPicker {
    const groups: seq<ProductGroup>
    var selections: Selections

    /** Every group of the product starts with an empty selection. */
    constructor (groups: seq<ProductGroup>)
      ensures this.groups == groups
      ensures selections.Keys == GroupIds(groups)
      ensures forall id | id in selections :: selections[id] == {}
    {
      this.groups := groups;
      var init: Selections := map[];
      for i := 0 to |groups|
        invariant init.Keys == GroupIds(groups[..i])
        invariant forall id | id in init :: init[id] == {}
      {
        assert GroupIds(groups[..i + 1]) == GroupIds(groups[..i]) + {groups[i].groupId} by {
          assert forall k | 0 <= k < i :: groups[..i + 1][k] == groups[..i][k];
        }
        init := init[groups[i].groupId := {}];
      }
      assert groups[..|groups|] == groups;
      selections := init;
    }

    /** `toggleModifier`: only the named group's selection changes. */
    method Toggle(groupId: string, modifierId: string, maxSelect: int)
      modifies this
      ensures selections == old(selections)[groupId := Toggled(Selected(old(selections), groupId), modifierId, maxSelect)]
      ensures forall id | id != groupId :: Selected(selections, id) == Selected(old(selections), id)
    {
      var groupSet := Selected(selections, groupId);
      ghost var g := groupSet;
      if modifierId in groupSet {
        groupSet := groupSet - {modifierId};
      } else {
        if maxSelect == 1 {
          groupSet := {};
        }
        if |groupSet| < maxSelect {
          groupSet := groupSet + {modifierId};
        }
      }
      assert groupSet == Toggled(g, modifierId, maxSelect);
      selections := selections[groupId := groupSet];
    }

    /** `isValid`: the groups are checked in order and the first required
        group that is short of choices refuses the selection. */
    method IsValid() returns (ok: bool)
      ensures ok <==> ValidSelection(groups, selections)
    {
      for i := 0 to |groups|
        invariant forall k | 0 <= k < i :: GroupSatisfied(groups[k], selections)
      {
        var mg := groups[i].group;
        var selected := |Selected(selections, groups[i].groupId)|;
        if mg.isRequired && selected < mg.minSelect {
          return false;
        }
      }
      return true;
    }

    /** `handleConfirm`: the selected modifiers, group by group and in each
        group in its modifier order. */
    method Confirm() returns (modifiers: seq<ChosenModifier>)
      ensures modifiers == Chosen(groups, selections)
    {
      modifiers := [];
      for i := 0 to |groups|
        invariant modifiers == Chosen(groups[..i], selections)
      {
        var selectedIds := Selected(selections, groups[i].groupId);
        var mods := groups[i].group.modifiers;
        ghost var before := modifiers;
        for j := 0 to |mods|
          invariant modifiers == before + ChosenIn(mods[..j], selectedIds)
        {
          ChosenInStep(before, mods, selectedIds, j);
          if mods[j].id in selectedIds {
            modifiers := modifiers + [Entry(mods[j])];
          }
        }
        assert mods[..|mods|] == mods;
        ChosenStep(groups, selections, i);
      }
      assert groups[..|groups|] == groups;
    }
  }
}
