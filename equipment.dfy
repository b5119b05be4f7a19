/** Equipment items, the four optional slots a character holds them in, and
    the sums that collapse the equipped set into scalar bonuses. */
module Equipments {

  /** The "principle" a spell draws on; `None` is the default of an item that
      strengthens no principle. */
  datatype PrincipleType =
    | None
    | ThermalControl
    | KineticControl
    | StructuralControl
    | ElectromagneticControl

  datatype EquipmentType = Staff | Robe | Ring | Brooch

  /** An immutable bundle of modifiers. All fractions are unclamped. */
  datatype Equipment = Equipment(
    equipmentID: string,
    equipmentName: string,
    kind: EquipmentType,
    damageReduction: real,
    mpRegenBonus: real,
    rangeBonus: real,
    targetPrinciple: PrincipleType,
    principleDamageBonus: real)

  /** An equipment slot: the null reference of the game becomes `Empty`. */
  datatype Slot = Empty | Equipped(item: Equipment)

  /** The item of one slot, as a list of zero or one items. */
  function Keep(slot: Slot): (r: seq<Equipment>)
    ensures |r| <= 1
  {
    if slot.Equipped? then [slot.item] else []
  }

  /** The items held by `slots`, in slot order, skipping empty slots. */
  function Present(slots: seq<Slot>): (r: seq<Equipment>)
    ensures |r| <= |slots|
  {
    if slots == [] then [] else Keep(slots[0]) + Present(slots[1..])
  }

  /** Collecting a list that starts with `x` keeps `x`'s item, then the rest. */
  lemma PresentCons(x: Slot, rest: seq<Slot>)
    ensures Present([x] + rest) == Keep(x) + Present(rest)
  {
    assert ([x] + rest)[0] == x;
    assert ([x] + rest)[1..] == rest;
  }

  /** For four slots, the collected items are each slot's item in turn. */
  lemma PresentOfFour(a: Slot, b: Slot, c: Slot, d: Slot)
    ensures Present([a, b, c, d]) == Keep(a) + Keep(b) + Keep(c) + Keep(d)
  {
    assert [a, b, c, d] == [a] + ([b] + ([c] + ([d] + [])));
    PresentCons(a, [b] + ([c] + ([d] + [])));
    PresentCons(b, [c] + ([d] + []));
    PresentCons(c, [d] + []);
    PresentCons(d, []);
    assert Keep(d) + [] == Keep(d);
    ConcatAssociative(Keep(a), Keep(b), Keep(c) + Keep(d));
    ConcatAssociative(Keep(a) + Keep(b), Keep(c), Keep(d));
  }

  lemma ConcatAssociative(x: seq<Equipment>, y: seq<Equipment>, z: seq<Equipment>)
    ensures x + (y + z) == x + y + z
  {
  }

  /** An item is collected exactly when some slot holds it. */
  lemma {:induction false} PresentMembership(slots: seq<Slot>, e: Equipment)
    ensures e in Present(slots) <==> Equipped(e) in slots
  {
    if slots != [] {
      PresentMembership(slots[1..], e);
      assert slots == [slots[0]] + slots[1..];
    }
  }

  /** What one slot adds to a sum of `f`: nothing when it is empty. */
  function Contribution(slot: Slot, f: Equipment -> real): real {
    if slot.Equipped? then f(slot.item) else 0.0
  }

  /** The sum of `f` over `items`, left to right. */
  function Sum(items: seq<Equipment>, f: Equipment -> real): real {
    if items == [] then 0.0 else f(items[0]) + Sum(items[1..], f)
  }

  lemma {:induction false} SumAppend(a: seq<Equipment>, b: seq<Equipment>, f: Equipment -> real)
    ensures Sum(a + b, f) == Sum(a, f) + Sum(b, f)
  {
    if a != [] {
      assert (a + b)[0] == a[0];
      assert (a + b)[1..] == a[1..] + b;
      SumAppend(a[1..], b, f);
    } else {
      assert a + b == b;
    }
  }

  /** The sum over the items of `slots` is the sum of the slots' contributions. */
  lemma {:induction false} SumOverSlots(slots: seq<Slot>, f: Equipment -> real)
    ensures Sum(Present(slots), f) == SlotTotal(slots, f)
  {
    if slots != [] {
      SumAppend(Keep(slots[0]), Present(slots[1..]), f);
      SumOverSlots(slots[1..], f);
    }
  }

  function SlotTotal(slots: seq<Slot>, f: Equipment -> real): real {
    if slots == [] then 0.0 else Contribution(slots[0], f) + SlotTotal(slots[1..], f)
  }

  /** The total of `f` over four slots, one contribution per slot. */
  function FourSlotSum(a: Slot, b: Slot, c: Slot, d: Slot, f: Equipment -> real): real {
    Contribution(a, f) + Contribution(b, f) + Contribution(c, f) + Contribution(d, f)
  }

  /** A multiplier that starts at 1 and gains, additively, the four slots'
      contributions of `f`. */
  function SlotMultiplier(a: Slot, b: Slot, c: Slot, d: Slot, f: Equipment -> real): real {
    1.0 + FourSlotSum(a, b, c, d, f)
  }

  /** Four slots in the order staff, robe, ring, brooch: the sum over the
      collected items is the sum of the four contributions, each equipped item
      counted once and each empty slot adding nothing. */
  lemma FourSlotTotal(staff: Slot, robe: Slot, ring: Slot, brooch: Slot, f: Equipment -> real)
    ensures Sum(Present([staff, robe, ring, brooch]), f) == FourSlotSum(staff, robe, ring, brooch, f)
  {
    var s := [staff, robe, ring, brooch];
    SumOverSlots(s, f);
    assert s[1..] == [robe, ring, brooch];
    assert s[1..][1..] == [ring, brooch];
    assert s[1..][1..][1..] == [brooch];
    assert SlotTotal([brooch], f) == Contribution(brooch, f) + SlotTotal([], f);
    assert SlotTotal([ring, brooch], f) == Contribution(ring, f) + SlotTotal([brooch], f);
    assert SlotTotal([robe, ring, brooch], f) == Contribution(robe, f) + SlotTotal([ring, brooch], f);
  }

  function DamageReductionOf(e: Equipment): real { e.damageReduction }
  function MpRegenBonusOf(e: Equipment): real { e.mpRegenBonus }
  function RangeBonusOf(e: Equipment): real { e.rangeBonus }

  /** The principle-gated damage bonus: an item adds its bonus only when its
      target principle is listed among the spell's principles (a plain list
      membership test, so an item targeting `None` matches a spell that lists
      `None`). */
  function GatedBonus(principles: seq<PrincipleType>): (f: Equipment -> real)
    ensures forall e: Equipment :: e.targetPrinciple in principles ==> f(e) == e.principleDamageBonus
    ensures forall e: Equipment :: e.targetPrinciple !in principles ==> f(e) == 0.0
  {
    (e: Equipment) => if e.targetPrinciple in principles then e.principleDamageBonus else 0.0
  }

  /** Extending a list by one item adds that item's value to the sum. */
  lemma SumSnoc(items: seq<Equipment>, e: Equipment, f: Equipment -> real)
    ensures Sum(items + [e], f) == Sum(items, f) + f(e)
  {
    SumAppend(items, [e], f);
    assert Sum([e], f) == f(e) + Sum([], f);
  }

  /** Adding one item to a list raises the principle-gated total by the item's
      bonus when its target principle is listed, and by nothing otherwise. */
  lemma GatedSnoc(items: seq<Equipment>, e: Equipment, principles: seq<PrincipleType>)
    ensures e.targetPrinciple in principles ==>
              Sum(items + [e], GatedBonus(principles)) == Sum(items, GatedBonus(principles)) + e.principleDamageBonus
    ensures e.targetPrinciple !in principles ==>
              Sum(items + [e], GatedBonus(principles)) == Sum(items, GatedBonus(principles))
  {
    SumSnoc(items, e, GatedBonus(principles));
  }

  /** If no item's target is listed, the gated bonus of the whole set is zero. */
  lemma {:induction false} NoMatchNoBonus(items: seq<Equipment>, principles: seq<PrincipleType>)
    requires forall i :: 0 <= i < |items| ==> items[i].targetPrinciple !in principles
    ensures Sum(items, GatedBonus(principles)) == 0.0
  {
    if items != [] {
      NoMatchNoBonus(items[1..], principles);
    }
  }
}
