// The element damage table of element_system.py: weakness and resistance
// multipliers, the status effect an element applies, and the effectiveness
// rating that drives damage pop-ups. Elements and monster types are the
// source's strings.

module ElementSystem {
  import opened GameObjects
  import opened Config


  /** WEAKNESS_MAP, in its declaration order; an element it lacks maps to no targets. */
  const WEAKNESS_KEYS: seq<string> := ["water", "thunder", "fire", "ice"]

  function WeaknessTargets(element: string): seq<string>
  {
    if element == "water" then ["lava_monster"]
    else if element == "thunder" then ["water_monster"]
    else if element == "fire" then ["water_monster"]
    else if element == "ice" then ["tornado_monster"]
    else []
  }

  /** RESISTANCE_MAP. */
  const RESISTANCE_KEYS: seq<string> := ["fire"]

  function ResistanceTargets(element: string): seq<string>
  {
    if element == "fire" then ["lava_monster"] else []
  }

  predicate IsWeakness(element: string, target: string)
  {
    target in WeaknessTargets(element)
  }

  predicate IsResisted(element: string, target: string)
  {
    target in ResistanceTargets(element)
  }

  /** Every element that has targets is a key of its map. */
  lemma KeysCoverTables(element: string)
    ensures WeaknessTargets(element) != [] ==> element in WEAKNESS_KEYS
    ensures ResistanceTargets(element) != [] ==> element in RESISTANCE_KEYS
  {
  }

  /** calculate_damage: the weakness, resistance or fire-versus-water multiplier, then at least 1. */
  function CalculateDamage(baseDamage: int, element: string, target: string): (d: int)
    ensures d >= 1
    ensures IsWeakness(element, target) ==>
      d == (var w := Trunc(baseDamage as real * WEAKNESS_MULTIPLIER); if w >= 1 then w else 1)
    ensures !IsWeakness(element, target) && IsResisted(element, target) ==>
      d == (var w := Trunc(baseDamage as real * RESISTANCE_MULTIPLIER); if w >= 1 then w else 1)
    ensures !IsWeakness(element, target) && !IsResisted(element, target) ==>
      d == if baseDamage >= 1 then baseDamage else 1
  {
    var finalDamage :=
      if IsWeakness(element, target) then Trunc(baseDamage as real * WEAKNESS_MULTIPLIER)
      else if IsResisted(element, target) then Trunc(baseDamage as real * RESISTANCE_MULTIPLIER)
      else if element == "fire" && target == "water_monster" then Trunc(baseDamage as real * 1.5)
      else baseDamage;
    if finalDamage >= 1 then finalDamage else 1
  }

  /** A weakness hit on a positive base doubles it; a resisted hit halves it, rounding toward zero. */
  lemma WeaknessDoubles(baseDamage: int, element: string, target: string)
    requires baseDamage >= 1
    ensures IsWeakness(element, target) ==> CalculateDamage(baseDamage, element, target) == 2 * baseDamage
    ensures !IsWeakness(element, target) && IsResisted(element, target) ==>
      CalculateDamage(baseDamage, element, target) == if baseDamage >= 2 then baseDamage / 2 else 1
  {
    var h := baseDamage as real * RESISTANCE_MULTIPLIER;
    assert Trunc(h) == baseDamage / 2 by {
      var q := baseDamage / 2;
      assert baseDamage == 2 * q || baseDamage == 2 * q + 1;
      assert q as real <= h < q as real + 1.0;
    }
  }

  /** Fire is already a weakness of water_monster, so the x1.5 branch never decides the damage. */
  lemma FireBonusUnreachable(baseDamage: int)
    ensures IsWeakness("fire", "water_monster")
    ensures CalculateDamage(baseDamage, "fire", "water_monster")
         == (var w := Trunc(baseDamage as real * 2.0); if w >= 1 then w else 1)
  {
  }

  /** The dictionary returned by get_status_effect. */
  datatype EffectInfo = EffectInfo(kind: EffectKind, duration: real, intensity: real)

  /** get_status_effect: ice slows, thunder paralyses, with stronger effects on their enhanced target. */
  function GetStatusEffect(element: string, target: string): (r: Option<EffectInfo>)
    ensures r.None? <==> element != "ice" && element != "thunder"
    ensures element == "ice" ==> r == Some(
      if target == "tornado_monster" then EffectInfo(Slow, SLOW_EFFECT_DURATION * 1.5, 0.8)
      else EffectInfo(Slow, SLOW_EFFECT_DURATION, 0.5))
    ensures element == "thunder" ==> r == Some(
      if target == "water_monster" then EffectInfo(Paralysis, PARALYSIS_EFFECT_DURATION * 1.2, 1.0)
      else EffectInfo(Paralysis, PARALYSIS_EFFECT_DURATION, 1.0))
    ensures r.Some? ==> 0.0 <= r.value.intensity <= 1.0 && r.value.duration > 0.0
  {
    if element == "ice" then
      var enhanced := target in ["tornado_monster"];
      Some(EffectInfo(Slow,
                      if enhanced then SLOW_EFFECT_DURATION * 1.5 else SLOW_EFFECT_DURATION,
                      if enhanced then 0.8 else 0.5))
    else if element == "thunder" then
      var enhanced := target in ["water_monster"];
      Some(EffectInfo(Paralysis,
                      if enhanced then PARALYSIS_EFFECT_DURATION * 1.2 else PARALYSIS_EFFECT_DURATION,
                      1.0))
    else None
  }

  const WEAK_TEXT: string := "弱點攻擊!"
  const RESISTED_TEXT: string := "抗性傷害"
  const BONUS_TEXT: string := "額外傷害"
  const NORMAL_TEXT: string := "普通傷害"

  /** get_damage_type_description: the same three-way test as calculate_damage. */
  function DamageTypeDescription(element: string, target: string): (s: string)
    ensures s == WEAK_TEXT <==> IsWeakness(element, target)
    ensures s == RESISTED_TEXT <==> !IsWeakness(element, target) && IsResisted(element, target)
    ensures s != BONUS_TEXT
  {
    if IsWeakness(element, target) then WEAK_TEXT
    else if IsResisted(element, target) then RESISTED_TEXT
    else if element == "fire" && target == "water_monster" then BONUS_TEXT
    else NORMAL_TEXT
  }

  /** The keys of `keys` whose target list (weakness or resistance table) contains `target`, in order. */
  function KeysListing(keys: seq<string>, target: string, weakness: bool): (r: seq<string>)
    ensures forall e :: e in r <==>
      e in keys && target in (if weakness then WeaknessTargets(e) else ResistanceTargets(e))
    ensures |r| <= |keys|
  {
    if keys == [] then []
    else
      var targets := if weakness then WeaknessTargets(keys[0]) else ResistanceTargets(keys[0]);
      (if target in targets then [keys[0]] else []) + KeysListing(keys[1..], target, weakness)
  }

  /** get_monster_weakness. */
  function MonsterWeakness(target: string): seq<string>
  {
    KeysListing(WEAKNESS_KEYS, target, true)
  }

  /** get_monster_resistance. */
  function MonsterResistance(target: string): seq<string>
  {
    KeysListing(RESISTANCE_KEYS, target, false)
  }

  /** get_effectiveness_rating: 3 weakness, 0 resistance, 2 fire against water, else 1. */
  function EffectivenessRating(element: string, target: string): (rating: int)
    ensures rating == 3 <==> IsWeakness(element, target)
    ensures rating == 0 <==> !IsWeakness(element, target) && IsResisted(element, target)
    ensures rating in {0, 1, 3}
  {
    if IsWeakness(element, target) then 3
    else if IsResisted(element, target) then 0
    else if element == "fire" && target == "water_monster" then 2
    else 1
  }

  /** An element is listed as a weakness of a monster exactly when its rating is 3. */
  lemma WeaknessMatchesRating(element: string, target: string)
    ensures element in MonsterWeakness(target) <==> EffectivenessRating(element, target) == 3
  {
    KeysCoverTables(element);
  }

  /** An element is listed as a resistance of a monster exactly when RESISTANCE_MAP says so. */
  lemma ResistanceMatchesTable(element: string, target: string)
    ensures element in MonsterResistance(target) <==> target in ResistanceTargets(element)
  {
    KeysCoverTables(element);
  }

  /** The dictionary of create_damage_popup_info. */
  datatype PopupInfo = PopupInfo(damage: int, color: Color, sizeMultiplier: real, description: string)

  function PopupStyle(rating: int): (Color, real)
  {
    if rating == 3 then (YELLOW, 1.5)
    else if rating == 2 then (GREEN, 1.2)
    else if rating == 0 then (GRAY, 0.8)
    else (WHITE, 1.0)
  }

  /** create_damage_popup_info. */
  function DamagePopupInfo(baseDamage: int, element: string, target: string): (p: PopupInfo)
    ensures p.damage == CalculateDamage(baseDamage, element, target) && p.damage >= 1
    ensures p.description == DamageTypeDescription(element, target)
    ensures IsWeakness(element, target) ==> p.color == YELLOW && p.sizeMultiplier == 1.5
    ensures !IsWeakness(element, target) && IsResisted(element, target) ==>
      p.color == GRAY && p.sizeMultiplier == 0.8
    ensures !IsWeakness(element, target) && !IsResisted(element, target) ==>
      p.color == WHITE && p.sizeMultiplier == 1.0
  {
    var style := PopupStyle(EffectivenessRating(element, target));
    PopupInfo(CalculateDamage(baseDamage, element, target), style.0, style.1,
              DamageTypeDescription(element, target))
  }

  /** Colour and size depend on the rating alone: equal ratings give equal styles. */
  lemma PopupStyleByRating(b1: int, e1: string, t1: string, b2: int, e2: string, t2: string)
    requires EffectivenessRating(e1, t1) == EffectivenessRating(e2, t2)
    ensures DamagePopupInfo(b1, e1, t1).color == DamagePopupInfo(b2, e2, t2).color
    ensures DamagePopupInfo(b1, e1, t1).sizeMultiplier == DamagePopupInfo(b2, e2, t2).sizeMultiplier
  {
  }
}
