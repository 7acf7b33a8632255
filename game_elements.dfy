/**
 * The games module's element types (`GameElementType`): sixty-one kinds of
 * HUD, character, object, world, effect, text, special and standard UI
 * elements, each with a recommended scaling strategy, a game-specific flag
 * and a display category.
 */
module GameElements {
  import opened Screens

  datatype GameElementType =
    // UI & HUD
    | HUD_BUTTON | HUD_ICON | HUD_TEXT | HUD_CONTAINER | HUD_BAR | HUD_MINIMAP | HUD_CROSSHAIR
    | MENU | DIALOG | TOOLTIP | INVENTORY | ABILITY_PANEL
    // Characters
    | PLAYER | ENEMY | BOSS | NPC | COMPANION | VEHICLE
    // Game objects
    | ITEM | WEAPON | PROJECTILE | OBSTACLE | INTERACTIVE_OBJECT | DESTRUCTIBLE | PICKUP | TRAP
    // World
    | BACKGROUND | PARALLAX_LAYER | TERRAIN | PLATFORM | WORLD_OBJECT | BUILDING
    // Effects
    | PARTICLE | VISUAL_EFFECT | ANIMATION | LIGHT_EFFECT
    // Text
    | DIALOGUE | CAPTION | FLOATING_TEXT | QUEST_TEXT | LORE_TEXT
    // Special
    | CAMERA_BOUNDS | TRIGGER_ZONE | DEBUG_ELEMENT | GENERIC
    // Standard UI
    | BUTTON | TEXT | ICON | CONTAINER | SPACING | CARD | FAB | CHIP | LIST_ITEM
    | IMAGE | BADGE | DIVIDER | NAVIGATION | INPUT | HEADER | TOOLBAR

  /** The element type with a given ordinal: the inverse of `Ordinal`. */
  function FromOrdinal(n: int): GameElementType
    requires 0 <= n < 61
  {
    match n
    case 0 => HUD_BUTTON
    case 1 => HUD_ICON
    case 2 => HUD_TEXT
    case 3 => HUD_CONTAINER
    case 4 => HUD_BAR
    case 5 => HUD_MINIMAP
    case 6 => HUD_CROSSHAIR
    case 7 => MENU
    case 8 => DIALOG
    case 9 => TOOLTIP
    case 10 => INVENTORY
    case 11 => ABILITY_PANEL
    case 12 => PLAYER
    case 13 => ENEMY
    case 14 => BOSS
    case 15 => NPC
    case 16 => COMPANION
    case 17 => VEHICLE
    case 18 => ITEM
    case 19 => WEAPON
    case 20 => PROJECTILE
    case 21 => OBSTACLE
    case 22 => INTERACTIVE_OBJECT
    case 23 => DESTRUCTIBLE
    case 24 => PICKUP
    case 25 => TRAP
    case 26 => BACKGROUND
    case 27 => PARALLAX_LAYER
    case 28 => TERRAIN
    case 29 => PLATFORM
    case 30 => WORLD_OBJECT
    case 31 => BUILDING
    case 32 => PARTICLE
    case 33 => VISUAL_EFFECT
    case 34 => ANIMATION
    case 35 => LIGHT_EFFECT
    case 36 => DIALOGUE
    case 37 => CAPTION
    case 38 => FLOATING_TEXT
    case 39 => QUEST_TEXT
    case 40 => LORE_TEXT
    case 41 => CAMERA_BOUNDS
    case 42 => TRIGGER_ZONE
    case 43 => DEBUG_ELEMENT
    case 44 => GENERIC
    case 45 => BUTTON
    case 46 => TEXT
    case 47 => ICON
    case 48 => CONTAINER
    case 49 => SPACING
    case 50 => CARD
    case 51 => FAB
    case 52 => CHIP
    case 53 => LIST_ITEM
    case 54 => IMAGE
    case 55 => BADGE
    case 56 => DIVIDER
    case 57 => NAVIGATION
    case 58 => INPUT
    case 59 => HEADER
    case _ => TOOLBAR
  }

  /** `ordinal`: the position in declaration order (the cache key hashes it). */
  function Ordinal(e: GameElementType): (n: int)
    ensures 0 <= n < 61
    ensures FromOrdinal(n) == e
  {
    match e
    case HUD_BUTTON => 0 case HUD_ICON => 1 case HUD_TEXT => 2 case HUD_CONTAINER => 3
    case HUD_BAR => 4 case HUD_MINIMAP => 5 case HUD_CROSSHAIR => 6 case MENU => 7
    case DIALOG => 8 case TOOLTIP => 9 case INVENTORY => 10 case ABILITY_PANEL => 11
    case PLAYER => 12 case ENEMY => 13 case BOSS => 14 case NPC => 15
    case COMPANION => 16 case VEHICLE => 17 case ITEM => 18 case WEAPON => 19
    case PROJECTILE => 20 case OBSTACLE => 21 case INTERACTIVE_OBJECT => 22 case DESTRUCTIBLE => 23
    case PICKUP => 24 case TRAP => 25 case BACKGROUND => 26 case PARALLAX_LAYER => 27
    case TERRAIN => 28 case PLATFORM => 29 case WORLD_OBJECT => 30 case BUILDING => 31
    case PARTICLE => 32 case VISUAL_EFFECT => 33 case ANIMATION => 34 case LIGHT_EFFECT => 35
    case DIALOGUE => 36 case CAPTION => 37 case FLOATING_TEXT => 38 case QUEST_TEXT => 39
    case LORE_TEXT => 40 case CAMERA_BOUNDS => 41 case TRIGGER_ZONE => 42 case DEBUG_ELEMENT => 43
    case GENERIC => 44 case BUTTON => 45 case TEXT => 46 case ICON => 47
    case CONTAINER => 48 case SPACING => 49 case CARD => 50 case FAB => 51
    case CHIP => 52 case LIST_ITEM => 53 case IMAGE => 54 case BADGE => 55
    case DIVIDER => 56 case NAVIGATION => 57 case INPUT => 58 case HEADER => 59
    case TOOLBAR => 60
  }

  /** Different element types have different ordinals. */
  lemma OrdinalInjective(a: GameElementType, b: GameElementType)
    ensures Ordinal(a) == Ordinal(b) ==> a == b
  {
    var _ := Ordinal(a);
    var _ := Ordinal(b);
  }

  /**
   * `getRecommendedStrategy`: the table of recommendations.  It only ever
   * recommends six of the thirteen strategies.  (HUD_TEXT is listed twice in
   * the source; the first listing, FLUID, is the one that applies, and the
   * second agrees with it.)
   */
  function GetRecommendedStrategy(e: GameElementType): (s: ScalingStrategy)
    ensures s in {DEFAULT, PERCENTAGE, BALANCED, FLUID, FILL, NONE}
  {
    match e
    case HUD_BUTTON => DEFAULT
    case HUD_ICON => DEFAULT
    case HUD_BAR => DEFAULT
    case HUD_CROSSHAIR => DEFAULT
    case HUD_TEXT => FLUID
    case HUD_MINIMAP => FLUID
    case HUD_CONTAINER => PERCENTAGE
    case INVENTORY => PERCENTAGE
    case ABILITY_PANEL => PERCENTAGE
    case MENU => BALANCED
    case DIALOG => BALANCED
    case TOOLTIP => BALANCED
    case PLAYER => BALANCED
    case ENEMY => BALANCED
    case BOSS => BALANCED
    case NPC => BALANCED
    case COMPANION => BALANCED
    case VEHICLE => BALANCED
    case ITEM => BALANCED
    case WEAPON => BALANCED
    case PROJECTILE => BALANCED
    case OBSTACLE => BALANCED
    case INTERACTIVE_OBJECT => BALANCED
    case DESTRUCTIBLE => BALANCED
    case PICKUP => BALANCED
    case TRAP => BALANCED
    case BACKGROUND => FILL
    case PARALLAX_LAYER => FILL
    case TERRAIN => BALANCED
    case PLATFORM => BALANCED
    case WORLD_OBJECT => BALANCED
    case BUILDING => BALANCED
    case PARTICLE => BALANCED
    case VISUAL_EFFECT => BALANCED
    case ANIMATION => BALANCED
    case LIGHT_EFFECT => BALANCED
    case DIALOGUE => FLUID
    case CAPTION => FLUID
    case FLOATING_TEXT => FLUID
    case QUEST_TEXT => FLUID
    case LORE_TEXT => FLUID
    case CAMERA_BOUNDS => PERCENTAGE
    case TRIGGER_ZONE => PERCENTAGE
    case DEBUG_ELEMENT => NONE
    case BUTTON => BALANCED
    case FAB => BALANCED
    case TEXT => FLUID
    case ICON => DEFAULT
    case BADGE => DEFAULT
    case CONTAINER => PERCENTAGE
    case CARD => PERCENTAGE
    case LIST_ITEM => PERCENTAGE
    case SPACING => BALANCED
    case CHIP => FLUID
    case INPUT => FLUID
    case IMAGE => PERCENTAGE
    case DIVIDER => NONE
    case NAVIGATION => DEFAULT
    case HEADER => DEFAULT
    case TOOLBAR => DEFAULT
    case GENERIC => BALANCED
  }

  /**
   * `isGameSpecific`: HUD, character, object, world, effect, game-text and
   * special elements.  By category: exactly the elements outside "Standard
   * UI" other than the menu widgets grouped with the HUD and the plain TEXT
   * element.
   */
  function IsGameSpecific(e: GameElementType): (b: bool)
    ensures b <==> GetCategory(e) != StandardUi && e !in {MENU, DIALOG, TOOLTIP, INVENTORY, ABILITY_PANEL, TEXT}
  {
    e in {HUD_BUTTON, HUD_ICON, HUD_TEXT, HUD_CONTAINER, HUD_BAR, HUD_MINIMAP,
          HUD_CROSSHAIR, PLAYER, ENEMY, BOSS, NPC, COMPANION, VEHICLE,
          ITEM, WEAPON, PROJECTILE, OBSTACLE, INTERACTIVE_OBJECT, DESTRUCTIBLE,
          PICKUP, TRAP, BACKGROUND, PARALLAX_LAYER, TERRAIN, PLATFORM,
          WORLD_OBJECT, BUILDING, PARTICLE, VISUAL_EFFECT, ANIMATION,
          LIGHT_EFFECT, DIALOGUE, CAPTION, FLOATING_TEXT, QUEST_TEXT,
          LORE_TEXT, CAMERA_BOUNDS, TRIGGER_ZONE, DEBUG_ELEMENT}
  }

  const UiAndHud: string := "UI & HUD"
  const Characters: string := "Characters"
  const GameObjects: string := "Game Objects"
  const WorldElements: string := "World Elements"
  const EffectsAndParticles: string := "Effects & Particles"
  const TextElements: string := "Text Elements"
  const SpecialElements: string := "Special Elements"
  const StandardUi: string := "Standard UI"

  /**
   * `getCategory`: the first category that lists the element.  HUD_TEXT is
   * listed under both "UI & HUD" and "Text Elements"; the first wins.
   */
  function GetCategory(e: GameElementType): (c: string)
    ensures c in {UiAndHud, Characters, GameObjects, WorldElements, EffectsAndParticles, TextElements, SpecialElements, StandardUi}
    ensures e == HUD_TEXT ==> c == UiAndHud
  {
    if e in {HUD_BUTTON, HUD_ICON, HUD_TEXT, HUD_CONTAINER, HUD_BAR, HUD_MINIMAP,
             HUD_CROSSHAIR, MENU, DIALOG, TOOLTIP, INVENTORY, ABILITY_PANEL} then UiAndHud
    else if e in {PLAYER, ENEMY, BOSS, NPC, COMPANION, VEHICLE} then Characters
    else if e in {ITEM, WEAPON, PROJECTILE, OBSTACLE, INTERACTIVE_OBJECT, DESTRUCTIBLE,
                  PICKUP, TRAP} then GameObjects
    else if e in {BACKGROUND, PARALLAX_LAYER, TERRAIN, PLATFORM, WORLD_OBJECT, BUILDING} then WorldElements
    else if e in {PARTICLE, VISUAL_EFFECT, ANIMATION, LIGHT_EFFECT} then EffectsAndParticles
    else if e in {DIALOGUE, CAPTION, FLOATING_TEXT, QUEST_TEXT, LORE_TEXT, TEXT, HUD_TEXT} then TextElements
    else if e in {CAMERA_BOUNDS, TRIGGER_ZONE, DEBUG_ELEMENT} then SpecialElements
    else StandardUi
  }

  /** BACKGROUND and PARALLAX_LAYER are the only elements recommended FILL. */
  lemma FillOnlyForBackgrounds(e: GameElementType)
    ensures GetRecommendedStrategy(e) == FILL <==> e == BACKGROUND || e == PARALLAX_LAYER
  {
  }

  /** DIVIDER and DEBUG_ELEMENT are the only elements recommended NONE. */
  lemma NoneOnlyForDividerAndDebug(e: GameElementType)
    ensures GetRecommendedStrategy(e) == NONE <==> e == DIVIDER || e == DEBUG_ELEMENT
  {
  }

  /** Every element in "Text Elements" is recommended FLUID. */
  lemma TextElementsAreFluid(e: GameElementType)
    ensures GetCategory(e) == TextElements ==> GetRecommendedStrategy(e) == FLUID
  {
  }

  /** Characters, game objects and effects are recommended BALANCED, and so is GENERIC. */
  lemma CharactersObjectsEffectsAreBalanced(e: GameElementType)
    ensures GetCategory(e) == Characters ==> GetRecommendedStrategy(e) == BALANCED
    ensures GetCategory(e) == GameObjects ==> GetRecommendedStrategy(e) == BALANCED
    ensures GetCategory(e) == EffectsAndParticles ==> GetRecommendedStrategy(e) == BALANCED
    ensures e == GENERIC ==> GetRecommendedStrategy(e) == BALANCED
  {
    var c := GetCategory(e);
    if c == Characters {
      assert e in {PLAYER, ENEMY, BOSS, NPC, COMPANION, VEHICLE};
    } else if c == GameObjects {
      assert e in {ITEM, WEAPON, PROJECTILE, OBSTACLE, INTERACTIVE_OBJECT, DESTRUCTIBLE, PICKUP, TRAP};
    } else if c == EffectsAndParticles {
      assert e in {PARTICLE, VISUAL_EFFECT, ANIMATION, LIGHT_EFFECT};
    }
  }

  /** World elements are recommended FILL (the backdrops) or BALANCED. */
  lemma WorldElementsFillOrBalance(e: GameElementType)
    ensures GetCategory(e) == WorldElements ==> GetRecommendedStrategy(e) in {FILL, BALANCED}
  {
  }
}
