/**
 * The card data model: the fields of a card asset and the four enumerations
 * that classify a card (origin, rarity, ability type, evolution stage).
 */
module CardData {
  import opened Wrappers

  /** The C# `int` type: a signed 32-bit integer. */
  newtype Int32 = x: int | -0x8000_0000 <= x < 0x8000_0000

  /** Rarity levels, in declaration order (underlying values 0 to 5). */
  datatype CardRarity = Common | Uncommon | Rare | Epic | Legendary | Mythical

  /** Elemental origin of a card, in declaration order. */
  datatype CardOrigin = Water | Fire | Air | Earth

  /** Ability type: the discriminant saying which ability parameters are meaningful. */
  datatype CardType = None | Spawn | Stun | Heal

  /** Evolution stage of a card, in declaration order. */
  datatype CardEvolution = EvolutionI | EvolutionII | EvolutionIII

  /** An image asset, known only by its asset key. */
  datatype Sprite = Sprite(asset: string)

  /**
   * One card asset. `sprite` and `spawnTarget` are references that the
   * inspector may leave unset. The ability parameters are stored whatever the
   * `cardType` is; nothing ties them to it. `healAmount` is a float in the
   * source and is kept here as a whole number.
   */
  datatype Card = Card(
    name: string,
    sprite: Option<Sprite>,
    description: string,
    origin: CardOrigin,
    rarity: CardRarity,
    evolution: CardEvolution,
    health: Int32,
    attack: Int32,
    cardType: CardType,
    spawnTarget: Option<Card>,
    spawnAmount: Int32,
    stunTurns: Int32,
    healAmount: Int32)

  /** Every rarity, in declaration order. */
  const Rarities: seq<CardRarity> := [Common, Uncommon, Rare, Epic, Legendary, Mythical]

  /** Every origin, in declaration order. */
  const Origins: seq<CardOrigin> := [Water, Fire, Air, Earth]

  /** Every ability type, in declaration order. */
  const CardTypes: seq<CardType> := [CardType.None, Spawn, Stun, Heal]

  /** Every evolution stage, in declaration order. */
  const Evolutions: seq<CardEvolution> := [EvolutionI, EvolutionII, EvolutionIII]

  /** The underlying value of a rarity: its position in the declaration. */
  function RarityOrdinal(r: CardRarity): (n: nat)
    ensures n < |Rarities| && Rarities[n] == r
  {
    match r
    case Common => 0
    case Uncommon => 1
    case Rare => 2
    case Epic => 3
    case Legendary => 4
    case Mythical => 5
  }

  /** The underlying value of an origin. */
  function OriginOrdinal(o: CardOrigin): (n: nat)
    ensures n < |Origins| && Origins[n] == o
  {
    match o
    case Water => 0
    case Fire => 1
    case Air => 2
    case Earth => 3
  }

  /** The underlying value of an ability type. */
  function CardTypeOrdinal(t: CardType): (n: nat)
    ensures n < |CardTypes| && CardTypes[n] == t
  {
    match t
    case None => 0
    case Spawn => 1
    case Stun => 2
    case Heal => 3
  }

  /** The underlying value of an evolution stage. */
  function EvolutionOrdinal(e: CardEvolution): (n: nat)
    ensures n < |Evolutions| && Evolutions[n] == e
  {
    match e
    case EvolutionI => 0
    case EvolutionII => 1
    case EvolutionIII => 2
  }

  /** The rarities, ordered by their underlying values. */
  predicate RarityBelow(a: CardRarity, b: CardRarity) {
    RarityOrdinal(a) < RarityOrdinal(b)
  }

  /**
   * Each enumeration lists exactly its declared cases, each once: six
   * rarities, four origins, four ability types, three evolution stages.
   */
  lemma EnumerationsAreExact()
    ensures |Rarities| == 6 && |Origins| == 4 && |CardTypes| == 4 && |Evolutions| == 3
    ensures forall i, j :: 0 <= i < j < |Rarities| ==> Rarities[i] != Rarities[j]
    ensures forall i, j :: 0 <= i < j < |Origins| ==> Origins[i] != Origins[j]
    ensures forall i, j :: 0 <= i < j < |CardTypes| ==> CardTypes[i] != CardTypes[j]
    ensures forall i, j :: 0 <= i < j < |Evolutions| ==> Evolutions[i] != Evolutions[j]
    ensures forall r: CardRarity :: r in Rarities
    ensures forall o: CardOrigin :: o in Origins
    ensures forall t: CardType :: t in CardTypes
    ensures forall e: CardEvolution :: e in Evolutions
  {
    forall r: CardRarity ensures r in Rarities { assert Rarities[RarityOrdinal(r)] == r; }
    forall o: CardOrigin ensures o in Origins { assert Origins[OriginOrdinal(o)] == o; }
    forall t: CardType ensures t in CardTypes { assert CardTypes[CardTypeOrdinal(t)] == t; }
    forall e: CardEvolution ensures e in Evolutions { assert Evolutions[EvolutionOrdinal(e)] == e; }
  }

  /**
   * Rarities are totally ordered by declaration:
   * Common < Uncommon < Rare < Epic < Legendary < Mythical.
   */
  lemma RarityChain()
    ensures RarityBelow(Common, Uncommon) && RarityBelow(Uncommon, Rare) && RarityBelow(Rare, Epic)
    ensures RarityBelow(Epic, Legendary) && RarityBelow(Legendary, Mythical)
    ensures forall a, b :: RarityBelow(a, b) || a == b || RarityBelow(b, a)
    ensures forall a, b, c :: RarityBelow(a, b) && RarityBelow(b, c) ==> RarityBelow(a, c)
    ensures forall a :: !RarityBelow(a, a)
  {
    forall a, b ensures RarityBelow(a, b) || a == b || RarityBelow(b, a) {
      var i, j := RarityOrdinal(a), RarityOrdinal(b);
      assert i == j ==> a == b;
    }
  }

  /** The identifier the C# runtime prints for an origin. */
  function OriginName(o: CardOrigin): string {
    match o
    case Water => "Water"
    case Fire => "Fire"
    case Air => "Air"
    case Earth => "Earth"
  }

  /** The identifier the C# runtime prints for a rarity. */
  function RarityName(r: CardRarity): string {
    match r
    case Common => "Common"
    case Uncommon => "Uncommon"
    case Rare => "Rare"
    case Epic => "Epic"
    case Legendary => "Legendary"
    case Mythical => "Mythical"
  }

  /** The identifier the C# runtime prints for an evolution stage. */
  function EvolutionName(e: CardEvolution): string {
    match e
    case EvolutionI => "EvolutionI"
    case EvolutionII => "EvolutionII"
    case EvolutionIII => "EvolutionIII"
  }

  /** The identifier the C# runtime prints for an ability type. */
  function CardTypeName(t: CardType): string {
    match t
    case None => "None"
    case Spawn => "Spawn"
    case Stun => "Stun"
    case Heal => "Heal"
  }

  /** Distinct enumeration cases print as distinct identifiers. */
  lemma EnumNamesInjective()
    ensures forall a, b :: OriginName(a) == OriginName(b) ==> a == b
    ensures forall a, b :: RarityName(a) == RarityName(b) ==> a == b
    ensures forall a, b :: EvolutionName(a) == EvolutionName(b) ==> a == b
    ensures forall a, b :: CardTypeName(a) == CardTypeName(b) ==> a == b
  {
  }

  /**
   * The data type enforces neither sign nor zeroing: a Heal card may carry
   * non-zero spawn and stun parameters, a spawn target, and negative stats.
   */
  lemma AbilityParametersUnconstrained()
    ensures exists c: Card ::
      c.cardType == Heal && c.spawnAmount != 0 && c.stunTurns != 0 && c.spawnTarget.Some?
      && c.health < 0 && c.attack < 0
  {
    var target := Card("Imp", Option.None, "", Fire, Common, EvolutionI, 1, 1, CardType.None, Option.None, 0, 0, 0);
    var c := Card("Medic", Option.None, "", Water, Rare, EvolutionII, -1, -2, Heal, Some(target), 3, 2, 5);
    assert c.cardType == Heal && c.spawnAmount != 0 && c.stunTurns != 0 && c.spawnTarget.Some?;
  }
}
