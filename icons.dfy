/**
 * The icon lookups of a card display: each origin, rarity and evolution
 * stage has a dedicated sprite slot, configured per display and possibly
 * left unset.
 */
module Icons {
  import opened Wrappers
  import opened CardData

  datatype IconSet = IconSet(
    water: Option<Sprite>, fire: Option<Sprite>, air: Option<Sprite>, earth: Option<Sprite>,
    common: Option<Sprite>, uncommon: Option<Sprite>, rare: Option<Sprite>,
    epic: Option<Sprite>, legendary: Option<Sprite>, mythical: Option<Sprite>,
    evolutionI: Option<Sprite>, evolutionII: Option<Sprite>, evolutionIII: Option<Sprite>)

  /** The origin slots, in the declaration order of CardOrigin. */
  function OriginSlots(icons: IconSet): seq<Option<Sprite>> {
    [icons.water, icons.fire, icons.air, icons.earth]
  }

  /** The rarity slots, in the declaration order of CardRarity. */
  function RaritySlots(icons: IconSet): seq<Option<Sprite>> {
    [icons.common, icons.uncommon, icons.rare, icons.epic, icons.legendary, icons.mythical]
  }

  /** The evolution slots, in the declaration order of CardEvolution. */
  function EvolutionSlots(icons: IconSet): seq<Option<Sprite>> {
    [icons.evolutionI, icons.evolutionII, icons.evolutionIII]
  }

  /** The sprite shown for an origin. */
  function OriginIcon(icons: IconSet, origin: CardOrigin): Option<Sprite> {
    match origin
    case Fire => icons.fire
    case Water => icons.water
    case Air => icons.air
    case Earth => icons.earth
  }

  /** The sprite shown for a rarity. */
  function RarityIcon(icons: IconSet, rarity: CardRarity): Option<Sprite> {
    match rarity
    case Common => icons.common
    case Uncommon => icons.uncommon
    case Rare => icons.rare
    case Epic => icons.epic
    case Legendary => icons.legendary
    case Mythical => icons.mythical
  }

  /** The sprite shown for an evolution stage. */
  function EvolutionIcon(icons: IconSet, evolution: CardEvolution): Option<Sprite> {
    match evolution
    case EvolutionI => icons.evolutionI
    case EvolutionII => icons.evolutionII
    case EvolutionIII => icons.evolutionIII
  }

  /** Each origin reads the slot at its own declaration position. */
  lemma OriginIconIsItsSlot(icons: IconSet, origin: CardOrigin)
    ensures OriginIcon(icons, origin) == OriginSlots(icons)[OriginOrdinal(origin)]
  {
  }

  /** Each rarity reads the slot at its own declaration position. */
  lemma RarityIconIsItsSlot(icons: IconSet, rarity: CardRarity)
    ensures RarityIcon(icons, rarity) == RaritySlots(icons)[RarityOrdinal(rarity)]
  {
  }

  /** Each evolution stage reads the slot at its own declaration position. */
  lemma EvolutionIconIsItsSlot(icons: IconSet, evolution: CardEvolution)
    ensures EvolutionIcon(icons, evolution) == EvolutionSlots(icons)[EvolutionOrdinal(evolution)]
  {
  }

  /** Every slot is set, and no two slots of one table hold the same sprite. */
  predicate WellConfigured(icons: IconSet) {
    && (forall i | 0 <= i < |OriginSlots(icons)| :: OriginSlots(icons)[i].Some?)
    && (forall i | 0 <= i < |RaritySlots(icons)| :: RaritySlots(icons)[i].Some?)
    && (forall i | 0 <= i < |EvolutionSlots(icons)| :: EvolutionSlots(icons)[i].Some?)
    && (forall i, j | 0 <= i < j < |OriginSlots(icons)| :: OriginSlots(icons)[i] != OriginSlots(icons)[j])
    && (forall i, j | 0 <= i < j < |RaritySlots(icons)| :: RaritySlots(icons)[i] != RaritySlots(icons)[j])
    && (forall i, j | 0 <= i < j < |EvolutionSlots(icons)| :: EvolutionSlots(icons)[i] != EvolutionSlots(icons)[j])
  }

  /**
   * With every slot set and distinct, no declared case falls through to an
   * unset sprite, and distinct cases show distinct sprites.
   */
  lemma LookupsAreTotalAndDistinct(icons: IconSet)
    requires WellConfigured(icons)
    ensures forall o :: OriginIcon(icons, o).Some?
    ensures forall r :: RarityIcon(icons, r).Some?
    ensures forall e :: EvolutionIcon(icons, e).Some?
    ensures forall a, b :: a != b ==> OriginIcon(icons, a) != OriginIcon(icons, b)
    ensures forall a, b :: a != b ==> RarityIcon(icons, a) != RarityIcon(icons, b)
    ensures forall a, b :: a != b ==> EvolutionIcon(icons, a) != EvolutionIcon(icons, b)
  {
    forall o: CardOrigin ensures OriginIcon(icons, o).Some? {
      OriginIconIsItsSlot(icons, o);
    }
    forall r: CardRarity ensures RarityIcon(icons, r).Some? {
      RarityIconIsItsSlot(icons, r);
    }
    forall e: CardEvolution ensures EvolutionIcon(icons, e).Some? {
      EvolutionIconIsItsSlot(icons, e);
    }
    forall a: CardOrigin, b: CardOrigin | a != b ensures OriginIcon(icons, a) != OriginIcon(icons, b) {
      OriginIconIsItsSlot(icons, a);
      OriginIconIsItsSlot(icons, b);
      var i, j := OriginOrdinal(a), OriginOrdinal(b);
      assert i != j;
      if i < j {
        assert OriginSlots(icons)[i] != OriginSlots(icons)[j];
      } else {
        assert OriginSlots(icons)[j] != OriginSlots(icons)[i];
      }
    }
    forall a: CardRarity, b: CardRarity | a != b ensures RarityIcon(icons, a) != RarityIcon(icons, b) {
      RarityIconIsItsSlot(icons, a);
      RarityIconIsItsSlot(icons, b);
      var i, j := RarityOrdinal(a), RarityOrdinal(b);
      assert i != j;
      if i < j {
        assert RaritySlots(icons)[i] != RaritySlots(icons)[j];
      } else {
        assert RaritySlots(icons)[j] != RaritySlots(icons)[i];
      }
    }
    forall a: CardEvolution, b: CardEvolution | a != b ensures EvolutionIcon(icons, a) != EvolutionIcon(icons, b) {
      EvolutionIconIsItsSlot(icons, a);
      EvolutionIconIsItsSlot(icons, b);
      var i, j := EvolutionOrdinal(a), EvolutionOrdinal(b);
      assert i != j;
      if i < j {
        assert EvolutionSlots(icons)[i] != EvolutionSlots(icons)[j];
      } else {
        assert EvolutionSlots(icons)[j] != EvolutionSlots(icons)[i];
      }
    }
  }
}
