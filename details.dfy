/**
 * The text of the isolation (detail) view's description panel: one labelled
 * line per stat and one line for the ability type and its parameter.
 */
module Details {
  import opened Wrappers
  import opened CardData
  import opened Text
  import CardAbility

  /** The seven labels of the details panel. */
  datatype DetailsText = DetailsText(
    name: string,
    origin: string,
    rarity: string,
    evolution: string,
    health: string,
    attack: string,
    cardType: string)

  /**
   * The ability-type line. Unlike the executed description, a Spawn card
   * without a target shows "None" as its target.
   */
  function TypeDetail(card: Card): (line: string)
    ensures "Card Type: " + CardTypeName(card.cardType) <= line
    ensures line == "Card Type: None" <==> card.cardType == CardType.None
    ensures card.cardType == Spawn ==>
      line == "Card Type: " + "Spawn" + " | Target: "
              + (match card.spawnTarget case Some(t) => t.name case None => "None")
    ensures card.cardType == Stun ==>
      line == "Card Type: " + "Stun" + " | Turns: " + IntToString(card.stunTurns as int)
    ensures card.cardType == Heal ==>
      line == "Card Type: " + "Heal" + " | Amount: " + IntToString(card.healAmount as int)
  {
    match card.cardType
    case Spawn =>
      "Card Type: " + "Spawn" + " | Target: " + (if card.spawnTarget.Some? then card.spawnTarget.value.name else "None")
    case Stun => "Card Type: " + "Stun" + " | Turns: " + IntToString(card.stunTurns as int)
    case Heal => "Card Type: " + "Heal" + " | Amount: " + IntToString(card.healAmount as int)
    case None => "Card Type: None"
  }

  /** The labels of the details panel for `card`. */
  function Details(card: Card): (d: DetailsText)
    ensures d.name == card.name
    ensures d.origin == "Card Origin: " + OriginName(card.origin)
    ensures d.rarity == "Card Rarity: " + RarityName(card.rarity)
    ensures d.evolution == "Card Evolution: " + EvolutionName(card.evolution)
    ensures d.health == "Health: " + IntToString(card.health as int)
    ensures d.attack == "Attack: " + IntToString(card.attack as int)
    ensures d.cardType == TypeDetail(card)
  {
    DetailsText(
      card.name,
      "Card Origin: " + OriginName(card.origin),
      "Card Rarity: " + RarityName(card.rarity),
      "Card Evolution: " + EvolutionName(card.evolution),
      "Health: " + IntToString(card.health as int),
      "Attack: " + IntToString(card.attack as int),
      TypeDetail(card))
  }

  lemma DropLabel(tag: string, x: string, y: string)
    requires tag + x == tag + y
    ensures x == y
  {
    assert x == (tag + x)[|tag|..];
    assert y == (tag + y)[|tag|..];
  }

  /**
   * The panel determines every stat it shows: two cards with the same panel
   * agree on name, origin, rarity, evolution stage, health and attack.
   */
  lemma DetailsDetermineStats(c1: Card, c2: Card)
    requires Details(c1) == Details(c2)
    ensures c1.name == c2.name && c1.origin == c2.origin && c1.rarity == c2.rarity
    ensures c1.evolution == c2.evolution && c1.health == c2.health && c1.attack == c2.attack
  {
    var d1, d2 := Details(c1), Details(c2);
    EnumNamesInjective();
    DropLabel("Card Origin: ", OriginName(c1.origin), OriginName(c2.origin));
    DropLabel("Card Rarity: ", RarityName(c1.rarity), RarityName(c2.rarity));
    DropLabel("Card Evolution: ", EvolutionName(c1.evolution), EvolutionName(c2.evolution));
    DropLabel("Health: ", IntToString(c1.health as int), IntToString(c2.health as int));
    IntToStringInjective(c1.health as int, c2.health as int);
    DropLabel("Attack: ", IntToString(c1.attack as int), IntToString(c2.attack as int));
    IntToStringInjective(c1.attack as int, c2.attack as int);
  }

  /** The number after the Health and Attack labels reads back as the card's stat. */
  lemma DetailsNumbersReadBack(card: Card)
    ensures ParseInt(Details(card).health[|"Health: "|..]) == Some(card.health as int)
    ensures ParseInt(Details(card).attack[|"Attack: "|..]) == Some(card.attack as int)
  {
    var d := Details(card);
    assert d.health[|"Health: "|..] == IntToString(card.health as int);
    assert d.attack[|"Attack: "|..] == IntToString(card.attack as int);
    IntToStringRoundTrip(card.health as int);
    IntToStringRoundTrip(card.attack as int);
  }

  /** The number after the Stun or Heal label reads back as the card's parameter. */
  lemma TypeDetailNumberReadsBack(card: Card)
    ensures card.cardType == Stun ==>
      ParseInt(TypeDetail(card)[|"Card Type: Stun | Turns: "|..]) == Some(card.stunTurns as int)
    ensures card.cardType == Heal ==>
      ParseInt(TypeDetail(card)[|"Card Type: Heal | Amount: "|..]) == Some(card.healAmount as int)
  {
    if card.cardType == Stun {
      var n := IntToString(card.stunTurns as int);
      assert TypeDetail(card)[|"Card Type: Stun | Turns: "|..] == n;
      IntToStringRoundTrip(card.stunTurns as int);
    } else if card.cardType == Heal {
      var n := IntToString(card.healAmount as int);
      assert TypeDetail(card)[|"Card Type: Heal | Amount: "|..] == n;
      IntToStringRoundTrip(card.healAmount as int);
    }
  }

  /**
   * For a Spawn card without a target the two views disagree on the
   * placeholder: the details panel names the target "None", the executed
   * description names it "unit".
   */
  lemma SpawnPlaceholdersDiffer(card: Card, target: CardAbility.GameObject)
    requires card.cardType == Spawn && card.spawnTarget.None?
    ensures TypeDetail(card) == "Card Type: " + "Spawn" + " | Target: " + "None"
    ensures CardAbility.DescriptionLines(card)[2]
            == "Spawn " + IntToString(card.spawnAmount as int) + " unit unit(s)."
  {
    var n := IntToString(card.spawnAmount as int);
    assert "Spawn " + n + " " + "unit" + " unit(s)." == "Spawn " + n + " unit unit(s).";
  }

  /**
   * The details panel cannot tell a Spawn card without a target from one
   * whose target is a card named "None".
   */
  lemma SpawnPlaceholderAmbiguous(card: Card, other: Card)
    requires card.cardType == Spawn && other.name == "None"
    ensures TypeDetail(card.(spawnTarget := Option.None)) == TypeDetail(card.(spawnTarget := Some(other)))
  {
  }
}
