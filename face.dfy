/**
 * The face of a card as a display draws it: the name and description texts,
 * the artwork, the health and attack texts and the three icons. The hand's
 * card displays and the isolation view's large card draw the same face.
 */
module Face {
  import opened Wrappers
  import opened CardData
  import opened Text
  import Icons

  datatype CardFace = CardFace(
    name: string,
    description: string,
    sprite: Option<Sprite>,
    health: string,
    attack: string,
    originIcon: Option<Sprite>,
    rarityIcon: Option<Sprite>,
    evolutionIcon: Option<Sprite>)

  /** The face of a display that has not been set up: empty texts, no sprites. */
  const Blank := CardFace("", "", Option.None, "", "", Option.None, Option.None, Option.None)

  /**
   * The face showing `card` with the icons of `icons`. The stat texts read
   * back as the card's health and attack.
   */
  function FaceOf(card: Card, icons: Icons.IconSet): (face: CardFace)
    ensures face.name == card.name && face.description == card.description && face.sprite == card.sprite
    ensures ParseInt(face.health) == Some(card.health as int)
    ensures ParseInt(face.attack) == Some(card.attack as int)
  {
    IntToStringRoundTrip(card.health as int);
    IntToStringRoundTrip(card.attack as int);
    CardFace(
      card.name,
      card.description,
      card.sprite,
      IntToString(card.health as int),
      IntToString(card.attack as int),
      Icons.OriginIcon(icons, card.origin),
      Icons.RarityIcon(icons, card.rarity),
      Icons.EvolutionIcon(icons, card.evolution))
  }

  /** Two cards with the same face agree on name, description, artwork, health and attack. */
  lemma FaceDeterminesStats(c1: Card, c2: Card, icons: Icons.IconSet)
    requires FaceOf(c1, icons) == FaceOf(c2, icons)
    ensures c1.name == c2.name && c1.description == c2.description && c1.sprite == c2.sprite
    ensures c1.health == c2.health && c1.attack == c2.attack
  {
    var f1, f2 := FaceOf(c1, icons), FaceOf(c2, icons);
    assert ParseInt(f1.health) == ParseInt(f2.health);
    assert ParseInt(f1.attack) == ParseInt(f2.attack);
  }
}
