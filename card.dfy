/**
 * Executing a card: the text preview of its ability. Two fixed lines name the
 * card and its attack; Spawn, Heal and Stun cards add one line describing the
 * ability. No target is affected: the result is only written to a label.
 */
module CardAbility {
  import opened Wrappers
  import opened CardData
  import opened Text

  /** The scene object handed to the ability as its target. */
  datatype GameObject = GameObject(id: nat)

  /** The two lines every description starts with, joined by a newline. */
  function BaseText(card: Card): string {
    card.name + " was executed.\n" + "Deal " + IntToString(card.attack as int) + " damage to enemy units."
  }

  /** The base text, followed by `extraLine` on a line of its own unless it is empty. */
  function BuildDescription(card: Card, extraLine: string): (desc: string)
    ensures BaseText(card) <= desc
    ensures desc == BaseText(card) <==> extraLine == ""
    ensures extraLine != "" ==> desc[|BaseText(card)|..] == "\n" + extraLine
  {
    var d := BaseText(card);
    if extraLine != "" then d + "\n" + extraLine else d
  }

  /**
   * The text written to the description label when `card` is executed
   * against `target`. The None arm writes the two base lines itself and
   * returns; the other arms go through BuildDescription.
   */
  function UseCard(card: Card, target: GameObject): (text: string)
    ensures BaseText(card) <= text
    ensures text == BaseText(card) <==> card.cardType == CardType.None
  {
    match card.cardType
    case None =>
      card.name + " was executed.\n" + "Deal " + IntToString(card.attack as int) + " damage to enemy units."
    case Spawn =>
      var targetName := if card.spawnTarget.Some? then card.spawnTarget.value.name else "unit";
      BuildDescription(card, "Spawn " + IntToString(card.spawnAmount as int) + " " + targetName + " unit(s).")
    case Heal =>
      BuildDescription(card, "Heal ally units by " + IntToString(card.healAmount as int) + ".")
    case Stun =>
      BuildDescription(card, "Stun enemy units for " + IntToString(card.stunTurns as int) + " turn(s).")
  }

  /**
   * The description as a table of lines, one row per ability type: the name
   * line, the damage line, and for Spawn, Heal and Stun one ability line.
   * A Spawn card without a target reads "unit" in place of the target's name.
   */
  function DescriptionLines(card: Card): seq<string> {
    var header := [card.name + " was executed.", "Deal " + IntToString(card.attack as int) + " damage to enemy units."];
    match card.cardType
    case None => header
    case Spawn =>
      header + ["Spawn " + IntToString(card.spawnAmount as int) + " "
                + (match card.spawnTarget case Some(t) => t.name case None => "unit") + " unit(s)."]
    case Heal => header + ["Heal ally units by " + IntToString(card.healAmount as int) + "."]
    case Stun => header + ["Stun enemy units for " + IntToString(card.stunTurns as int) + " turn(s)."]
  }

  /** The names a description shows: the card's own and, for Spawn, the target's. */
  predicate NamesAreSingleLine(card: Card) {
    && NoNewline(card.name)
    && (card.cardType == Spawn && card.spawnTarget.Some? ==> NoNewline(card.spawnTarget.value.name))
  }

  lemma JoinTwo(a: string, b: string)
    ensures JoinLines([a, b]) == a + "\n" + b
  {
    assert [a, b][1..] == [b];
  }

  lemma JoinThree(a: string, b: string, c: string)
    ensures JoinLines([a, b, c]) == a + "\n" + b + "\n" + c
  {
    assert [a, b, c][1..] == [b, c];
    JoinTwo(b, c);
  }

  /** The base text is the two header rows of the table, joined. */
  lemma BaseTextIsHeader(card: Card)
    ensures BaseText(card) == JoinLines(DescriptionLines(card)[..2])
  {
    var l0, l1 := card.name + " was executed.", "Deal " + IntToString(card.attack as int) + " damage to enemy units.";
    assert DescriptionLines(card)[..2] == [l0, l1];
    JoinTwo(l0, l1);
    assert card.name + " was executed.\n" == l0 + "\n";
  }

  /** Executing a card writes exactly the rows of the description table, joined by newlines. */
  lemma UseCardIsJoinedLines(card: Card, target: GameObject)
    ensures UseCard(card, target) == JoinLines(DescriptionLines(card))
  {
    var lines := DescriptionLines(card);
    BaseTextIsHeader(card);
    if card.cardType == CardType.None {
      assert lines[..2] == lines;
    } else {
      assert lines == [lines[0], lines[1], lines[2]];
      JoinTwo(lines[0], lines[1]);
      JoinThree(lines[0], lines[1], lines[2]);
      assert UseCard(card, target) == BaseText(card) + "\n" + lines[2];
    }
  }

  /** A row made of three newline-free pieces holds no newline. */
  lemma NoNewlineConcat(a: string, b: string, c: string)
    requires NoNewline(a) && NoNewline(b) && NoNewline(c)
    ensures NoNewline(a + b + c)
  {
  }

  /** The fixed pieces of the two header rows hold no newline. */
  lemma HeaderPiecesSingleLine()
    ensures NoNewline(" was executed.") && NoNewline("Deal ") && NoNewline(" damage to enemy units.")
  {
  }

  /** The fixed pieces of the ability rows hold no newline. */
  lemma AbilityPiecesSingleLine()
    ensures NoNewline("Spawn ") && NoNewline(" ") && NoNewline(" unit(s).") && NoNewline("unit")
    ensures NoNewline("Heal ally units by ") && NoNewline(".")
    ensures NoNewline("Stun enemy units for ") && NoNewline(" turn(s).")
  {
  }

  /** The third row, when there is one, holds no newline if the target's name holds none. */
  lemma AbilityRowSingleLine(card: Card)
    requires NamesAreSingleLine(card)
    ensures forall i | 0 <= i < |DescriptionLines(card)| :: NoNewline(DescriptionLines(card)[i])
  {
    var lines := DescriptionLines(card);
    HeaderPiecesSingleLine();
    AbilityPiecesSingleLine();
    NoNewlineConcat(card.name, " was executed.", "");
    assert lines[0] == card.name + " was executed." + "";
    NoNewlineConcat("Deal ", IntToString(card.attack as int), " damage to enemy units.");
    match card.cardType
    case None =>
    case Spawn =>
      var targetName := match card.spawnTarget case Some(t) => t.name case None => "unit";
      NoNewlineConcat("Spawn ", IntToString(card.spawnAmount as int), " ");
      NoNewlineConcat("Spawn " + IntToString(card.spawnAmount as int) + " ", targetName, " unit(s).");
    case Heal =>
      NoNewlineConcat("Heal ally units by ", IntToString(card.healAmount as int), ".");
    case Stun =>
      NoNewlineConcat("Stun enemy units for ", IntToString(card.stunTurns as int), " turn(s).");
  }

  /**
   * Read line by line, the description is the table's rows: two lines for a
   * None card and three for a Spawn, Heal or Stun card, as long as the names
   * shown contain no newline.
   */
  lemma UseCardLines(card: Card, target: GameObject)
    requires NamesAreSingleLine(card)
    ensures SplitLines(UseCard(card, target)) == DescriptionLines(card)
    ensures |SplitLines(UseCard(card, target))| == if card.cardType == CardType.None then 2 else 3
  {
    UseCardIsJoinedLines(card, target);
    AbilityRowSingleLine(card);
    SplitJoin(DescriptionLines(card));
  }

  /** The target never influences the text. */
  lemma UseCardIgnoresTarget(card: Card, t1: GameObject, t2: GameObject)
    ensures UseCard(card, t1) == UseCard(card, t2)
  {
  }

  /** The None arm gives what the default arm (BuildDescription with an empty line) would. */
  lemma NoneArmMatchesDefault(card: Card, target: GameObject)
    requires card.cardType == CardType.None
    ensures UseCard(card, target) == BuildDescription(card, "")
  {
  }

  /** A worked example: a Heal card named Golem with attack 4 and heal amount 3. */
  lemma GolemExample(target: GameObject)
    ensures UseCard(Card("Golem", Option.None, "", Earth, Common, EvolutionI, 5, 4, Heal, Option.None, 0, 0, 3), target)
            == "Golem" + " was executed.\n" + "Deal " + "4" + " damage to enemy units." + "\n" + "Heal ally units by " + "3" + "."
  {
    var golem := Card("Golem", Option.None, "", Earth, Common, EvolutionI, 5, 4, Heal, Option.None, 0, 0, 3);
    var heal := "Heal ally units by " + "3" + ".";
    assert IntToString(golem.attack as int) == "4";
    assert IntToString(golem.healAmount as int) == "3";
    assert UseCard(golem, target) == BuildDescription(golem, heal);
    assert BuildDescription(golem, heal) == BaseText(golem) + "\n" + heal;
  }
}
