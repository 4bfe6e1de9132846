# Card hand UI: a Dafny model

This project models the logic of a small card-hand interface. A hand draws
cards from a pool of card assets and shows each card in a display. The player
selects one card with a click. Two buttons then act on the selected card:
one shows the card's ability as text, the other opens a detail ("isolation")
view.

The model has these modules:

- `CardData` (`card_data.dfy`): the card asset (`CardSO`) as the datatype
  `Card`, and its four enumerations `CardRarity`, `CardOrigin`, `CardType`
  and `CardEvolution`. It also gives each enumeration's declaration order and
  the identifiers the runtime prints for its cases. The C# `int` fields have
  the type `Int32`.
- `Text` (`text.dfy`): the decimal text C# gives for an integer, with its
  inverse, and the split of a text into lines.
- `CardAbility` (`card.dfy`): `Card.UseCard` and `Card.BuildDescription`, the
  text preview of a card's ability, as pure functions. `DescriptionLines` is a
  reference table with one row per line, and the lemmas tie `UseCard` to it.
- `Details` (`details.dfy`): the text of the isolation view's details panel.
- `Icons` (`icons.dfy`): the three icon lookups of a card display.
- `Face` (`face.dfy`): the face a card display draws (name, description,
  artwork, health and attack texts, and icons) as one value. The hand's card
  displays and the isolation view's large card draw the same face; the
  individual text and image widgets are the fields of `CardFace`.
- `Scene` (`scene.dfy`): the classes `Hand`, `CardDisplayUI` and
  `IsolationCardDisplayUI`, with the state they change in place. These three
  classes refer to each other, so they share one module. Engine objects
  become plain state:
  - a button is a value holding its active flag and its listener list;
  - the class-wide `currentlySelectedCard` is a `SelectionRegistry` object.
    Every display a hand deals holds the hand's registry (`Hand.SlotHolds`),
    so they all share it;
  - a destroyed game object is a `destroyed` flag;
  - the scale animation is a `popped` flag, holding the scale the object is
    heading for;
  - `Debug.LogWarning` and `Debug.LogError` append entries to `Hand.log`;
  - `Random.Range(0, Count)` is a nondeterministic pick of an index in
    `[0, Count)`.
  - `Hand.Valid()` is the hand's invariant: both buttons are active exactly
    when a card is selected, and then each button has one listener, bound to
    that card. `ClearHand`, `DrawCards`, `SetSelectedCard` and `DeselectCard`
    each establish it from any state.

Two consequences of the code worth stating:

- The code bounds no card stat. `AbilityParametersUnconstrained` shows that
  negative stats are allowed.
- A negative draw count draws nothing: the `for` loop at
  `Assets/Scripts/Hand.cs:57` does not run, so `DrawCards` leaves an empty hand.

## Model

| member | source | states |
|---|---|---|
| CardData.RarityOrdinal | Assets/Scripts/CardSO.cs:39-47 | each rarity's underlying value is its position in the declaration |
| CardData.OriginOrdinal | Assets/Scripts/CardSO.cs:52-58 | each origin's underlying value is its position in the declaration |
| CardData.CardTypeOrdinal | Assets/Scripts/CardSO.cs:63-69 | each ability type's underlying value is its position in the declaration |
| CardData.EvolutionOrdinal | Assets/Scripts/CardSO.cs:74-79 | each evolution stage's underlying value is its position in the declaration |
| CardData.EnumerationsAreExact | Assets/Scripts/CardSO.cs:39-79 | there are exactly 6 rarities, 4 origins, 4 ability types (None, Spawn, Stun, Heal) and 3 evolution stages, each listed once |
| CardData.RarityChain | Assets/Scripts/CardSO.cs:39-47 | Common < Uncommon < Rare < Epic < Legendary < Mythical, and this order is strict and total |
| CardData.EnumNamesInjective | Assets/Scripts/IsolationCardDisplayUI.cs:62-64 | the identifiers printed for distinct enum cases are distinct |
| CardData.AbilityParametersUnconstrained | Assets/Scripts/CardSO.cs:19-33 | a card may be a Heal card and still carry non-zero spawn and stun parameters, a spawn target, and negative health and attack |
| Text.IntToString | Assets/Scripts/Card.cs:25 | an integer's text is non-empty, has no newline, and starts with '-' exactly when the integer is negative |
| Text.IntToStringRoundTrip | Assets/Scripts/CardDisplayUI.cs:81-82 | reading an integer's text back gives the same integer |
| Text.IntToStringInjective | Assets/Scripts/IsolationCardDisplayUI.cs:65-66 | distinct integers give distinct texts |
| Text.SplitJoin | Assets/Scripts/Card.cs:23-25 | splitting lines joined with newlines, none of which contains a newline, gives back those lines |
| Text.JoinSplit | Assets/Scripts/Card.cs:52-56 | joining a text's lines with newlines gives back the text |
| CardAbility.BuildDescription | Assets/Scripts/Card.cs:50-58 | the result starts with the two base lines; it equals them exactly when the extra line is empty; otherwise a newline and the extra line follow |
| CardAbility.UseCard | Assets/Scripts/Card.cs:15-42 | the text always starts with the two base lines, and it is exactly those lines if and only if the card type is None |
| CardAbility.BaseTextIsHeader | Assets/Scripts/Card.cs:23-25 | the base text is the name line and the damage line, joined by a newline |
| CardAbility.UseCardIsJoinedLines | Assets/Scripts/Card.cs:20-41 | for every card, the text is the reference rows joined by newlines: name line, damage line, then a Spawn line (with "unit" for a missing target), a Heal line or a Stun line, or nothing for None |
| CardAbility.UseCardLines | Assets/Scripts/Card.cs:20-41 | when the names shown hold no newline, the text splits into exactly the reference rows: 2 lines for None, 3 for Spawn, Heal and Stun |
| CardAbility.UseCardIgnoresTarget | Assets/Scripts/Card.cs:13-15 | the target argument never changes the text |
| CardAbility.NoneArmMatchesDefault | Assets/Scripts/Card.cs:22-26 | the None arm gives the same text as the default arm, which builds the description with an empty extra line |
| CardAbility.GolemExample | Assets/Scripts/Card.cs:30-31 | a Heal card "Golem" with attack 4 and heal 3 reads "Golem was executed.", "Deal 4 damage to enemy units.", "Heal ally units by 3." on three lines |
| Details.TypeDetail | Assets/Scripts/IsolationCardDisplayUI.cs:69-83 | the type line starts with "Card Type: " and the type's name; it is exactly "Card Type: None" if and only if the type is None; a Spawn line ends in " | Target: " and the target's name, or "None" without a target; a Stun line ends in " | Turns: " and the turns; a Heal line ends in " | Amount: " and the amount |
| Details.Details | Assets/Scripts/IsolationCardDisplayUI.cs:61-83 | the panel's name label is the card's name; the origin, rarity and evolution lines are their labels followed by the enum identifier; the health and attack lines are their labels followed by the number; the type label is the type line |
| Details.DetailsDetermineStats | Assets/Scripts/IsolationCardDisplayUI.cs:61-66 | two cards with the same panel agree on name, origin, rarity, evolution, health and attack |
| Details.DetailsNumbersReadBack | Assets/Scripts/IsolationCardDisplayUI.cs:65-66 | the number after the "Health: " label reads back as the health, and the number after "Attack: " as the attack |
| Details.TypeDetailNumberReadsBack | Assets/Scripts/IsolationCardDisplayUI.cs:74-79 | the number after the Stun label reads back as the stun turns, and the number after the Heal label as the heal amount |
| Details.SpawnPlaceholdersDiffer | Assets/Scripts/IsolationCardDisplayUI.cs:71-73 | for a Spawn card without a target, the panel shows "Target: None" while the executed text reads "Spawn n unit unit(s)." |
| Details.SpawnPlaceholderAmbiguous | Assets/Scripts/IsolationCardDisplayUI.cs:72 | the panel shows the same line for a missing spawn target and for a target card named "None" |
| Icons.OriginIconIsItsSlot | Assets/Scripts/CardDisplayUI.cs:179-189 | `OriginIcon` gives each origin the icon slot at its own declaration position |
| Icons.RarityIconIsItsSlot | Assets/Scripts/CardDisplayUI.cs:194-206 | `RarityIcon` gives each rarity the icon slot at its own declaration position |
| Icons.EvolutionIconIsItsSlot | Assets/Scripts/CardDisplayUI.cs:211-220 | `EvolutionIcon` gives each evolution stage the icon slot at its own declaration position |
| Icons.LookupsAreTotalAndDistinct | Assets/Scripts/CardDisplayUI.cs:179-220 | with every slot set and distinct, no declared case gives an unset icon, and distinct cases give distinct icons |
| Face.FaceOf | Assets/Scripts/CardDisplayUI.cs:78-85 | the face carries the card's name, description and artwork, and its health and attack texts read back as the card's values |
| Face.FaceDeterminesStats | Assets/Scripts/IsolationCardDisplayUI.cs:51-55 | two cards drawn with the same face agree on name, description, artwork, health and attack |
| Scene.CardDisplayUI.constructor | Assets/Scripts/CardDisplayUI.cs:57-69 | a new display has the collaborators it is given, holds no card, and is neither popped nor destroyed |
| Scene.CardDisplayUI.Setup | Assets/Scripts/CardDisplayUI.cs:74-87 | the display keeps the card and draws its face (name, description, sprite, health, attack and the three icons of this display); the health and attack texts read back as the card's values; the scale, the destroyed flag and the hand are unchanged |
| Scene.CardDisplayUI.OnPointerClick | Assets/Scripts/CardDisplayUI.cs:92-104 | this display becomes the selected one and pops; a previous selection is shrunk only when it is alive and is another display; the hand, if any, selects this display and its slots, drawn cards, log and pool are unchanged |
| Scene.CardDisplayUI.OnPointerEnter | Assets/Scripts/CardDisplayUI.cs:109-113 | hovering pops the display unless it is the selected one, which is left as it was |
| Scene.CardDisplayUI.OnPointerExit | Assets/Scripts/CardDisplayUI.cs:118-122 | leaving shrinks the display unless it is the selected one, which is left as it was |
| Scene.CardDisplayUI.ResetScale | Assets/Scripts/CardDisplayUI.cs:170-174 | the display shrinks back |
| Scene.CardDisplayUI.ExecuteCardAction | Assets/Scripts/CardDisplayUI.cs:143-154 | the label receives the card's ability text, or exactly "No Card component found!" when the card script is missing |
| Scene.CardDisplayUI.ViewCardDetails | Assets/Scripts/CardDisplayUI.cs:159-165 | when there is an isolation view, it shows this display's card and becomes active while the hand view is hidden, and its scale is reset |
| Scene.IsolationCardDisplayUI.ShowCard | Assets/Scripts/IsolationCardDisplayUI.cs:48-90 | the large card draws the card's face with the icons of the display it came from, the details panel holds its details, the name reaches both, the isolation view is active, the hand view is inactive, and the scale is reset |
| Scene.Hand.constructor | Assets/Scripts/Hand.cs:24-27 | the hand keeps the pool, prefab, selection registry, isolation view and description label it is given; at start it draws `cardsToDraw` cards with the invariant established and nothing selected |
| Scene.Hand.ClearHand | Assets/Scripts/Hand.cs:32-41 | every display in the hand is destroyed and no other field of it changes, the hand is empty, nothing is selected, and both buttons are inactive with their listeners untouched |
| Scene.Hand.DrawCards | Assets/Scripts/Hand.cs:47-73 | the hand is cleared first, which changes only the destroyed flag of the old displays; with a null or empty pool it stays empty and one warning is logged; otherwise exactly max(amount, 0) new slots hold cards from the pool (repeats allowed), each with a fresh display showing its card when the prefab has one and one logged error per slot when it lacks one |
| Scene.Hand.DealCards | Assets/Scripts/Hand.cs:57-72 | starting from an empty hand and a non-empty pool, exactly max(amount, 0) slots are added; each drawn card is from the pool, repeats allowed |
| Scene.Hand.NewDisplay | Assets/Scripts/Hand.cs:61-66 | a fresh display with the prefab's icons and card-script flag, wired to this hand, its selection registry, isolation view and description label, shows the card, alive and not popped |
| Scene.Hand.AddSlot | Assets/Scripts/Hand.cs:59-71 | one more slot is added for the drawn card; a fresh display shows the card when the prefab has one, and an error is logged when it lacks one |
| Scene.Hand.SetSelectedCard | Assets/Scripts/Hand.cs:79-94 | the card is selected, both buttons are active, and each has exactly one listener, bound to that card |
| Scene.Hand.DeselectCard | Assets/Scripts/Hand.cs:99-104 | nothing is selected and both buttons are inactive; the hand is unchanged |
| Scene.ClickTwoCards | Assets/Scripts/CardDisplayUI.cs:92-104 | after clicking card A and then card B of one hand, B is selected and popped, A is shrunk back, and both buttons act on B alone; the hand's slots, drawn cards and log are unchanged |
| Scene.ClickTwoDealtCards | Assets/Scripts/CardDisplayUI.cs:54-104 | two different displays dealt by one hand share its selection: clicking the first and then the second leaves the second selected and popped, the first shrunk back, and the hand selecting the second |

## Left out

- The scale coroutines (`ScaleTo`), `Vector3.Lerp` and the frame timing are not modelled. Each object's scale is the flag `popped`, set to the scale an animation heads for. A hover animation still running after a click is not modelled.
- The isolation view's own hover handlers (`OnPointerEnter`, `OnPointerExit`) only start scale animations, so they are left out. `ShowCard`'s scale reset is modelled as `popped := false`.
- Unity's `Destroy` takes effect at the end of the frame. The model destroys at once: `ClearHand` marks each display destroyed and empties the hand before the new cards are added.
- A destroyed object compares equal to null in Unity. The model writes this as the `destroyed` flag, which `OnPointerClick` checks when it decides whether to reset the previous selection.
- `Awake` looks collaborators up by object name with `GameObject.Find`. They are given to the constructors instead.
- `Instantiate` and `GetComponent` become a prefab description: whether it has the display script and the card script, and its icon sprites.
- Scene.Hand.DrawCards: does not state that each pick is uniform. `Random.Range` is modelled as a nondeterministic choice of an index, without a distribution.
- Log messages are the entries `EmptyPoolWarning` and `MissingDisplayError`; their text is not modelled.
- `healAmount` is a C# `float`. The model keeps it as a whole number, so fractional amounts and culture-dependent float formatting are not modelled. Only whole amounts below 10^7 print as the model gives (3.0 prints as "3"): `float.ToString()` prints 10^7 and above in exponent form ("1E+07"), and not every integer above 2^24 is a `float`.
- Integer text is the invariant-culture form: an optional '-' and then digits. Other cultures' negative signs are not modelled.
- C# enums can hold values outside their declared cases. The model's enumerations are closed. `UseCard`'s default arm is therefore unreachable, since None has its own arm; in the details panel the default arm is reached only by None. The `null` arms of the icon lookups are never reached.
- Sprites and text widgets are opaque: a sprite is an asset key and a text widget is its string.
- `CardDisplayUI.ExecuteCardAction` and `CardDisplayUI.ViewCardDetails` require that the display has been set up whenever the card script or the isolation view exists. With no card data the source would throw a null-reference exception, which the model does not reproduce.
- Hand.SetSelectedCard: a null card would make the source throw after it has already changed the selection; the model's parameter is never null, as in every call in the source.
- A null element in the card pool (an empty list slot in the inspector) is not modelled: the pool is a sequence of cards. In the source such a pick reaches `Setup`, which throws a null-reference exception and ends `DrawCards` early, leaving the slots drawn so far plus one display that was never set up.
- A null `executeButton`, `viewDetailsButton` or `cardUIPrefab` is not modelled. In the source `ClearHand`, `SetSelectedCard`, `DeselectCard` and `DrawCards` would then throw.
- `Button.listeners` stands for the listeners added from script. `RemoveAllListeners` keeps listeners wired in the inspector, so the "exactly one listener" stated by `Hand.Valid()` and `SetSelectedCard` is about script-added listeners only.
- The two buttons are separate values. A scene that wires both fields to the same button is not modelled.
- `UseCardLines` assumes the card's name, and a Spawn target's name, contain no newline. A name with a newline adds lines to the text, while `UseCardIsJoinedLines` still holds for every card.
