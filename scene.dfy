/**
 * The stateful part of the hand UI: the hand manager, the card displays it
 * instantiates, and the isolation (detail) view. The three refer to each
 * other, so they share one module.
 *
 * Engine objects become plain state: a button is its active flag and its
 * listener list, a destroyed game object is a `destroyed` flag, the hover
 * and selection scale animations are a `popped` flag holding the scale an
 * object is heading for, and log calls are entries appended to `log`.
 */
module Scene {
  import opened Wrappers
  import opened CardData
  import opened Text
  import CardAbility
  import Details
  import Icons
  import Face

  /** A click listener on a button: a handler bound to one card display. */
  datatype Listener = ExecuteCardAction(display: CardDisplayUI) | ViewCardDetails(display: CardDisplayUI)

  /** A button: whether its game object is active, and its click listeners in order. */
  datatype Button = Button(active: bool, listeners: seq<Listener>)

  /** A child of the hand's container: a card prefab instance, with or without its display script. */
  datatype Slot = Displayed(display: CardDisplayUI) | Bare

  datatype LogEntry = EmptyPoolWarning | MissingDisplayError

  /** How the card prefab is built: whether it carries the display and card scripts, and its icons. */
  datatype Prefab = Prefab(hasDisplay: bool, hasCardComponent: bool, icons: Icons.IconSet)

  /** A text label. */
  class TextLabel {
    var text: string

    constructor (text: string)
      ensures this.text == text
    {
      this.text := text;
    }
  }

  /** The class-wide "currently selected card" that all card displays share. */
  class SelectionRegistry {
    var current: CardDisplayUI?

    constructor ()
      ensures current == null
    {
      current := null;
    }
  }

  function Max0(n: int): nat {
    if n < 0 then 0 else n
  }

  /** The pool is absent (a null list) or empty. */
  predicate NoCards(pool: Option<seq<Card>>) {
    pool.None? || |pool.value| == 0
  }

  function MissingDisplayErrors(n: nat): (errors: seq<LogEntry>)
    ensures |errors| == n && forall i | 0 <= i < n :: errors[i] == MissingDisplayError
  {
    if n == 0 then [] else MissingDisplayErrors(n - 1) + [MissingDisplayError]
  }

  /** One card in the hand. */
  class CardDisplayUI {
    var cardData: Option<Card>
    /** The name, description, artwork, stat texts and icons drawn on the card. */
    var face: Face.CardFace
    var popped: bool
    var destroyed: bool
    var hand: Hand?
    const icons: Icons.IconSet
    const registry: SelectionRegistry
    const isolation: IsolationCardDisplayUI?
    const executeDescription: TextLabel
    const hasCardComponent: bool
    const gameObject: CardAbility.GameObject

    /**
     * Instantiation followed by Awake: the collaborators that Awake looks up
     * by name are given here.
     */
    constructor (icons: Icons.IconSet, registry: SelectionRegistry, hand: Hand?,
                 isolation: IsolationCardDisplayUI?, executeDescription: TextLabel,
                 hasCardComponent: bool, gameObject: CardAbility.GameObject)
      ensures this.icons == icons && this.registry == registry && this.hand == hand
      ensures this.isolation == isolation && this.executeDescription == executeDescription
      ensures this.hasCardComponent == hasCardComponent && this.gameObject == gameObject
      ensures cardData == Option.None && !popped && !destroyed
    {
      this.icons := icons;
      this.registry := registry;
      this.hand := hand;
      this.isolation := isolation;
      this.executeDescription := executeDescription;
      this.hasCardComponent := hasCardComponent;
      this.gameObject := gameObject;
      cardData := Option.None;
      face := Face.Blank;
      popped, destroyed := false, false;
    }

    /** The display holds `card` and draws its face with this display's icons. */
    ghost predicate Shows(card: Card)
      reads this
    {
      cardData == Some(card) && face == Face.FaceOf(card, icons)
    }

    /** Stores `card` and draws its face; the health and attack texts read back as the card's stats. */
    method Setup(card: Card)
      modifies this
      ensures Shows(card)
      ensures ParseInt(face.health) == Some(card.health as int) && ParseInt(face.attack) == Some(card.attack as int)
      ensures popped == old(popped) && destroyed == old(destroyed) && hand == old(hand)
    {
      cardData := Some(card);
      face := Face.FaceOf(card, icons);
    }

    /** The previously selected display, when there is one. */
    ghost function Previous(): set<CardDisplayUI>
      reads this, registry
    {
      if registry.current == null then {} else {registry.current}
    }

    /**
     * A click: the previously selected display, if it is still alive and is
     * another one, shrinks back; this display becomes the selected one and
     * pops; the hand, if there is one, selects it.
     */
    method OnPointerClick()
      modifies this`popped, registry, Previous()`popped, hand
      ensures registry.current == this && popped
      ensures var prev := old(registry.current);
        prev != null && prev != this && !prev.destroyed ==> !prev.popped
      ensures var prev := old(registry.current);
        prev != null && prev != this && prev.destroyed ==> prev.popped == old(prev.popped)
      ensures hand != null ==>
        && hand.Valid()
        && hand.selectedCard == this
        && hand.executeButton == Button(true, [Listener.ExecuteCardAction(this)])
        && hand.viewDetailsButton == Button(true, [Listener.ViewCardDetails(this)])
        && hand.slots == old(hand.slots) && hand.drawn == old(hand.drawn)
        && hand.log == old(hand.log) && hand.pool == old(hand.pool)
    {
      var prev := registry.current;
      if prev != null && !prev.destroyed && prev != this {
        prev.ResetScale();
      }
      registry.current := this;
      popped := true;
      if hand != null {
        hand.SetSelectedCard(this);
      }
    }

    /** Hovering pops the display, unless it is the selected one. */
    method OnPointerEnter()
      modifies this`popped
      ensures popped == (registry.current != this || old(popped))
    {
      if registry.current != this {
        popped := true;
      }
    }

    /** Leaving shrinks the display back, unless it is the selected one. */
    method OnPointerExit()
      modifies this`popped
      ensures popped == (registry.current == this && old(popped))
    {
      if registry.current != this {
        popped := false;
      }
    }

    method ResetScale()
      modifies this`popped
      ensures !popped
    {
      popped := false;
    }

    /**
     * The execute button's handler: the card script's description of this
     * display's card, or a fallback message when the prefab has no card
     * script. The card script reads the card, so the display must have been
     * set up.
     */
    method ExecuteCardAction()
      requires hasCardComponent ==> cardData.Some?
      modifies executeDescription
      ensures hasCardComponent ==> executeDescription.text == CardAbility.UseCard(cardData.value, gameObject)
      ensures !hasCardComponent ==> executeDescription.text == "No Card component found!"
    {
      if hasCardComponent {
        executeDescription.text := CardAbility.UseCard(cardData.value, gameObject);
      } else {
        executeDescription.text := "No Card component found!";
      }
    }

    /** The view-details button's handler: shows this display's card in the isolation view. */
    method ViewCardDetails()
      requires isolation != null ==> cardData.Some?
      modifies isolation
      ensures isolation != null ==>
        && isolation.Shows(cardData.value, icons)
        && isolation.isolationViewActive && !isolation.handViewActive
        && !isolation.popped
    {
      if isolation != null {
        isolation.ShowCard(cardData.value, this);
      }
    }
  }

  /** The isolation view: a large copy of one card and its details panel. */
  class IsolationCardDisplayUI {
    /** The name, description, artwork, stat texts and icons drawn on the card. */
    var face: Face.CardFace
    var panel: Details.DetailsText
    var isolationViewActive: bool
    var handViewActive: bool
    var popped: bool

    constructor ()
      ensures !isolationViewActive && handViewActive && !popped
    {
      face := Face.Blank;
      panel := Details.DetailsText("", "", "", "", "", "", "");
      isolationViewActive, handViewActive, popped := false, true, false;
    }

    /** The large card draws `card`'s face with the given icons, and the panel holds its details. */
    ghost predicate Shows(card: Card, icons: Icons.IconSet)
      reads this
    {
      face == Face.FaceOf(card, icons) && panel == Details.Details(card)
    }

    /**
     * Fills the large card and the details panel from `card`, takes the
     * icons from the display the card came from, shows the isolation view,
     * hides the hand view and resets this view's scale.
     */
    method ShowCard(card: Card, display: CardDisplayUI)
      modifies this
      ensures Shows(card, display.icons)
      ensures face.name == panel.name == card.name
      ensures isolationViewActive && !handViewActive && !popped
    {
      face := Face.FaceOf(card, display.icons);
      panel := Details.Details(card);
      isolationViewActive := true;
      handViewActive := false;
      popped := false;
    }
  }

  /** The hand manager: the drawn cards, the selection and the two action buttons. */
  class Hand {
    const cardsToDraw: Int32
    const pool: Option<seq<Card>>
    const prefab: Prefab
    const registry: SelectionRegistry
    const isolation: IsolationCardDisplayUI?
    const executeDescription: TextLabel
    var slots: seq<Slot>
    /** The card drawn for each slot, including slots whose prefab lacks a display. */
    ghost var drawn: seq<Card>
    var selectedCard: CardDisplayUI?
    var executeButton: Button
    var viewDetailsButton: Button
    var log: seq<LogEntry>

    /**
     * The buttons are active exactly when a card is selected, and then each
     * has a single listener, bound to the selected card.
     */
    ghost predicate Valid()
      reads this
    {
      && executeButton.active == (selectedCard != null)
      && viewDetailsButton.active == (selectedCard != null)
      && (selectedCard != null ==>
            && executeButton.listeners == [ExecuteCardAction(selectedCard)]
            && viewDetailsButton.listeners == [ViewCardDetails(selectedCard)])
    }

    /** The card displays in the hand. */
    ghost function Displays(): set<CardDisplayUI>
      reads this
    {
      set i | 0 <= i < |slots| && slots[i].Displayed? :: slots[i].display
    }

    /**
     * A slot drawn for `card`: it has a display exactly when the prefab has
     * one, and that display shows the card, belongs to this hand, and is
     * alive and not popped. It is an instance of the prefab (its icons and
     * whether it carries the card script) wired to this hand's collaborators:
     * the shared selection, the isolation view and the description label.
     */
    ghost predicate SlotHolds(slot: Slot, card: Card)
      reads if slot.Displayed? then {slot.display} else {}
    {
      && slot.Displayed? == prefab.hasDisplay
      && (slot.Displayed? ==>
            && slot.display.Shows(card) && slot.display.hand == this
            && !slot.display.destroyed && !slot.display.popped
            && slot.display.icons == prefab.icons
            && slot.display.hasCardComponent == prefab.hasCardComponent
            && slot.display.registry == registry
            && slot.display.isolation == isolation
            && slot.display.executeDescription == executeDescription)
    }

    /**
     * The hand holds `n` freshly set-up slots: each drawn card is from the
     * pool, each slot has a display exactly when the prefab has one, each
     * display shows its drawn card and refers back to this hand, no two slots
     * share a display, and one error was logged per slot without a display.
     */
    ghost predicate Dealt(n: nat, logBefore: seq<LogEntry>)
      reads this, Displays()
      requires pool.Some?
    {
      && |slots| == n && |drawn| == n
      && (forall i | 0 <= i < n :: drawn[i] in pool.value)
      && (forall i | 0 <= i < n :: SlotHolds(slots[i], drawn[i]))
      && (forall i, j | 0 <= i < j < n && slots[i].Displayed? && slots[j].Displayed? ::
            slots[i].display != slots[j].display)
      && log == logBefore + MissingDisplayErrors(if prefab.hasDisplay then 0 else n)
    }

    /** Loading the scene and Start: the hand draws `cardsToDraw` cards. */
    constructor (cardsToDraw: Int32, pool: Option<seq<Card>>, prefab: Prefab,
                 registry: SelectionRegistry, isolation: IsolationCardDisplayUI?,
                 executeDescription: TextLabel, executeButton: Button, viewDetailsButton: Button)
      ensures Valid() && selectedCard == null
      ensures this.pool == pool && this.prefab == prefab && this.cardsToDraw == cardsToDraw
      ensures this.registry == registry && this.isolation == isolation
      ensures this.executeDescription == executeDescription
      ensures NoCards(pool) ==> slots == [] && log == [EmptyPoolWarning]
      ensures !NoCards(pool) ==> Dealt(Max0(cardsToDraw as int), [])
    {
      this.cardsToDraw := cardsToDraw;
      this.pool := pool;
      this.prefab := prefab;
      this.registry := registry;
      this.isolation := isolation;
      this.executeDescription := executeDescription;
      this.executeButton := executeButton;
      this.viewDetailsButton := viewDetailsButton;
      slots, drawn, selectedCard, log := [], [], null, [];
      new;
      DrawCards(cardsToDraw);
    }

    /** Destroys every card in the hand, clears the selection and hides both buttons. */
    method ClearHand()
      modifies this, Displays()`destroyed
      ensures slots == [] && drawn == [] && selectedCard == null
      ensures executeButton == old(executeButton).(active := false)
      ensures viewDetailsButton == old(viewDetailsButton).(active := false)
      ensures Valid()
      ensures log == old(log)
      ensures forall d | d in old(Displays()) :: d.destroyed
    {
      for i := 0 to |slots|
        invariant forall j | 0 <= j < i && slots[j].Displayed? :: slots[j].display.destroyed
        modifies Displays()`destroyed
      {
        match slots[i]
        case Displayed(d) => d.destroyed := true;
        case Bare =>
      }
      slots, drawn := [], [];
      selectedCard := null;
      executeButton := executeButton.(active := false);
      viewDetailsButton := viewDetailsButton.(active := false);
    }

    /**
     * Clears the hand, then, unless the pool is absent or empty (which only
     * logs a warning), draws `amount` cards (none when `amount` is negative),
     * each picked uniformly with replacement from the pool.
     */
    method DrawCards(amount: Int32)
      modifies this, Displays()`destroyed
      ensures Valid() && selectedCard == null
      ensures executeButton == old(executeButton).(active := false)
      ensures viewDetailsButton == old(viewDetailsButton).(active := false)
      ensures forall d | d in old(Displays()) :: d.destroyed
      ensures NoCards(pool) ==> slots == [] && drawn == [] && log == old(log) + [EmptyPoolWarning]
      ensures !NoCards(pool) ==> Dealt(Max0(amount as int), old(log))
      ensures forall s | s in slots && s.Displayed? :: fresh(s.display)
    {
      ClearHand();
      if pool.None? || |pool.value| == 0 {
        log := log + [EmptyPoolWarning];
        return;
      }
      DealCards(amount);
    }

    /** The draw loop: `amount` picks from the non-empty pool into the empty hand. */
    method DealCards(amount: Int32)
      requires !NoCards(pool) && slots == [] && drawn == []
      modifies this
      ensures Dealt(Max0(amount as int), old(log))
      ensures forall s | s in slots && s.Displayed? :: fresh(s.display)
      ensures selectedCard == old(selectedCard)
      ensures executeButton == old(executeButton) && viewDetailsButton == old(viewDetailsButton)
    {
      var cards := pool.value;
      ghost var logBefore := log;
      var i: int := 0;
      assert Dealt(0, logBefore);
      while i < amount as int
        invariant 0 <= i <= Max0(amount as int)
        invariant Dealt(i, logBefore)
        invariant forall s | s in slots && s.Displayed? :: fresh(s.display)
        invariant selectedCard == old(selectedCard)
        invariant executeButton == old(executeButton) && viewDetailsButton == old(viewDetailsButton)
      {
        var pick :| 0 <= pick < |cards|;
        var _ := AddSlot(cards[pick], i, logBefore);
        i := i + 1;
      }
    }

    /**
     * One iteration of the draw loop: instantiates the prefab as a new child
     * and, when it has a display, sets the display up with `card`; otherwise
     * logs an error. The slot is created either way.
     */
    method AddSlot(card: Card, index: nat, ghost logBefore: seq<LogEntry>) returns (slot: Slot)
      requires pool.Some? && card in pool.value
      requires Dealt(|slots|, logBefore)
      modifies this
      ensures Dealt(|old(slots)| + 1, logBefore)
      ensures slots == old(slots) + [slot] && drawn == old(drawn) + [card]
      ensures slot.Displayed? ==> fresh(slot.display)
      ensures selectedCard == old(selectedCard)
      ensures executeButton == old(executeButton) && viewDetailsButton == old(viewDetailsButton)
    {
      ghost var n := |slots|;
      if prefab.hasDisplay {
        var display := NewDisplay(card, index);
        slot := Displayed(display);
      } else {
        slot := Bare;
        log := log + [MissingDisplayError];
        assert MissingDisplayErrors(n + 1) == MissingDisplayErrors(n) + [MissingDisplayError];
      }
      slots := slots + [slot];
      drawn := drawn + [card];
    }

    /** Instantiates the prefab's display as a child of this hand and sets it up with `card`. */
    method NewDisplay(card: Card, index: nat) returns (display: CardDisplayUI)
      requires prefab.hasDisplay
      ensures fresh(display) && SlotHolds(Displayed(display), card)
    {
      display := new CardDisplayUI(prefab.icons, registry, this, isolation, executeDescription,
                                   prefab.hasCardComponent, CardAbility.GameObject(index));
      display.Setup(card);
    }

    /** Selects `card`: both buttons become active and each is rebound to `card` alone. */
    method SetSelectedCard(card: CardDisplayUI)
      modifies this
      ensures Valid() && selectedCard == card
      ensures executeButton == Button(true, [ExecuteCardAction(card)])
      ensures viewDetailsButton == Button(true, [ViewCardDetails(card)])
      ensures slots == old(slots) && drawn == old(drawn) && log == old(log)
    {
      selectedCard := card;
      executeButton := executeButton.(active := true);
      viewDetailsButton := viewDetailsButton.(active := true);
      executeButton := executeButton.(listeners := []);
      viewDetailsButton := viewDetailsButton.(listeners := []);
      executeButton := executeButton.(listeners := executeButton.listeners + [ExecuteCardAction(card)]);
      viewDetailsButton := viewDetailsButton.(listeners := viewDetailsButton.listeners + [ViewCardDetails(card)]);
    }

    /** Clears the selection and hides both buttons; the hand is unchanged. */
    method DeselectCard()
      modifies this
      ensures Valid() && selectedCard == null
      ensures executeButton == old(executeButton).(active := false)
      ensures viewDetailsButton == old(viewDetailsButton).(active := false)
      ensures slots == old(slots) && drawn == old(drawn) && log == old(log)
    {
      selectedCard := null;
      executeButton := executeButton.(active := false);
      viewDetailsButton := viewDetailsButton.(active := false);
    }
  }

  /**
   * Clicking card `a` and then card `b` of the same hand: `b` ends up
   * selected and popped, `a` is shrunk back, and both buttons act on `b`
   * alone.
   */
  method ClickTwoCards(a: CardDisplayUI, b: CardDisplayUI)
    requires a != b && a.registry == b.registry && a.hand == b.hand
    requires !a.destroyed
    modifies a`popped, b`popped, a.Previous()`popped, a.registry, a.hand
    ensures a.registry.current == b && b.popped && !a.popped
    ensures a.hand != null ==>
      && a.hand.Valid() && a.hand.selectedCard == b
      && a.hand.executeButton.listeners == [Listener.ExecuteCardAction(b)]
      && a.hand.viewDetailsButton.listeners == [Listener.ViewCardDetails(b)]
      && a.hand.slots == old(a.hand.slots) && a.hand.drawn == old(a.hand.drawn)
      && a.hand.log == old(a.hand.log)
  {
    a.OnPointerClick();
    b.OnPointerClick();
  }

  /**
   * Clicking two different displays that one hand dealt: they share the
   * hand's selection, so the second click shrinks the first display and the
   * buttons act on the second alone.
   */
  method ClickTwoDealtCards(h: Hand, i: nat, j: nat, ghost logBefore: seq<LogEntry>)
    requires h.pool.Some? && h.Dealt(|h.slots|, logBefore)
    requires i < |h.slots| && j < |h.slots| && i != j && h.prefab.hasDisplay
    modifies h.slots[i].display`popped, h.slots[j].display`popped, h.slots[i].display.Previous()`popped
    modifies h.registry, h
    ensures h.slots == old(h.slots) && h.drawn == old(h.drawn) && h.log == old(h.log)
    ensures h.registry.current == h.slots[j].display
    ensures h.slots[j].display.popped && !h.slots[i].display.popped
    ensures h.Valid() && h.selectedCard == h.slots[j].display
  {
    var a, b := h.slots[i].display, h.slots[j].display;
    assert h.SlotHolds(h.slots[i], h.drawn[i]) && h.SlotHolds(h.slots[j], h.drawn[j]);
    if i < j {
      assert a != b;
    } else {
      assert b != a;
    }
    ClickTwoCards(a, b);
  }
}
