/**
 * The interface manager object, reduced to the state it keeps besides the
 * DOM: the toast queue and its flag, and the element cache. Its deck and
 * shop handlers update the game controller's state in place; each method is
 * proved against its rule in `UiRules`. The timer that ends a toast is an
 * explicit call of `ShowNextToast`.
 */
module Ui {
  import opened Optional
  import opened Sequences
  import opened Progression
  import opened Controller
  import opened UiRules

  /** The toast a deck toggle shows. */
  function ToggleMessage(texts: UiTexts, t: Toggle): string {
    match t
    case Unequipped => texts.cardUnequipped
    case Equipped => texts.cardEquipped
    case DeckIsFull => texts.deckFull
  }

  /** The toast a shop purchase shows, if any. */
  function ShopMessage(texts: UiTexts, item: ShopItem, done: bool): Option<string> {
    if !done then Some(texts.notEnoughGold)
    else match item.kind
      case CardOffer => Some(texts.cardPurchased)
      case ItemOffer => Some(texts.itemPurchased)
      case OtherOffer => None
  }

  class UIManager {
    const gameController: GameController
    var toastQueue: seq<Toast>
    var isShowingToast: bool
    var uiElements: map<string, Element>

    function Toasts(): ToastState
      reads this
    {
      ToastState(toastQueue, isShowingToast)
    }

    predicate Valid()
      reads this
    {
      ToastWf(Toasts())
    }

    constructor (gameController: GameController)
      ensures this.gameController == gameController
      ensures toastQueue == [] && !isShowingToast && uiElements == map[]
      ensures Valid()
    {
      this.gameController := gameController;
      toastQueue := [];
      isShowingToast := false;
      uiElements := map[];
    }

    /** Queues a toast; `shown` is the toast put on screen by this call, if any. */
    method ShowToast(message: string, duration: int) returns (shown: Option<Toast>)
      modifies this`toastQueue, this`isShowingToast
      ensures (Toasts(), shown) == UiRules.ShowToast(old(Toasts()), message, duration)
      ensures old(Valid()) ==> Valid()
    {
      if message == "" {
        return None;
      }
      toastQueue := toastQueue + [Toast(message, duration)];
      shown := None;
      if !isShowingToast {
        shown := ShowNextToast();
      }
    }

    /** Shows the next queued toast; called when the toast on screen has finished. */
    method ShowNextToast() returns (shown: Option<Toast>)
      modifies this`toastQueue, this`isShowingToast
      ensures (Toasts(), shown) == UiRules.ShowNextToast(old(Toasts()))
      ensures Valid()
    {
      if |toastQueue| == 0 {
        isShowingToast := false;
        return None;
      }
      isShowingToast := true;
      var toast := toastQueue[0];
      toastQueue := toastQueue[1..];
      return Some(toast);
    }

    method ToggleCardEquip(cardId: CardId)
      modifies this`toastQueue, this`isShowingToast, gameController`progress
      ensures var (deck, outcome) := ToggleEquip(old(gameController.progress.equippedCards), cardId);
              && gameController.progress == old(gameController.progress).(equippedCards := deck)
              && Toasts() == UiRules.ShowToast(old(Toasts()), ToggleMessage(gameController.texts, outcome),
                                               DefaultToastDuration).0
      ensures old(gameController.Valid()) && old(cardId in gameController.progress.ownedCards) ==>
                gameController.Valid()
      ensures old(Valid()) ==> Valid()
    {
      var equippedCards := gameController.progress.equippedCards;
      var texts := gameController.texts;
      ghost var before := gameController.Snapshot();
      ghost var toggled := ToggleEquip(equippedCards, cardId);
      if cardId in equippedCards {
        var index := IndexOf(equippedCards, cardId);
        if index != -1 {
          gameController.progress := gameController.progress.(equippedCards := RemoveAt(equippedCards, index));
        }
        assert toggled.1 == Unequipped && gameController.progress.equippedCards == toggled.0;
        var _ := ShowToast(texts.cardUnequipped, DefaultToastDuration);
      } else {
        if |equippedCards| >= MaxDeckSize {
          assert toggled.1 == DeckIsFull;
          var _ := ShowToast(texts.deckFull, DefaultToastDuration);
          return;
        }
        gameController.progress := gameController.progress.(equippedCards := equippedCards + [cardId]);
        assert toggled.1 == Equipped;
        var _ := ShowToast(texts.cardEquipped, DefaultToastDuration);
      }
      assert gameController.Snapshot() == before.(progress := before.progress.(equippedCards := toggled.0));
      if Wf(before) && cardId in before.progress.ownedCards {
        ToggleKeepsWf(before, cardId);
      }
    }

    method BuyShopItem(item: ShopItem)
      modifies this`toastQueue, this`isShowingToast
      modifies gameController`player, gameController`progress, gameController`attributes
      ensures var r := UiRules.BuyShopItem(old(gameController.Snapshot()), old(gameController.attributes), item);
              && gameController.Snapshot() == r.profile
              && gameController.attributes == r.attributes
              && Toasts() == match ShopMessage(gameController.texts, item, r.done)
                             case Some(m) => UiRules.ShowToast(old(Toasts()), m, DefaultToastDuration).0
                             case None => old(Toasts())
      ensures old(gameController.Valid()) ==> gameController.Valid()
      ensures old(Valid()) ==> Valid()
    {
      var texts := gameController.texts;
      ghost var bought := UiRules.BuyShopItem(gameController.Snapshot(), gameController.attributes, item);
      if gameController.player.gold < item.price {
        var _ := ShowToast(texts.notEnoughGold, DefaultToastDuration);
        return;
      }
      gameController.player := gameController.player.(gold := gameController.player.gold - item.price);
      if item.kind == CardOffer {
        if item.id !in gameController.progress.ownedCards {
          gameController.progress := gameController.progress.(ownedCards := gameController.progress.ownedCards + [item.id]);
        }
        assert gameController.Snapshot() == bought.profile && gameController.attributes == bought.attributes;
        var _ := ShowToast(texts.cardPurchased, DefaultToastDuration);
      } else if item.kind == ItemOffer {
        ApplyItemEffect(item);
        assert gameController.Snapshot() == bought.profile && gameController.attributes == bought.attributes;
        var _ := ShowToast(texts.itemPurchased, DefaultToastDuration);
      }
    }

    method ApplyItemEffect(item: ShopItem)
      modifies gameController`player, gameController`attributes
      ensures (gameController.player, gameController.attributes)
                == UiRules.ApplyItemEffect(old(gameController.player), old(gameController.attributes), item)
    {
      if item.effect.None? {
        return;
      }
      var value := item.effect.value.value;
      match item.effect.value.kind {
        case HealEffect =>
        case MaxHealthEffect =>
          gameController.player := gameController.player.(maxHealth := gameController.player.maxHealth + value);
          gameController.player := gameController.player.(health := gameController.player.health + value);
        case MaxManaEffect =>
          gameController.player := gameController.player.(maxMana := gameController.player.maxMana + value);
          gameController.player := gameController.player.(mana := gameController.player.mana + value);
        case StrengthEffect =>
          gameController.attributes := gameController.attributes.(strength := gameController.attributes.strength + value);
        case DexterityEffect =>
          gameController.attributes := gameController.attributes.(dexterity := gameController.attributes.dexterity + value);
        case IntelligenceEffect =>
          gameController.attributes := gameController.attributes.(intelligence := gameController.attributes.intelligence + value);
        case VitalityEffect =>
          gameController.attributes := gameController.attributes.(vitality := gameController.attributes.vitality + value);
        case OtherEffect =>
      }
    }

    /** `dom` is the document's id-to-element table at the time of the call. */
    method GetElement(id: string, dom: map<string, Element>) returns (element: Option<Element>)
      modifies this`uiElements
      ensures (uiElements, element) == UiRules.GetElement(old(uiElements), dom, id)
    {
      if id in uiElements {
        return Some(uiElements[id]);
      }
      element := if id in dom then Some(dom[id]) else None;
      if element.Some? {
        uiElements := uiElements[id := element.value];
      }
    }
  }
}
