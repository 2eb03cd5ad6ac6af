/**
 * The bookkeeping rules of the interface manager, without the DOM: the deck
 * screen's equip toggle, the shop purchase and the stat effects of shop
 * items, the toast notification queue, and the element cache.
 */
module UiRules {
  import opened Optional
  import opened Sequences
  import opened Progression

  // ---------------------------------------------------------------------
  // Deck screen: toggling a card in and out of the deck
  // ---------------------------------------------------------------------

  /** Which branch the toggle took; it decides the toast shown. */
  datatype Toggle = Unequipped | Equipped | DeckIsFull

  /**
   * An equipped card loses its first occurrence; any other card is appended
   * when the deck has room, and the deck is left alone when it is full.
   * Unlike equipCard, the toggle does not check ownership.
   */
  function ToggleEquip(equipped: seq<CardId>, id: CardId): (r: (seq<CardId>, Toggle))
    ensures r.1 == Unequipped <==> id in equipped
    ensures r.1 == Equipped <==> id !in equipped && |equipped| < MaxDeckSize
    ensures r.1 == Unequipped ==>
              var k := IndexOf(equipped, id);
              && r.0 == RemoveAt(equipped, k)
              && id !in equipped[..k]
              && multiset(r.0) == multiset(equipped) - multiset{id}
    ensures r.1 == Equipped ==> r.0 == equipped + [id]
    ensures r.1 == DeckIsFull ==> r.0 == equipped
    ensures forall c :: c in r.0 ==> c in equipped || c == id
    ensures NoDup(equipped) ==> NoDup(r.0)
    ensures |equipped| <= MaxDeckSize ==> |r.0| <= MaxDeckSize
  {
    if id in equipped then
      var index := IndexOf(equipped, id);
      var deck := RemoveAt(equipped, index);
      assert forall c :: c in deck ==> c in equipped by {
        forall c | c in deck ensures c in equipped {
          assert c in multiset(deck);
        }
      }
      (deck, Unequipped)
    else if |equipped| >= MaxDeckSize then (equipped, DeckIsFull)
    else (equipped + [id], Equipped)
  }

  /**
   * On the deck screen, which lists owned cards only, the toggle keeps the
   * state well formed: the deck stays duplicate-free, within the
   * ceiling, and made of owned cards.
   */
  lemma ToggleKeepsWf(s: Profile, id: CardId)
    requires Wf(s) && id in s.progress.ownedCards
    ensures Wf(s.(progress := s.progress.(equippedCards := ToggleEquip(s.progress.equippedCards, id).0)))
  {
  }

  // ---------------------------------------------------------------------
  // Shop: buying an offer and applying an item's effect
  // ---------------------------------------------------------------------

  /** The `effect.type` string of a shop item; unknown strings are `OtherEffect`. */
  datatype EffectType =
    | HealEffect | MaxHealthEffect | MaxManaEffect
    | StrengthEffect | DexterityEffect | IntelligenceEffect | VitalityEffect
    | OtherEffect
  datatype Effect = Effect(kind: EffectType, value: int)
  /** The `type` string of a shop offer. */
  datatype OfferKind = CardOffer | ItemOffer | OtherOffer
  datatype ShopItem = ShopItem(id: CardId, kind: OfferKind, price: int, effect: Option<Effect>)

  /**
   * The stat effect of a shop item: a maximum is raised together with its
   * current value, an attribute by itself, and nothing else changes. The
   * heal effect is delegated to the player manager and is a no-op here.
   */
  function ApplyItemEffect(p: Player, a: Attributes, item: ShopItem): (r: (Player, Attributes))
    ensures item.effect.None? ==> r == (p, a)
    ensures item.effect.Some? ==>
              var v := item.effect.value.value;
              match item.effect.value.kind
              case MaxHealthEffect => r == (p.(maxHealth := p.maxHealth + v, health := p.health + v), a)
              case MaxManaEffect => r == (p.(maxMana := p.maxMana + v, mana := p.mana + v), a)
              case StrengthEffect => r == (p, a.(strength := a.strength + v))
              case DexterityEffect => r == (p, a.(dexterity := a.dexterity + v))
              case IntelligenceEffect => r == (p, a.(intelligence := a.intelligence + v))
              case VitalityEffect => r == (p, a.(vitality := a.vitality + v))
              case HealEffect => r == (p, a)
              case OtherEffect => r == (p, a)
    ensures r.0.maxHealth - r.0.health == p.maxHealth - p.health
    ensures r.0.maxMana - r.0.mana == p.maxMana - p.mana
    ensures r.0.gold == p.gold && r.0.level == p.level && r.0.experience == p.experience
    ensures PlayerWf(p) ==> PlayerWf(r.0)
  {
    match item.effect
    case None => (p, a)
    case Some(effect) =>
      var v := effect.value;
      match effect.kind
      case HealEffect => (p, a)
      case MaxHealthEffect => (p.(maxHealth := p.maxHealth + v, health := p.health + v), a)
      case MaxManaEffect => (p.(maxMana := p.maxMana + v, mana := p.mana + v), a)
      case StrengthEffect => (p, a.(strength := a.strength + v))
      case DexterityEffect => (p, a.(dexterity := a.dexterity + v))
      case IntelligenceEffect => (p, a.(intelligence := a.intelligence + v))
      case VitalityEffect => (p, a.(vitality := a.vitality + v))
      case OtherEffect => (p, a)
  }

  /** Whether the shop charged, and the state after the purchase. */
  datatype Purchase = Purchase(done: bool, profile: Profile, attributes: Attributes)

  /**
   * A shop purchase: nothing happens when the player cannot pay; otherwise
   * the price is always charged, a card offer adds the card unless it is
   * already owned, and an item offer applies the item's effect.
   */
  function BuyShopItem(s: Profile, a: Attributes, item: ShopItem): (r: Purchase)
    ensures r.done <==> s.player.gold >= item.price
    ensures !r.done ==> r.profile == s && r.attributes == a
    ensures r.done ==> r.profile.player.gold == s.player.gold - item.price
    ensures r.profile.progress == s.progress.(ownedCards := r.profile.progress.ownedCards)
    ensures r.done && item.kind == CardOffer ==>
              r.profile.progress.ownedCards == AddMissing(s.progress.ownedCards, [item.id])
    ensures forall c :: c in r.profile.progress.ownedCards <==>
              c in s.progress.ownedCards || (r.done && item.kind == CardOffer && c == item.id)
    ensures r.done && item.kind == ItemOffer ==>
              (r.profile.player, r.attributes)
                == ApplyItemEffect(s.player.(gold := s.player.gold - item.price), a, item)
    ensures item.kind != ItemOffer ==>
              r.attributes == a && r.profile.player == s.player.(gold := r.profile.player.gold)
    ensures !(r.done && item.kind == CardOffer) ==> r.profile.progress == s.progress
    ensures Wf(s) ==> Wf(r.profile)
  {
    if s.player.gold < item.price then Purchase(false, s, a)
    else
      var paid := s.player.(gold := s.player.gold - item.price);
      match item.kind
      case CardOffer =>
        var owned := if item.id !in s.progress.ownedCards then s.progress.ownedCards + [item.id]
                     else s.progress.ownedCards;
        assert owned == AddMissing(s.progress.ownedCards, [item.id]) by {
          assert [item.id][..0] == [];
        }
        Purchase(true, Profile(paid, s.progress.(ownedCards := owned)), a)
      case ItemOffer =>
        var (p, a') := ApplyItemEffect(paid, a, item);
        Purchase(true, Profile(p, s.progress), a')
      case OtherOffer =>
        Purchase(true, Profile(paid, s.progress), a)
  }

  /**
   * The shop charges for a card offer even when the card is already owned;
   * the collection then stays as it was.
   */
  lemma ShopChargesForOwnedCard(s: Profile, a: Attributes, item: ShopItem)
    requires item.kind == CardOffer && item.id in s.progress.ownedCards
    requires s.player.gold >= item.price
    ensures var r := BuyShopItem(s, a, item);
            && r.done
            && r.profile.player.gold == s.player.gold - item.price
            && r.profile.progress == s.progress
  {
  }

  // ---------------------------------------------------------------------
  // A play session: controller operations and the interface's own updates
  // ---------------------------------------------------------------------

  /**
   * What can change the saved progress during a session: a controller
   * operation, a toggle on the deck screen (which lists owned cards only),
   * a shop purchase, or starting a new game.
   */
  datatype SessionEvent =
    | ControllerOp(action: Action)
    | ToggleOwnedCard(card: CardId)
    | ShopPurchase(item: ShopItem)
    | NewGame

  /** The state and the player manager's attributes after one session event. */
  function SessionStep(s: Profile, a: Attributes, cat: Catalog, ev: SessionEvent): (Profile, Attributes) {
    match ev
    case ControllerOp(action) => (Apply(s, cat, action), a)
    case ToggleOwnedCard(id) =>
      if id in s.progress.ownedCards
      then (s.(progress := s.progress.(equippedCards := ToggleEquip(s.progress.equippedCards, id).0)), a)
      else (s, a)
    case ShopPurchase(item) =>
      var r := BuyShopItem(s, a, item);
      (r.profile, r.attributes)
    case NewGame => (s.(player := InitialPlayer), a)
  }

  /** The state after the session events, applied in order. */
  function Session(s: Profile, a: Attributes, cat: Catalog, evs: seq<SessionEvent>): (Profile, Attributes)
    decreases |evs|
  {
    if evs == [] then (s, a)
    else
      var prev := Session(s, a, cat, evs[..|evs| - 1]);
      SessionStep(prev.0, prev.1, cat, evs[|evs| - 1])
  }

  /**
   * Every state reachable from a new game through controller operations,
   * deck toggles, shop purchases and new games is well formed.
   */
  lemma {:induction false} SessionStatesAreWf(a: Attributes, cat: Catalog, evs: seq<SessionEvent>)
    ensures Wf(Session(Profile(InitialPlayer, InitialProgress), a, cat, evs).0)
    decreases |evs|
  {
    if evs != [] {
      var prev := Session(Profile(InitialPlayer, InitialProgress), a, cat, evs[..|evs| - 1]);
      SessionStatesAreWf(a, cat, evs[..|evs| - 1]);
      match evs[|evs| - 1]
      case ControllerOp(action) =>
      case ToggleOwnedCard(id) =>
        if id in prev.0.progress.ownedCards {
          ToggleKeepsWf(prev.0, id);
        }
      case ShopPurchase(item) =>
      case NewGame =>
    }
  }

  // ---------------------------------------------------------------------
  // Toast notifications: a FIFO queue and an "a toast is on screen" flag
  // ---------------------------------------------------------------------

  const DefaultToastDuration: int := 3000

  datatype Toast = Toast(message: string, duration: int)
  datatype ToastState = ToastState(queue: seq<Toast>, showing: bool)

  /** When no toast is on screen, none is waiting. */
  predicate ToastWf(st: ToastState) {
    !st.showing ==> st.queue == []
  }

  /** The toast a request adds to the queue: none for an empty message. */
  function Requested(message: string, duration: int): seq<Toast> {
    if message == "" then [] else [Toast(message, duration)]
  }

  /**
   * Puts the front of the queue on screen, or records that nothing is
   * showing when the queue is empty. The toast shown followed by the new
   * queue is the old queue.
   */
  function ShowNextToast(st: ToastState): (r: (ToastState, Option<Toast>))
    ensures ToSeq(r.1) + r.0.queue == st.queue
    ensures r.1.Some? <==> st.queue != []
    ensures r.0.showing <==> st.queue != []
    ensures ToastWf(r.0)
  {
    if |st.queue| == 0 then (st.(showing := false), None)
    else (ToastState(st.queue[1..], true), Some(st.queue[0]))
  }

  /**
   * Queues a non-empty message and, when nothing is on screen, shows the
   * front of the queue at once.
   */
  function ShowToast(st: ToastState, message: string, duration: int): (r: (ToastState, Option<Toast>))
    ensures ToSeq(r.1) + r.0.queue == st.queue + Requested(message, duration)
    ensures message == "" ==> r == (st, None)
    ensures message != "" ==> r.0.showing
    ensures r.1.Some? <==> message != "" && !st.showing
    ensures ToastWf(st) ==> ToastWf(r.0)
  {
    if message == "" then (st, None)
    else
      var queued := st.(queue := st.queue + [Toast(message, duration)]);
      if !st.showing then ShowNextToast(queued) else (queued, None)
  }

  /** What happens to the toast system: a request, or the toast on screen finishing. */
  datatype ToastEvent = Request(message: string, duration: int) | Finished

  function Step(st: ToastState, ev: ToastEvent): (ToastState, Option<Toast>) {
    match ev
    case Request(m, d) => ShowToast(st, m, d)
    case Finished => ShowNextToast(st)
  }

  /** The toast an event asks for: none for a finished toast or an empty message. */
  function EventRequested(ev: ToastEvent): seq<Toast> {
    if ev.Request? then Requested(ev.message, ev.duration) else []
  }

  /** One event: the toast shown followed by the new queue is the old queue plus the toast requested. */
  lemma StepKeepsOrder(st: ToastState, ev: ToastEvent)
    ensures ToSeq(Step(st, ev).1) + Step(st, ev).0.queue == st.queue + EventRequested(ev)
  {
    if ev.Finished? {
      assert st.queue + EventRequested(ev) == st.queue;
    }
  }

  /** The toasts requested by `evs`, in request order. */
  function AllRequested(evs: seq<ToastEvent>): seq<Toast>
    decreases |evs|
  {
    if evs == [] then []
    else AllRequested(evs[..|evs| - 1]) + EventRequested(evs[|evs| - 1])
  }

  /** The state after `evs`, and the toasts put on screen, in display order. */
  function Run(st: ToastState, evs: seq<ToastEvent>): (ToastState, seq<Toast>)
    decreases |evs|
  {
    if evs == [] then (st, [])
    else
      var prev := Run(st, evs[..|evs| - 1]);
      var next := Step(prev.0, evs[|evs| - 1]);
      (next.0, prev.1 + ToSeq(next.1))
  }

  /**
   * First in, first out: whatever happens, the toasts displayed followed by
   * those still waiting are exactly the ones waiting at the start followed
   * by the ones requested, in request order. No toast is lost, duplicated
   * or reordered.
   */
  lemma {:induction false} ToastsAreFifo(st: ToastState, evs: seq<ToastEvent>)
    ensures Run(st, evs).1 + Run(st, evs).0.queue == st.queue + AllRequested(evs)
    decreases |evs|
  {
    if evs != [] {
      var init, ev := evs[..|evs| - 1], evs[|evs| - 1];
      ToastsAreFifo(st, init);
      var mid, shown := Run(st, init).0, Run(st, init).1;
      StepKeepsOrder(mid, ev);
      Regroup(shown, ToSeq(Step(mid, ev).1), Step(mid, ev).0.queue, mid.queue, EventRequested(ev),
              st.queue + AllRequested(init));
    }
  }

  /** Moving the middle part of a concatenation across a split point. */
  lemma Regroup<T>(shown: seq<T>, now: seq<T>, rest: seq<T>, before: seq<T>, added: seq<T>, total: seq<T>)
    requires now + rest == before + added
    requires shown + before == total
    ensures (shown + now) + rest == total + added
  {
    calc {
      (shown + now) + rest;
      shown + (now + rest);
      shown + (before + added);
      (shown + before) + added;
    }
  }

  /** "Nothing on screen implies nothing waiting" holds after any events. */
  lemma {:induction false} ToastWfIsInvariant(st: ToastState, evs: seq<ToastEvent>)
    requires ToastWf(st)
    ensures ToastWf(Run(st, evs).0)
    decreases |evs|
  {
    if evs != [] {
      ToastWfIsInvariant(st, evs[..|evs| - 1]);
    }
  }

  // ---------------------------------------------------------------------
  // Element cache
  // ---------------------------------------------------------------------

  /** Opaque handle of a DOM element. */
  type Element = nat

  /**
   * Looks an element up by id: a cached element is returned without a new
   * lookup; otherwise `dom` (the document at this moment) is asked, and only
   * an element that was found is cached. Cached entries are never replaced.
   */
  function GetElement(cache: map<string, Element>, dom: map<string, Element>, id: string)
    : (r: (map<string, Element>, Option<Element>))
    ensures id in cache ==> r == (cache, Some(cache[id]))
    ensures id !in cache ==> r.1 == (if id in dom then Some(dom[id]) else None)
    ensures r.1.Some? ==> id in r.0 && r.0[id] == r.1.value
    ensures r.1.None? ==> r.0 == cache
    ensures r.0.Keys <= cache.Keys + {id}
    ensures forall k :: k in cache ==> k in r.0 && r.0[k] == cache[k]
  {
    if id in cache then (cache, Some(cache[id]))
    else if id in dom then (cache[id := dom[id]], Some(dom[id]))
    else (cache, None)
  }

  /**
   * Once an id has been found, every later lookup of it returns the same
   * element whatever the document then holds, and leaves the cache alone.
   */
  lemma CachedElementIsStable(cache: map<string, Element>, dom: map<string, Element>,
                              later: map<string, Element>, id: string)
    requires GetElement(cache, dom, id).1.Some?
    ensures var (cache', e) := GetElement(cache, dom, id);
            GetElement(cache', later, id) == (cache', e)
  {
  }
}
