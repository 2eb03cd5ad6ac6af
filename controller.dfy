/**
 * The game controller object: the mutable game state (screen, player,
 * battle piles and flags, saved progress, the player's attribute stats),
 * the event registry, and the controller operations that update the state
 * in place. Every progression operation is proved against its rule in
 * `Progression`; sounds, saving, logging and toasts emitted by the
 * controller are side effects on other objects and are not modelled.
 */
module Controller {
  import opened Sequences
  import opened Progression

  /** Opaque handle of a registered callback function. */
  type Callback = nat

  datatype Screen = MainMenu | LevelSelect | Battle | GameOver | Shop | Deck | SettingsScreen | AchievementsScreen | Credits

  /** The battle piles, cards named by id. */
  datatype Piles = Piles(deck: seq<CardId>, hand: seq<CardId>, discardPile: seq<CardId>)

  datatype BattleFlags = BattleFlags(isPlayerTurn: bool, isGameOver: bool, isVictory: bool)

  /** The interface strings the deck and shop screens show as toasts. */
  datatype UiTexts = UiTexts(
    cardEquipped: string, cardUnequipped: string, deckFull: string,
    notEnoughGold: string, cardPurchased: string, itemPurchased: string)

  const EmptyPiles := Piles([], [], [])
  const InitialBattle := BattleFlags(true, false, false)

  /** The callbacks registered for `event`, in registration order. */
  function Dispatch(registry: map<string, seq<Callback>>, event: string): seq<Callback> {
    if event in registry then registry[event] else []
  }

  /**
   * The registry after `callback` is added for `event`: it is called after
   * every callback registered before it, and no other event is affected.
   */
  function Register(registry: map<string, seq<Callback>>, event: string, callback: Callback)
    : (r: map<string, seq<Callback>>)
    ensures Dispatch(r, event) == Dispatch(registry, event) + [callback]
    ensures forall e :: e != event ==> Dispatch(r, e) == Dispatch(registry, e)
    ensures r.Keys == registry.Keys + {event}
  {
    registry[event := Dispatch(registry, event) + [callback]]
  }

  class GameController {
    const catalog: Catalog
    const texts: UiTexts

    var currentScreen: Screen
    var player: Player
    var cards: Piles
    var battle: BattleFlags
    var progress: Progress
    /** The player manager's attribute stats. */
    var attributes: Attributes
    var eventListeners: map<string, seq<Callback>>

    /** The part of the state the progression rules speak about. */
    function Snapshot(): Profile
      reads this
    {
      Profile(player, progress)
    }

    predicate Valid()
      reads this
    {
      Wf(Snapshot())
    }

    constructor (catalog: Catalog, texts: UiTexts, attributes: Attributes)
      ensures this.catalog == catalog && this.texts == texts && this.attributes == attributes
      ensures currentScreen == MainMenu && cards == EmptyPiles && battle == InitialBattle
      ensures player == InitialPlayer && progress == InitialProgress
      ensures eventListeners == map[]
      ensures Valid()
    {
      this.catalog := catalog;
      this.texts := texts;
      this.attributes := attributes;
      currentScreen := MainMenu;
      player := InitialPlayer;
      cards := EmptyPiles;
      battle := InitialBattle;
      progress := InitialProgress;
      eventListeners := map[];
    }

    /** The callbacks that `TriggerEvent(event, _)` calls, in order. */
    function Listeners(event: string): seq<Callback>
      reads this
    {
      Dispatch(eventListeners, event)
    }

    method AddEventListener(event: string, callback: Callback)
      modifies this`eventListeners
      ensures eventListeners == Register(old(eventListeners), event, callback)
      ensures Listeners(event) == old(Listeners(event)) + [callback]
    {
      if event !in eventListeners {
        eventListeners := eventListeners[event := []];
      }
      eventListeners := eventListeners[event := eventListeners[event] + [callback]];
    }

    /**
     * Calls every callback registered for `event` with `data`, in
     * registration order; the calls are returned, since what a callback
     * does is not part of this model.
     */
    method TriggerEvent<D>(event: string, data: D) returns (calls: seq<(Callback, D)>)
      ensures |calls| == |Listeners(event)|
      ensures forall i :: 0 <= i < |calls| ==> calls[i] == (Listeners(event)[i], data)
    {
      calls := [];
      if event in eventListeners {
        var callbacks := eventListeners[event];
        for i := 0 to |callbacks|
          invariant |calls| == i
          invariant forall k :: 0 <= k < i ==> calls[k] == (callbacks[k], data)
        {
          calls := calls + [(callbacks[i], data)];
        }
      }
    }

    /** Resets the player, piles and battle flags, keeps progress, and opens level selection. */
    method StartNewGame()
      modifies this`player, this`cards, this`battle, this`currentScreen
      ensures player == InitialPlayer && cards == EmptyPiles && battle == InitialBattle
      ensures currentScreen == LevelSelect
      ensures old(Valid()) ==> Valid()
    {
      player := Player(100, 100, 3, 3, 0, 1, 0);
      cards := Piles([], [], []);
      battle := BattleFlags(true, false, false);
      currentScreen := LevelSelect;
    }

    method GiveRewards(level: Level)
      modifies this`player, this`progress
      ensures Snapshot() == Progression.GiveRewards(old(Snapshot()), catalog.levelsCount, level)
      ensures old(Valid()) ==> Valid()
    {
      ghost var before := Snapshot();
      var goldReward := level.rewards.gold;
      var expReward := level.rewards.experience;

      player := player.(gold := player.gold + goldReward);
      progress := progress.(stats := progress.stats.(totalGoldEarned := progress.stats.totalGoldEarned + goldReward));
      player := player.(experience := player.experience + expReward);

      ghost var credited := player;
      var expNeeded := player.level * ExperiencePerLevel;
      if player.experience >= expNeeded {
        player := player.(level := player.level + 1,
                          experience := player.experience - expNeeded,
                          maxHealth := player.maxHealth + LevelUpHealthBonus,
                          maxMana := player.maxMana + LevelUpManaBonus);
      }
      assert player == LevelUp(credited);

      if level.id < catalog.levelsCount && level.id + 1 !in progress.unlockedLevels {
        progress := progress.(unlockedLevels := progress.unlockedLevels + [level.id + 1]);
      }
      assert progress.unlockedLevels == UnlockNext(before.progress.unlockedLevels, catalog.levelsCount, level.id);

      AddRewardCards(level.rewards.cards);
    }

    /** The reward-card loop of `GiveRewards`: each card not owned yet is added, in order. */
    method AddRewardCards(rewardCards: seq<CardId>)
      modifies this`progress
      ensures progress == old(progress).(ownedCards := AddMissing(old(progress.ownedCards), rewardCards))
    {
      ghost var rest := progress;
      for i := 0 to |rewardCards|
        invariant progress == rest.(ownedCards := AddMissing(rest.ownedCards, rewardCards[..i]))
      {
        var cardId := rewardCards[i];
        assert rewardCards[..i + 1][..i] == rewardCards[..i];
        if cardId !in progress.ownedCards {
          progress := progress.(ownedCards := progress.ownedCards + [cardId]);
        }
      }
      assert rewardCards[..|rewardCards|] == rewardCards;
    }

    method BuyCard(cardId: CardId) returns (ok: bool)
      modifies this`player, this`progress
      ensures Outcome(ok, Snapshot()) == Progression.BuyCard(old(Snapshot()), catalog, cardId)
      ensures old(Valid()) ==> Valid()
    {
      if cardId !in catalog.cardPrices {
        return false;
      }
      var price := catalog.cardPrices[cardId];
      if cardId in progress.ownedCards {
        return false;
      }
      if player.gold < price {
        return false;
      }
      player := player.(gold := player.gold - price);
      progress := progress.(ownedCards := progress.ownedCards + [cardId]);
      return true;
    }

    method EquipCard(cardId: CardId) returns (ok: bool)
      modifies this`progress
      ensures Outcome(ok, Snapshot()) == Progression.EquipCard(old(Snapshot()), cardId)
      ensures old(Valid()) ==> Valid()
    {
      if cardId !in progress.ownedCards {
        return false;
      }
      if cardId in progress.equippedCards {
        return false;
      }
      if |progress.equippedCards| >= MaxDeckSize {
        return false;
      }
      progress := progress.(equippedCards := progress.equippedCards + [cardId]);
      return true;
    }

    method UnequipCard(cardId: CardId) returns (ok: bool)
      modifies this`progress
      ensures Outcome(ok, Snapshot()) == Progression.UnequipCard(old(Snapshot()), cardId)
      ensures old(Valid()) ==> Valid()
    {
      var cardIndex := IndexOf(progress.equippedCards, cardId);
      if cardIndex == -1 {
        return false;
      }
      progress := progress.(equippedCards := RemoveAt(progress.equippedCards, cardIndex));
      return true;
    }

    method UseItem(itemId: ItemId) returns (ok: bool)
      modifies this`player, this`progress
      ensures Outcome(ok, Snapshot()) == Progression.UseItem(old(Snapshot()), catalog, itemId)
      ensures old(Valid()) ==> Valid()
    {
      if itemId !in catalog.items {
        return false;
      }
      var item := catalog.items[itemId];
      if itemId !in progress.items || progress.items[itemId] <= 0 {
        return false;
      }
      match item.kind {
        case Heal =>
          var healed := if player.maxHealth < player.health + item.value then player.maxHealth
                        else player.health + item.value;
          player := player.(health := healed);
        case MaxHealthUp =>
          player := player.(maxHealth := player.maxHealth + item.value);
          player := player.(health := player.health + item.value);
        case MaxManaUp =>
          player := player.(maxMana := player.maxMana + item.value);
          player := player.(mana := player.mana + item.value);
        case OtherItemType =>
          return false;
      }
      progress := progress.(items := progress.items[itemId := progress.items[itemId] - 1]);
      return true;
    }

    method BuyItem(itemId: ItemId) returns (ok: bool)
      modifies this`player, this`progress
      ensures Outcome(ok, Snapshot()) == Progression.BuyItem(old(Snapshot()), catalog, itemId)
      ensures old(Valid()) ==> Valid()
    {
      if itemId !in catalog.items {
        return false;
      }
      var item := catalog.items[itemId];
      if player.gold < item.price {
        return false;
      }
      player := player.(gold := player.gold - item.price);
      if itemId !in progress.items || progress.items[itemId] == 0 {
        progress := progress.(items := progress.items[itemId := 0]);
      }
      progress := progress.(items := progress.items[itemId := progress.items[itemId] + 1]);
      return true;
    }

    method UnlockAchievement(achievementId: AchievementId) returns (ok: bool)
      modifies this`progress
      ensures Outcome(ok, Snapshot()) == Progression.UnlockAchievement(old(Snapshot()), catalog, achievementId)
      ensures old(Valid()) ==> Valid()
    {
      if achievementId in progress.achievements {
        return false;
      }
      if achievementId !in catalog.achievements {
        return false;
      }
      progress := progress.(achievements := progress.achievements + [achievementId]);
      return true;
    }
  }
}
