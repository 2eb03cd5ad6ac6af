/**
 * The player's progression and economy as the game controller keeps it:
 * the wallet and stats of the player, the collection of owned and equipped
 * cards, unlocked levels, item counts and achievements, and the rules by
 * which rewards, purchases, equipping and item use change them.
 *
 * Each rule is a function from the state before the call to the state after
 * it (and the boolean the source returns). Its contract states what the
 * source promises of that call: when it is rejected, what changes when it
 * succeeds, and that the well-formedness invariant `Wf` is preserved.
 * Catalog lookups (cards, items, achievements, levels) are the `Catalog`
 * parameter.
 */
module Progression {
  import opened Sequences

  type CardId = string
  type ItemId = string
  type AchievementId = string
  type LevelId = int

  /** Deck-size ceiling shared by equipping and the deck screen's toggle. */
  const MaxDeckSize: nat := 20
  /** Experience needed to leave level L is L * ExperiencePerLevel. */
  const ExperiencePerLevel: nat := 100
  const LevelUpHealthBonus: nat := 10
  const LevelUpManaBonus: nat := 1

  datatype Player = Player(
    health: int, maxHealth: int,
    mana: int, maxMana: int,
    gold: int, level: int, experience: int)

  datatype Stats = Stats(
    totalDamageDealt: int, totalHealing: int, totalGoldEarned: int,
    totalBattlesWon: int, totalCardsPlayed: int, totalDamageTaken: int)

  /** Saved progress; `items` maps an item id to how many the player holds (absent = none). */
  datatype Progress = Progress(
    unlockedLevels: seq<LevelId>,
    ownedCards: seq<CardId>,
    equippedCards: seq<CardId>,
    achievements: seq<AchievementId>,
    items: map<ItemId, int>,
    stats: Stats)

  /** The part of the game state the progression rules read and write. */
  datatype Profile = Profile(player: Player, progress: Progress)

  /** Attribute stats of the player, raised by shop items. */
  datatype Attributes = Attributes(strength: int, dexterity: int, intelligence: int, vitality: int)

  /** The `type` string of an item; any string other than the three known ones is `OtherItemType`. */
  datatype ItemType = Heal | MaxHealthUp | MaxManaUp | OtherItemType
  datatype Item = Item(price: int, kind: ItemType, value: int)
  datatype Rewards = Rewards(gold: nat, experience: nat, cards: seq<CardId>)
  datatype Level = Level(id: LevelId, rewards: Rewards)

  /** The read-only lookups of the resource manager. */
  datatype Catalog = Catalog(
    cardPrices: map<CardId, int>,
    items: map<ItemId, Item>,
    achievements: set<AchievementId>,
    levelsCount: int)

  /** The boolean a rule returns, with the state after the call. */
  datatype Outcome = Outcome(ok: bool, profile: Profile)

  const InitialPlayer := Player(100, 100, 3, 3, 0, 1, 0)
  const InitialStats := Stats(0, 0, 0, 0, 0, 0)
  const InitialProgress := Progress([1], [], [], [], map[], InitialStats)

  predicate PlayerWf(p: Player) {
    && p.gold >= 0
    && p.level >= 1
    && p.experience >= 0
    && p.health <= p.maxHealth
    && p.mana <= p.maxMana
  }

  predicate ProgressWf(g: Progress) {
    && NoDup(g.unlockedLevels)
    && NoDup(g.ownedCards)
    && NoDup(g.equippedCards)
    && NoDup(g.achievements)
    && SubsetOf(g.equippedCards, g.ownedCards)
    && |g.equippedCards| <= MaxDeckSize
    && forall id :: id in g.items ==> g.items[id] >= 0
  }

  /** The invariant every progression rule preserves. */
  predicate Wf(s: Profile) {
    PlayerWf(s.player) && ProgressWf(s.progress)
  }

  /** How many of an item the player holds; an absent entry counts as none. */
  function ItemCount(items: map<ItemId, int>, id: ItemId): int {
    if id in items then items[id] else 0
  }

  /**
   * The level-up check run after experience is credited: at most one level,
   * taken only when the experience covers the current level's cost.
   */
  function LevelUp(p: Player): (r: Player)
    ensures p.experience >= p.level * ExperiencePerLevel ==>
              && r.level == p.level + 1
              && r.experience == p.experience - p.level * ExperiencePerLevel
              && r.maxHealth == p.maxHealth + LevelUpHealthBonus
              && r.maxMana == p.maxMana + LevelUpManaBonus
    ensures p.experience < p.level * ExperiencePerLevel ==> r == p
    ensures r.gold == p.gold && r.health == p.health && r.mana == p.mana
    ensures PlayerWf(p) ==> PlayerWf(r)
  {
    var needed := p.level * ExperiencePerLevel;
    if p.experience >= needed then
      p.(level := p.level + 1,
         experience := p.experience - needed,
         maxHealth := p.maxHealth + LevelUpHealthBonus,
         maxMana := p.maxMana + LevelUpManaBonus)
    else p
  }

  /**
   * The owned-card list after the reward cards are taken in order, each
   * appended unless it is already there.
   */
  function AddMissing(owned: seq<CardId>, cards: seq<CardId>): (r: seq<CardId>)
    ensures |owned| <= |r| && r[..|owned|] == owned
    ensures forall c :: c in r <==> c in owned || c in cards
    ensures forall i :: |owned| <= i < |r| ==> r[i] !in owned && r[i] in cards
    ensures NoDup(owned) ==> NoDup(r)
    decreases |cards|
  {
    if cards == [] then owned
    else
      var prev := AddMissing(owned, cards[..|cards| - 1]);
      var c := cards[|cards| - 1];
      assert forall x :: x in cards <==> x in cards[..|cards| - 1] || x == c by {
        assert cards == cards[..|cards| - 1] + [c];
      }
      if c in prev then prev else prev + [c]
  }

  /** The cards of `r` after position `from` appear in the order of their first occurrence in `cards`. */
  predicate InRewardOrder(r: seq<CardId>, from: nat, cards: seq<CardId>) {
    forall i, j :: from <= i < j < |r| ==> IndexOf(cards, r[i]) < IndexOf(cards, r[j])
  }

  /** The cards `AddMissing` appends keep the order of their first occurrence in the reward list. */
  lemma {:induction false} AddMissingKeepsRewardOrder(owned: seq<CardId>, cards: seq<CardId>)
    ensures InRewardOrder(AddMissing(owned, cards), |owned|, cards)
    decreases |cards|
  {
    if cards != [] {
      var init, c := cards[..|cards| - 1], cards[|cards| - 1];
      AddMissingKeepsRewardOrder(owned, init);
      var prev := AddMissing(owned, init);
      assert InRewardOrder(prev, |owned|, init);
      var r := AddMissing(owned, cards);
      assert cards == init + [c];
      if c in prev {
        assert r == prev;
      } else {
        assert r == prev + [c];
        assert IndexOf(cards, c) == |init| by {
          assert cards[|init|] == c;
          assert cards[..|init|] == init;
        }
      }
      forall i, j | |owned| <= i < j < |r|
        ensures IndexOf(cards, r[i]) < IndexOf(cards, r[j])
      {
        assert r[i] == prev[i];
        assert prev[i] in init;
        IndexOfInPrefix(init, [c], r[i]);
        if j < |prev| {
          assert r[j] == prev[j];
          assert prev[j] in init;
          IndexOfInPrefix(init, [c], r[j]);
        } else {
          assert r[j] == c;
        }
      }
    }
  }

  /** A value found in `s` is found at the same place in `s + t`. */
  lemma IndexOfInPrefix<T>(s: seq<T>, t: seq<T>, x: T)
    requires x in s
    ensures IndexOf(s + t, x) == IndexOf(s, x)
  {
    var i := IndexOf(s, x);
    assert (s + t)[..i] == s[..i];
    assert (s + t)[i] == x;
  }

  /** The level after level `id` is unlocked once, when such a level exists. */
  function UnlockNext(unlocked: seq<LevelId>, levelsCount: int, id: LevelId): (r: seq<LevelId>)
    ensures forall l :: l in r <==> l in unlocked || (l == id + 1 && id < levelsCount)
    ensures NoDup(unlocked) ==> NoDup(r)
  {
    if id < levelsCount && id + 1 !in unlocked then unlocked + [id + 1] else unlocked
  }

  /**
   * giveRewards: credit gold (also to the lifetime total) and experience,
   * level up at most once, unlock the next level when it exists, and add the
   * reward cards the player does not own yet.
   */
  function GiveRewards(s: Profile, levelsCount: int, level: Level): (r: Profile)
    ensures r.player.gold == s.player.gold + level.rewards.gold
    ensures r.progress.stats == s.progress.stats.(totalGoldEarned := s.progress.stats.totalGoldEarned + level.rewards.gold)
    ensures var e := s.player.experience + level.rewards.experience;
            var needed := s.player.level * ExperiencePerLevel;
            if e >= needed then
              && r.player.level == s.player.level + 1
              && r.player.experience == e - needed
              && r.player.maxHealth == s.player.maxHealth + LevelUpHealthBonus
              && r.player.maxMana == s.player.maxMana + LevelUpManaBonus
            else
              && r.player.level == s.player.level
              && r.player.experience == e
              && r.player.maxHealth == s.player.maxHealth
              && r.player.maxMana == s.player.maxMana
    ensures r.player.health == s.player.health && r.player.mana == s.player.mana
    ensures forall l :: l in r.progress.unlockedLevels <==>
              l in s.progress.unlockedLevels || (l == level.id + 1 && level.id < levelsCount)
    ensures forall c :: c in r.progress.ownedCards <==> c in s.progress.ownedCards || c in level.rewards.cards
    ensures |s.progress.ownedCards| <= |r.progress.ownedCards|
    ensures r.progress.ownedCards[..|s.progress.ownedCards|] == s.progress.ownedCards
    ensures r.progress.equippedCards == s.progress.equippedCards
    ensures r.progress.achievements == s.progress.achievements
    ensures r.progress.items == s.progress.items
    ensures Wf(s) ==> Wf(r)
  {
    var rewards := level.rewards;
    var credited := s.player.(gold := s.player.gold + rewards.gold,
                              experience := s.player.experience + rewards.experience);
    var unlocked := UnlockNext(s.progress.unlockedLevels, levelsCount, level.id);
    var stats := s.progress.stats.(totalGoldEarned := s.progress.stats.totalGoldEarned + rewards.gold);
    Profile(
      LevelUp(credited),
      s.progress.(unlockedLevels := unlocked,
                  ownedCards := AddMissing(s.progress.ownedCards, rewards.cards),
                  stats := stats))
  }

  /**
   * buyCard: rejected (false, nothing changes) for an unknown card, a card
   * already owned, or too little gold; otherwise the price is paid and the
   * card joins the collection exactly once.
   */
  function BuyCard(s: Profile, cat: Catalog, id: CardId): (r: Outcome)
    ensures r.ok <==> id in cat.cardPrices && id !in s.progress.ownedCards
                      && s.player.gold >= cat.cardPrices[id]
    ensures !r.ok ==> r.profile == s
    ensures r.ok ==> && r.profile.player == s.player.(gold := s.player.gold - cat.cardPrices[id])
                     && r.profile.progress == s.progress.(ownedCards := s.progress.ownedCards + [id])
                     && multiset(r.profile.progress.ownedCards)[id] == 1
    ensures Wf(s) ==> Wf(r.profile)
  {
    if id !in cat.cardPrices then Outcome(false, s)
    else if id in s.progress.ownedCards then Outcome(false, s)
    else if s.player.gold < cat.cardPrices[id] then Outcome(false, s)
    else
      Outcome(true, Profile(
        s.player.(gold := s.player.gold - cat.cardPrices[id]),
        s.progress.(ownedCards := s.progress.ownedCards + [id])))
  }

  /**
   * equipCard: rejected for a card that is not owned, already equipped, or
   * when the deck is full; otherwise the card is appended to the deck.
   */
  function EquipCard(s: Profile, id: CardId): (r: Outcome)
    ensures r.ok <==> id in s.progress.ownedCards && id !in s.progress.equippedCards
                      && |s.progress.equippedCards| < MaxDeckSize
    ensures !r.ok ==> r.profile == s
    ensures r.ok ==> r.profile == s.(progress := s.progress.(equippedCards := s.progress.equippedCards + [id]))
    ensures Wf(s) ==> Wf(r.profile)
  {
    if id !in s.progress.ownedCards then Outcome(false, s)
    else if id in s.progress.equippedCards then Outcome(false, s)
    else if |s.progress.equippedCards| >= MaxDeckSize then Outcome(false, s)
    else Outcome(true, s.(progress := s.progress.(equippedCards := s.progress.equippedCards + [id])))
  }

  /**
   * unequipCard: rejected when the card is not in the deck; otherwise its
   * first occurrence is removed and the rest of the deck keeps its order.
   */
  function UnequipCard(s: Profile, id: CardId): (r: Outcome)
    ensures r.ok <==> id in s.progress.equippedCards
    ensures !r.ok ==> r.profile == s
    ensures r.ok ==>
              var k := IndexOf(s.progress.equippedCards, id);
              && r.profile.progress.equippedCards == RemoveAt(s.progress.equippedCards, k)
              && id !in s.progress.equippedCards[..k]
              && multiset(r.profile.progress.equippedCards) == multiset(s.progress.equippedCards) - multiset{id}
    ensures r.profile == s.(progress := s.progress.(equippedCards := r.profile.progress.equippedCards))
    ensures Wf(s) ==> Wf(r.profile) && id !in r.profile.progress.equippedCards
  {
    var k := IndexOf(s.progress.equippedCards, id);
    if k == -1 then Outcome(false, s)
    else Outcome(true, s.(progress := s.progress.(equippedCards := RemoveAt(s.progress.equippedCards, k))))
  }

  /**
   * useItem: rejected for an unknown item, an item the player holds none of,
   * or an item of unknown type; otherwise the item's effect is applied and
   * exactly one is consumed.
   */
  function UseItem(s: Profile, cat: Catalog, id: ItemId): (r: Outcome)
    ensures r.ok <==> id in cat.items && ItemCount(s.progress.items, id) > 0
                      && cat.items[id].kind != OtherItemType
    ensures !r.ok ==> r.profile == s
    ensures r.ok ==> r.profile.progress == s.progress.(items := s.progress.items[id := s.progress.items[id] - 1])
    ensures r.ok ==>
              var p, p', v := s.player, r.profile.player, cat.items[id].value;
              match cat.items[id].kind
              case Heal => p' == p.(health := if p.maxHealth < p.health + v then p.maxHealth else p.health + v)
              case MaxHealthUp => p' == p.(maxHealth := p.maxHealth + v, health := p.health + v)
              case MaxManaUp => p' == p.(maxMana := p.maxMana + v, mana := p.mana + v)
              case OtherItemType => false
    ensures Wf(s) ==> Wf(r.profile)
  {
    if id !in cat.items then Outcome(false, s)
    else if id !in s.progress.items || s.progress.items[id] <= 0 then Outcome(false, s)
    else
      var item, p := cat.items[id], s.player;
      var consumed := s.progress.(items := s.progress.items[id := s.progress.items[id] - 1]);
      match item.kind
      case Heal =>
        var healed := if p.maxHealth < p.health + item.value then p.maxHealth else p.health + item.value;
        Outcome(true, Profile(p.(health := healed), consumed))
      case MaxHealthUp =>
        Outcome(true, Profile(p.(maxHealth := p.maxHealth + item.value, health := p.health + item.value), consumed))
      case MaxManaUp =>
        Outcome(true, Profile(p.(maxMana := p.maxMana + item.value, mana := p.mana + item.value), consumed))
      case OtherItemType =>
        Outcome(false, s)
  }

  /**
   * buyItem: rejected for an unknown item or too little gold; otherwise the
   * price is paid and the item's count rises by one (from zero if absent).
   */
  function BuyItem(s: Profile, cat: Catalog, id: ItemId): (r: Outcome)
    ensures r.ok <==> id in cat.items && s.player.gold >= cat.items[id].price
    ensures !r.ok ==> r.profile == s
    ensures r.ok ==> && r.profile.player == s.player.(gold := s.player.gold - cat.items[id].price)
                     && ItemCount(r.profile.progress.items, id) == ItemCount(s.progress.items, id) + 1
                     && r.profile.progress.items.Keys == s.progress.items.Keys + {id}
    ensures forall other :: other != id ==> ItemCount(r.profile.progress.items, other) == ItemCount(s.progress.items, other)
    ensures r.profile.progress == s.progress.(items := r.profile.progress.items)
    ensures Wf(s) ==> Wf(r.profile)
  {
    if id !in cat.items then Outcome(false, s)
    else if s.player.gold < cat.items[id].price then Outcome(false, s)
    else
      var items := s.progress.items;
      var held := if id !in items || items[id] == 0 then 0 else items[id];
      Outcome(true, Profile(
        s.player.(gold := s.player.gold - cat.items[id].price),
        s.progress.(items := items[id := held + 1])))
  }

  /**
   * unlockAchievement: rejected for an achievement already unlocked or not in
   * the catalog; otherwise the achievement is recorded once.
   */
  function UnlockAchievement(s: Profile, cat: Catalog, id: AchievementId): (r: Outcome)
    ensures r.ok <==> id !in s.progress.achievements && id in cat.achievements
    ensures !r.ok ==> r.profile == s
    ensures r.ok ==> r.profile == s.(progress := s.progress.(achievements := s.progress.achievements + [id]))
    ensures id in cat.achievements ==> id in r.profile.progress.achievements
    ensures Wf(s) ==> Wf(r.profile)
  {
    if id in s.progress.achievements then Outcome(false, s)
    else if id !in cat.achievements then Outcome(false, s)
    else Outcome(true, s.(progress := s.progress.(achievements := s.progress.achievements + [id])))
  }

  /**
   * unlockAchievement as written: after recording the achievement it calls a
   * notification method the interface manager does not define, so the call
   * throws, the handler reports failure, and the save is skipped. The
   * achievement stays recorded in memory all the same.
   */
  function UnlockAchievementAsWritten(s: Profile, cat: Catalog, id: AchievementId): (r: Outcome)
    ensures !r.ok
    ensures r.profile == UnlockAchievement(s, cat, id).profile
    ensures Wf(s) ==> Wf(r.profile)
  {
    if id in s.progress.achievements then Outcome(false, s)
    else if id !in cat.achievements then Outcome(false, s)
    else Outcome(false, s.(progress := s.progress.(achievements := s.progress.achievements + [id])))
  }

  /**
   * The discrepancy: on a new game, unlocking a known achievement records it,
   * yet the code as written reports failure where the intended rule reports
   * success.
   */
  lemma UnlockAchievementReportsFailureOnSuccess()
    ensures var s := Profile(InitialPlayer, InitialProgress);
            var cat := Catalog(map[], map[], {"firstWin"}, 0);
            && UnlockAchievement(s, cat, "firstWin").ok
            && !UnlockAchievementAsWritten(s, cat, "firstWin").ok
            && "firstWin" in UnlockAchievementAsWritten(s, cat, "firstWin").profile.progress.achievements
  {
  }

  /** Unlocking the same achievement twice: the second call is rejected and changes nothing. */
  lemma UnlockAchievementIdempotent(s: Profile, cat: Catalog, id: AchievementId)
    ensures var once := UnlockAchievement(s, cat, id).profile;
            var twice := UnlockAchievement(once, cat, id);
            !twice.ok && twice.profile == once
  {
  }

  /** Buying the same card twice: the second purchase is rejected and does not charge again. */
  lemma BuyCardTwiceRejected(s: Profile, cat: Catalog, id: CardId)
    requires BuyCard(s, cat, id).ok
    ensures var once := BuyCard(s, cat, id).profile;
            var twice := BuyCard(once, cat, id);
            !twice.ok && twice.profile == once
  {
  }

  /** Equip followed by unequip of the same card restores the deck. */
  lemma {:induction false} EquipThenUnequip(s: Profile, id: CardId)
    requires EquipCard(s, id).ok
    ensures UnequipCard(EquipCard(s, id).profile, id) == Outcome(true, s)
  {
    var deck := s.progress.equippedCards;
    var deck' := deck + [id];
    var k := IndexOf(deck', id);
    assert id !in deck;
    assert k == |deck| by {
      assert deck'[|deck|] == id;
    }
    assert RemoveAt(deck', k) == deck by {
      assert deck'[..k] == deck;
    }
  }

  /**
   * Rewards never level up twice: however much experience a reward brings,
   * the level rises by at most one, and the surplus is carried over.
   */
  lemma {:induction false} RewardsLevelUpAtMostOnce(s: Profile, levelsCount: int, level: Level)
    requires Wf(s)
    ensures var r := GiveRewards(s, levelsCount, level);
            && s.player.level <= r.player.level <= s.player.level + 1
            && r.player.experience >= 0
            && r.player.experience + (r.player.level - s.player.level) * s.player.level * ExperiencePerLevel
               == s.player.experience + level.rewards.experience
  {
    var r := GiveRewards(s, levelsCount, level);
    if r.player.level == s.player.level + 1 {
      assert (r.player.level - s.player.level) * s.player.level * ExperiencePerLevel
             == s.player.level * ExperiencePerLevel;
    }
  }

  /** One progression operation of the controller, with its argument. */
  datatype Action =
    | GiveRewardsAction(level: Level)
    | BuyCardAction(card: CardId)
    | EquipCardAction(card: CardId)
    | UnequipCardAction(card: CardId)
    | UseItemAction(item: ItemId)
    | BuyItemAction(item: ItemId)
    | UnlockAchievementAction(achievement: AchievementId)

  function Apply(s: Profile, cat: Catalog, a: Action): Profile {
    match a
    case GiveRewardsAction(level) => GiveRewards(s, cat.levelsCount, level)
    case BuyCardAction(id) => BuyCard(s, cat, id).profile
    case EquipCardAction(id) => EquipCard(s, id).profile
    case UnequipCardAction(id) => UnequipCard(s, id).profile
    case UseItemAction(id) => UseItem(s, cat, id).profile
    case BuyItemAction(id) => BuyItem(s, cat, id).profile
    case UnlockAchievementAction(id) => UnlockAchievement(s, cat, id).profile
  }

  /** The state after the actions, applied in order. */
  function Replay(s: Profile, cat: Catalog, actions: seq<Action>): Profile
    decreases |actions|
  {
    if actions == [] then s
    else Apply(Replay(s, cat, actions[..|actions| - 1]), cat, actions[|actions| - 1])
  }

  /**
   * Every state reachable from a new game by the controller's progression
   * operations is well formed (`UiRules.SessionStatesAreWf` generalises this
   * to sessions that also toggle cards, shop and start new games): gold and
   * experience are never negative, health and mana stay within their
   * maxima, the id lists are duplicate-free, the deck holds at most
   * MaxDeckSize owned cards, and no item count is negative.
   */
  lemma {:induction false} ReachableStatesAreWf(cat: Catalog, actions: seq<Action>)
    ensures Wf(Replay(Profile(InitialPlayer, InitialProgress), cat, actions))
    decreases |actions|
  {
    if actions != [] {
      ReachableStatesAreWf(cat, actions[..|actions| - 1]);
    }
  }
}
