/**
 * The mock achievements client: one shared instance holding the four
 * achievement objects, whose `completed` flags events set in place.
 */
module PlaySolana {
  import opened Wrappers

  class Achievement {
    const id: string
    const title: string
    const description: string
    const xpReward: nat
    var completed: bool

    constructor (id: string, title: string, description: string, xpReward: nat)
      ensures this.id == id && this.title == title && this.description == description
      ensures this.xpReward == xpReward && !completed
    {
      this.id := id;
      this.title := title;
      this.description := description;
      this.xpReward := xpReward;
      completed := false;
    }
  }

  /** The four achievements, in declaration order, as distinct objects. */
  ghost predicate Catalog(s: seq<Achievement>) {
    && |s| == 4
    && s[0].id == "first_bet" && s[0].xpReward == 100
    && s[1].id == "heating_up" && s[1].xpReward == 500
    && s[2].id == "on_fire" && s[2].xpReward == 2000
    && s[3].id == "whale" && s[3].xpReward == 1000
    && (forall i, j | 0 <= i < j < |s| :: s[i] != s[j])
  }

  /**
   * The entry a `Map` built from the list returns for key `id`: a later entry
   * with the same key overwrites an earlier one, so the last one wins.
   */
  function Find(entries: seq<Achievement>, id: string): (r: Option<Achievement>)
    ensures r.Some? ==> exists i | 0 <= i < |entries| ::
              entries[i] == r.value && entries[i].id == id
              && forall j | i < j < |entries| :: entries[j].id != id
    ensures r.None? ==> forall i | 0 <= i < |entries| :: entries[i].id != id
  {
    if entries == [] then None
    else if entries[|entries| - 1].id == id then Some(entries[|entries| - 1])
    else Find(entries[..|entries| - 1], id)
  }

  class PlaySolanaClient {
    /** The values of the achievements `Map`, in insertion order: the very objects of the catalogue. */
    const achievements: seq<Achievement>

    ghost predicate Valid() {
      Catalog(achievements)
    }

    constructor (catalog: seq<Achievement>)
      requires Catalog(catalog)
      ensures Valid() && achievements == catalog
    {
      achievements := catalog;
    }

    /**
     * Record an event. "place_bet" completes `first_bet`, and "streak_update"
     * with a streak of at least 3 completes `heating_up`; each is reported
     * as new only the first time. Nothing else changes.
     */
    method TriggerEvent(eventName: string, streak: Option<int>) returns (newAchievements: seq<Achievement>)
      requires Valid()
      modifies achievements
      ensures var first, heating := achievements[0], achievements[1];
              var firstNow := eventName == "place_bet" && !old(first.completed);
              var heatingNow := eventName == "streak_update" && streak.Some? && streak.value >= 3
                                && !old(heating.completed);
              && newAchievements == (if firstNow then [first] else []) + (if heatingNow then [heating] else [])
              && first.completed == (old(first.completed) || eventName == "place_bet")
              && heating.completed == (old(heating.completed) || (eventName == "streak_update"
                                                                  && streak.Some? && streak.value >= 3))
      ensures unchanged(achievements[2], achievements[3])
      ensures forall i | 0 <= i < |achievements| :: old(achievements[i].completed) ==> achievements[i].completed
    {
      var unlocked: seq<Achievement> := [];
      if eventName == "place_bet" {
        var ach := Find(achievements, "first_bet");
        if ach.Some? && !ach.value.completed {
          ach.value.completed := true;
          unlocked := unlocked + [ach.value];
        }
      }
      if eventName == "streak_update" && streak.Some? && streak.value >= 3 {
        var ach := Find(achievements, "heating_up");
        if ach.Some? && !ach.value.completed {
          ach.value.completed := true;
          unlocked := unlocked + [ach.value];
        }
      }
      newAchievements := unlocked;
    }

    /** All four achievements, in declaration order. */
    method GetAchievements() returns (r: seq<Achievement>)
      requires Valid()
      ensures r == achievements && Catalog(r)
    {
      r := achievements;
    }
  }

  /** The module's own state: the exported catalogue and the static instance slot. */
  class PlaySolanaModule {
    const ACHIEVEMENTS: seq<Achievement>
    var instance: PlaySolanaClient?

    /** An existing instance shares the catalogue's objects, so completions show there too. */
    ghost predicate Valid()
      reads this
    {
      Catalog(ACHIEVEMENTS) && (instance != null ==> instance.achievements == ACHIEVEMENTS)
    }

    constructor ()
      ensures Valid() && instance == null
      ensures forall i | 0 <= i < |ACHIEVEMENTS| :: fresh(ACHIEVEMENTS[i]) && !ACHIEVEMENTS[i].completed
    {
      var firstBet := new Achievement("first_bet", "First Steps", "Place your first prediction", 100);
      var heatingUp := new Achievement("heating_up", "Heating Up", "Win 3 predictions in a row", 500);
      var onFire := new Achievement("on_fire", "On Fire", "Reach a 10x streak", 2000);
      var whale := new Achievement("whale", "Whale Watcher", "Participate in a pool > 100 SOL", 1000);
      ACHIEVEMENTS := [firstBet, heatingUp, onFire, whale];
      instance := null;
    }

    /** The one client: created on the first call, the same object on every later one. */
    method GetInstance() returns (c: PlaySolanaClient)
      requires Valid()
      modifies this
      ensures Valid() && instance == c && c.Valid()
      ensures old(instance) != null ==> c == old(instance)
      ensures old(instance) == null ==> fresh(c)
    {
      if instance == null {
        instance := new PlaySolanaClient(ACHIEVEMENTS);
      }
      c := instance;
    }
  }

  /** Two calls in a row hand out the same client. */
  method GetInstanceTwice(m: PlaySolanaModule) returns (a: PlaySolanaClient, b: PlaySolanaClient)
    requires m.Valid()
    modifies m
    ensures a == b
  {
    a := m.GetInstance();
    b := m.GetInstance();
  }
}
