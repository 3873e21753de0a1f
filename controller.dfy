/** The game controller (GameController): the grid of cells, and the
    player actions and per-frame tick that change the grid and the water,
    coin and upgrade fields of the reactive store.

    Every top-level field write goes through the store's trap and so
    notifies that field's listeners; the cells' hit points live outside
    the store and notify nobody, and so does the in-place increment of an
    upgrade level. Random draws and the frame timestamp are parameters. */
module Controller {
  import opened Balance
  import opened Cells
  import opened Reactive

  /** A whole, non-negative number: a usable upgrade level. */
  predicate IsLevel(v: Value) {
    v.Num? && v.n >= 0.0 && v.n == v.n.Floor as real
  }

  /** The record holds every field the controller reads or writes, with the
      shape it expects. */
  predicate Shaped(d: map<string, Value>) {
    && "coins" in d && d["coins"].Num?
    && "water" in d && d["water"].Num?
    && "maxWater" in d && d["maxWater"].Num?
    && "burnedPercent" in d
    && "upgrades" in d && d["upgrades"].Obj?
    && "pump" in d["upgrades"].fields && IsLevel(d["upgrades"].fields["pump"])
    && "tank" in d["upgrades"].fields && IsLevel(d["upgrades"].fields["tank"])
  }

  /** Level of upgrade `u` in a shaped record. */
  function LevelOf(d: map<string, Value>, u: Upgrade): nat
    requires Shaped(d)
  {
    d["upgrades"].fields[u.Id()].n.Floor
  }

  /** The economy's invariant: water between 0 and the capacity, no debt,
      and a capacity no larger than the tank level provides. */
  ghost predicate Solvent(d: map<string, Value>)
    requires Shaped(d)
  {
    && 0.0 <= d["water"].n <= d["maxWater"].n
    && 0.0 <= d["coins"].n
    && d["maxWater"].n <= (BaseWater + TankBonus(LevelOf(d, Tank))) as real
  }

  /** The default record is shaped and solvent. */
  lemma DefaultsSolvent(now: real)
    ensures Shaped(Defaults(now)) && Solvent(Defaults(now))
  {
  }

  /** The record once upgrade `u` is paid for: the price of its current
      level taken off the coins and its level incremented in place. */
  function Paid(d: map<string, Value>, u: Upgrade): map<string, Value>
    requires Shaped(d)
  {
    var ups := d["upgrades"].fields;
    d["coins" := Num(d["coins"].n - Price(u, LevelOf(d, u)) as real)]
     ["upgrades" := Obj(ups[u.Id() := Num(ups[u.Id()].n + 1.0)])]
  }

  /** The record after buying upgrade `u`: paid for, and for a tank the
      capacity reset to 100 plus the bonus of the new level. */
  function Bought(d: map<string, Value>, u: Upgrade): map<string, Value>
    requires Shaped(d)
  {
    if u == Tank then
      Paid(d, u)["maxWater" := Num((BaseWater + TankBonus(LevelOf(d, Tank) + 1)) as real)]
    else Paid(d, u)
  }

  /** A purchase keeps the record shaped, takes the price off the coins,
      raises the bought level by one and leaves the other level and the
      water alone; a tank resets the capacity to the new level's, a pump
      keeps it; and when the coins cover the price, a solvent record stays
      solvent. */
  lemma PurchaseEffect(d: map<string, Value>, u: Upgrade)
    requires Shaped(d)
    ensures Shaped(Paid(d, u)) && LevelOf(Paid(d, u), u) == LevelOf(d, u) + 1
    ensures var r := Bought(d, u);
            && Shaped(r)
            && r["coins"].n == d["coins"].n - Price(u, LevelOf(d, u)) as real
            && LevelOf(r, u) == LevelOf(d, u) + 1
            && LevelOf(r, u.Other()) == LevelOf(d, u.Other())
            && r["water"] == d["water"]
            && r["maxWater"].n == (if u == Tank then (BaseWater + TankBonus(LevelOf(r, Tank))) as real else d["maxWater"].n)
            && (Solvent(d) && d["coins"].n >= Price(u, LevelOf(d, u)) as real ==> Solvent(r))
  {
    var n := d["upgrades"].fields[u.Id()].n;
    assert (n + 1.0).Floor == n.Floor + 1;
    if u == Tank {
      TankBonusMonotone(LevelOf(d, Tank), LevelOf(d, Tank) + 1);
    }
  }

  /** The record after `n` successive purchases of upgrade `u`, whatever
      the coins (the shop's only check is that they cover each price). */
  function BoughtTimes(d: map<string, Value>, u: Upgrade, n: nat): (r: map<string, Value>)
    requires Shaped(d)
    ensures Shaped(r) && LevelOf(r, u) == LevelOf(d, u) + n
    decreases n
  {
    if n == 0 then d
    else
      PurchaseEffect(d, u);
      BoughtTimes(Bought(d, u), u, n - 1)
  }

  /** The pump starts at level 1 and the shop never caps it: the fourth
      purchase reaches level 5, the table's last row, and the fifth reaches
      level 6, where the click handler's read yields nothing (NaN power). */
  lemma PumpPastTable(now: real)
    ensures LevelOf(BoughtTimes(Defaults(now), Pump, 4), Pump) == 5
    ensures PumpBonusAsWritten(LevelOf(BoughtTimes(Defaults(now), Pump, 4), Pump)).Some?
    ensures LevelOf(BoughtTimes(Defaults(now), Pump, 5), Pump) == 6
    ensures PumpBonusAsWritten(LevelOf(BoughtTimes(Defaults(now), Pump, 5), Pump)) == None
  {
  }

  /** Likewise for the tank: after the fourth purchase the shop reads 1000,
      after the fifth it reads nothing, the `|| 5` fallback not applying
      (NaN capacity). */
  lemma TankPastTable(now: real)
    ensures LevelOf(BoughtTimes(Defaults(now), Tank, 4), Tank) == 5
    ensures TankBonusAsWritten(LevelOf(BoughtTimes(Defaults(now), Tank, 4), Tank)) == Some(1000)
    ensures LevelOf(BoughtTimes(Defaults(now), Tank, 5), Tank) == 6
    ensures TankBonusAsWritten(LevelOf(BoughtTimes(Defaults(now), Tank, 5), Tank)) == None
  {
  }

  /** Coins held after `count` rewards of `reward` each, starting from `start`. */
  function CoinTotal(start: real, reward: int, count: nat): real {
    if count == 0 then start else CoinTotal(start, reward, count - 1) + reward as real
  }

  /** The running total is the start plus count times the reward. */
  lemma {:induction false} CoinTotalValue(start: real, reward: int, count: nat)
    ensures CoinTotal(start, reward, count) == start + (count * reward) as real
    ensures reward >= 0 ==> CoinTotal(start, reward, count) >= start
  {
    if count > 0 {
      CoinTotalValue(start, reward, count - 1);
      assert (count - 1) * reward + reward == count * reward;
    }
  }

  /** The calls made by `count` successive rewards of `reward` from `start`:
      one notification of the coin listeners per reward, carrying the new total. */
  function RewardCalls(listeners: map<string, seq<ListenerId>>, start: real, reward: int, count: nat): seq<Call> {
    if count == 0 then []
    else RewardCalls(listeners, start, reward, count - 1) + Dispatch(listeners, "coins", Num(CoinTotal(start, reward, count)))
  }

  /** One burning cell doused during the rain: the record moves from
      `count` rewards paid to `count + 1`. */
  lemma RainStepRecord(start: real, reward: int, count: nat,
                       d0: map<string, Value>, mid: map<string, Value>, d1: map<string, Value>)
    requires mid == d0["coins" := Num(CoinTotal(start, reward, count))]
    requires d1 == mid["coins" := Num(mid["coins"].n + reward as real)]
    ensures d1 == d0["coins" := Num(CoinTotal(start, reward, count + 1))]
  {
  }

  /** ... and the calls made move from `count` coin notifications to `count + 1`. */
  lemma RainStepCalls(listeners: map<string, seq<ListenerId>>, start: real, reward: int, count: nat,
                      c0: seq<Call>, cmid: seq<Call>, c1: seq<Call>)
    requires cmid == c0 + RewardCalls(listeners, start, reward, count)
    requires c1 == cmid + Dispatch(listeners, "coins", Num(CoinTotal(start, reward, count + 1)))
    ensures c1 == c0 + RewardCalls(listeners, start, reward, count + 1)
  {
  }

  class GameController {
    /** The reactive store holding coins, water, capacity and upgrade levels. */
    const store: GameState
    /** Hit points of each building: 0 safe, above 0 burning, 100 freshly lit. */
    const cells: array<int>
    /** Timestamp of the previous frame, in milliseconds. */
    var lastTime: real

    ghost predicate Valid()
      reads this, store, cells
    {
      && store.Valid()
      && Shaped(store.data)
      && cells.Length == GridSize
      && InRange(cells[..])
    }

    function Coins(): real
      reads store
      requires Shaped(store.data)
    {
      store.data["coins"].n
    }

    function Water(): real
      reads store
      requires Shaped(store.data)
    {
      store.data["water"].n
    }

    function MaxWater(): real
      reads store
      requires Shaped(store.data)
    {
      store.data["maxWater"].n
    }

    function Level(u: Upgrade): nat
      reads store
      requires Shaped(store.data)
    {
      LevelOf(store.data, u)
    }

    /** The economy's invariant on the store's record. */
    ghost predicate Sane()
      reads store
      requires Shaped(store.data)
    {
      Solvent(store.data)
    }

    /** A new controller: a fresh store with the defaults and a grid of
        safe cells, then the save loaded over the defaults; `now` is the
        clock and `saved` what the save slot yields. No listener is
        subscribed, so the load's replay calls nobody. */
    constructor (now: real, saved: Saved)
      requires Shaped(Merged(Defaults(now), saved))
      ensures Valid()
      ensures !saved.Parsed? ==> Sane()
      ensures fresh(store) && fresh(cells)
      ensures store.data == Merged(Defaults(now), saved)
      ensures store.order == MergedOrder(Defaults(now), DefaultOrder, saved)
      ensures store.listeners == map[] && store.calls == []
      ensures forall i :: 0 <= i < cells.Length ==> cells[i] == 0
      ensures lastTime == 0.0
    {
      DefaultsSolvent(now);
      var s := new GameState(now);
      s.Load(saved);
      ReplayWithoutListeners(s.order, s.data);
      store := s;
      cells := new int[GridSize](_ => 0);
      lastTime := 0.0;
    }

    /** Number of burning cells, counted the way the frame tick filters them. */
    method CountBurning() returns (n: nat)
      ensures n == Burning(cells[..])
    {
      n := 0;
      for i := 0 to cells.Length
        invariant n == Burning(cells[..i])
      {
        assert cells[..i + 1][..i] == cells[..i];
        if cells[i] > 0 {
          n := n + 1;
        }
      }
      assert cells[..cells.Length] == cells[..];
    }

    /** The safe cells, in grid order. */
    method SafeCells() returns (safe: seq<nat>)
      ensures safe == SafeIndices(cells[..])
    {
      safe := [];
      for i := 0 to cells.Length
        invariant safe == SafeIndices(cells[..i])
      {
        assert cells[..i + 1][..i] == cells[..i];
        if cells[i] == 0 {
          safe := safe + [i];
        }
      }
      assert cells[..cells.Length] == cells[..];
    }

    /** Light cell `index` with a fresh fire. */
    method StartFire(index: nat)
      requires Valid() && index < cells.Length
      modifies cells
      ensures Valid()
      ensures cells[..] == old(cells[..])[index := FullFire]
    {
      cells[index] := FullFire;
    }

    /** Pay the reward for a fire put out, at the current pump level. */
    method ClearFire()
      requires Valid()
      modifies store
      ensures Valid() && (old(Sane()) ==> Sane())
      ensures store.order == old(store.order) && store.listeners == old(store.listeners)
      ensures store.data == old(store.data)["coins" := Num(old(Coins()) + Reward(old(Level(Pump))) as real)]
      ensures store.calls == old(store.calls) + Dispatch(store.listeners, "coins", store.data["coins"])
    {
      var reward := Reward(Level(Pump));
      store.Set("coins", Num(Coins() + reward as real));
    }

    /** A click on cell `index`: a burning cell, with water to spare, costs 5
        water and loses the pump's click power in hit points, paying the reward
        if that puts it out; a safe cell, or too little water, changes nothing. */
    method HandleCellClick(index: nat)
      requires Valid() && index < cells.Length
      modifies store, cells
      ensures Valid() && (old(Sane()) ==> Sane())
      ensures store.order == old(store.order) && store.listeners == old(store.listeners)
      ensures old(cells[index]) == 0 || old(Water()) < ClickCost ==>
                && cells[..] == old(cells[..])
                && store.data == old(store.data)
                && store.calls == old(store.calls)
      ensures old(cells[index]) > 0 && old(Water()) >= ClickCost ==>
                var left := Hit(old(cells[index]), ClickPower(old(Level(Pump))));
                var paid := if left == 0 then Reward(old(Level(Pump))) else 0;
                && cells[..] == old(cells[..])[index := left]
                && store.data == old(store.data)["water" := Num(old(Water()) - ClickCost)]
                                                ["coins" := Num(old(Coins()) + paid as real)]
                && store.calls == old(store.calls)
                                  + Dispatch(store.listeners, "water", Num(old(Water()) - ClickCost))
                                  + (if left == 0 then Dispatch(store.listeners, "coins", store.data["coins"]) else [])
    {
      var hp := cells[index];
      if hp > 0 {
        if Water() >= ClickCost {
          store.Set("water", Num(Water() - ClickCost));
          var power := ClickPower(Level(Pump));
          var left := Hit(hp, power);
          cells[index] := left;
          if left <= 0 {
            ClearFire();
          }
        }
      }
    }

    /** The rain button: with at least 50 water, spend 50 and schedule the
        downpour (RainLands); otherwise nothing happens. */
    method ActivateRain() returns (scheduled: bool)
      requires Valid()
      modifies store
      ensures Valid() && (old(Sane()) ==> Sane())
      ensures scheduled <==> old(Water()) >= RainCost
      ensures store.order == old(store.order) && store.listeners == old(store.listeners)
      ensures store.data == if scheduled then old(store.data)["water" := Num(old(Water()) - RainCost)] else old(store.data)
      ensures store.calls == old(store.calls) + if scheduled then Dispatch(store.listeners, "water", store.data["water"]) else []
    {
      scheduled := Water() >= RainCost;
      if scheduled {
        store.Set("water", Num(Water() - RainCost));
      }
    }

    /** The downpour on cell `i`: a burning cell is set to 0 and pays its
        reward; a safe cell is left alone. */
    method DouseCell(i: nat)
      requires Valid() && i < cells.Length
      modifies store, cells
      ensures Valid() && (old(Sane()) ==> Sane())
      ensures store.order == old(store.order) && store.listeners == old(store.listeners)
      ensures cells[i] == 0
      ensures forall j :: 0 <= j < cells.Length && j != i ==> cells[j] == old(cells[j])
      ensures old(cells[i]) > 0 ==>
                && store.data == old(store.data)["coins" := Num(old(Coins()) + Reward(old(Level(Pump))) as real)]
                && store.calls == old(store.calls) + Dispatch(store.listeners, "coins", store.data["coins"])
      ensures old(cells[i]) <= 0 ==> store.data == old(store.data) && store.calls == old(store.calls)
    {
      if cells[i] > 0 {
        cells[i] := 0;
        ClearFire();
      }
    }

    /** The downpour over every cell, in grid order: each burning cell is
        doused and pays its reward, the coins growing from their value at
        the start by one reward per burning cell. */
    method DouseAll()
      requires Valid()
      modifies store, cells
      ensures Valid()
      ensures forall i :: 0 <= i < cells.Length ==> cells[i] == 0
      ensures store.order == old(store.order) && store.listeners == old(store.listeners)
      ensures store.data == old(store.data)["coins" :=
                Num(CoinTotal(old(Coins()), Reward(old(Level(Pump))), Burning(old(cells[..]))))]
      ensures store.calls == old(store.calls) + RewardCalls(store.listeners,
                old(Coins()), Reward(old(Level(Pump))), Burning(old(cells[..])))
    {
      ghost var before := cells[..];
      ghost var d0, c0, listeners, order := store.data, store.calls, store.listeners, store.order;
      ghost var start := Coins();
      ghost var reward := Reward(Level(Pump));
      ghost var paid: nat := 0;
      assert d0 == d0["coins" := Num(start)];
      for i := 0 to cells.Length
        invariant Valid()
        invariant forall j :: 0 <= j < i ==> cells[j] == 0
        invariant forall j :: i <= j < cells.Length ==> cells[j] == before[j]
        invariant store.order == order && store.listeners == listeners
        invariant paid == Burning(before[..i])
        invariant store.data == d0["coins" := Num(CoinTotal(start, reward, paid))]
        invariant store.calls == c0 + RewardCalls(listeners, start, reward, paid)
      {
        assert before[..i + 1][..i] == before[..i];
        ghost var mid, cmid := store.data, store.calls;
        DouseCell(i);
        if before[i] > 0 {
          RainStepRecord(start, reward, paid, d0, mid, store.data);
          RainStepCalls(listeners, start, reward, paid, c0, cmid, store.calls);
          paid := paid + 1;
        }
      }
      assert before[..cells.Length] == before;
    }

    /** The scheduled downpour: every burning cell is put out and pays its
        reward, one coin write per cell, in grid order. */
    method RainLands()
      requires Valid()
      modifies store, cells
      ensures Valid() && (old(Sane()) ==> Sane())
      ensures forall i :: 0 <= i < cells.Length ==> cells[i] == 0
      ensures store.order == old(store.order) && store.listeners == old(store.listeners)
      ensures store.data == old(store.data)["coins" :=
                Num(old(Coins()) + (Burning(old(cells[..])) * Reward(old(Level(Pump)))) as real)]
      ensures store.calls == old(store.calls) + RewardCalls(store.listeners,
                old(Coins()), Reward(old(Level(Pump))), Burning(old(cells[..])))
    {
      ghost var burning := Burning(cells[..]);
      ghost var reward := Reward(Level(Pump));
      CoinTotalValue(Coins(), reward, burning);
      DouseAll();
    }

    /** The refill button: add 15 water, capped at the capacity, unless
        the tank is already full. */
    method ManualRefill()
      requires Valid()
      modifies store
      ensures Valid() && (old(Sane()) ==> Sane())
      ensures store.order == old(store.order) && store.listeners == old(store.listeners)
      ensures store.data == old(store.data)["water" := Num(TopUp(old(Water()), old(MaxWater()), RefillAmount))]
      ensures store.calls == old(store.calls) +
                if old(Water()) < old(MaxWater()) then Dispatch(store.listeners, "water", store.data["water"]) else []
    {
      if Water() < MaxWater() {
        store.Set("water", Num(TopUp(Water(), MaxWater(), RefillAmount)));
      }
    }

    /** Step 1 of a frame: regenerate water for `dt` seconds, capped at the
        capacity, unless the tank is already full. */
    method RegenerateWater(dt: real)
      requires Valid() && dt >= 0.0
      modifies store
      ensures Valid() && (old(Sane()) ==> Sane())
      ensures store.order == old(store.order) && store.listeners == old(store.listeners)
      ensures store.data == old(store.data)["water" := Num(TopUp(old(Water()), old(MaxWater()), RegenRate * dt))]
      ensures store.calls == old(store.calls) +
                if old(Water()) < old(MaxWater()) then Dispatch(store.listeners, "water", store.data["water"]) else []
    {
      if Water() < MaxWater() {
        store.Set("water", Num(TopUp(Water(), MaxWater(), RegenRate * dt)));
      } else {
        assert store.data["water" := Num(Water())] == store.data;
      }
    }

    /** Step 2 of a frame: count the burning cells and publish the burned
        percentage. */
    method PublishBurned() returns (burning: nat)
      requires Valid()
      modifies store
      ensures Valid() && (old(Sane()) ==> Sane())
      ensures burning == Burning(cells[..])
      ensures store.order == old(store.order) && store.listeners == old(store.listeners)
      ensures store.data == old(store.data)["burnedPercent" := Num(BurnedPercent(burning) as real)]
      ensures store.calls == old(store.calls) + Dispatch(store.listeners, "burnedPercent", store.data["burnedPercent"])
    {
      burning := CountBurning();
      store.Set("burnedPercent", Num(BurnedPercent(burning) as real));
    }

    /** Step 3 of a frame: when the draw `roll` falls under the spread chance,
        some cell is safe and `burning` (the count of burning cells) is below
        the grid size, light the safe cell that the draw `choice` picks. */
    method SpreadFire(burning: nat, roll: real, choice: real)
      requires Valid() && burning == Burning(cells[..])
      requires 0.0 <= roll < 1.0 && 0.0 <= choice < 1.0
      modifies cells
      ensures Valid()
      ensures var safe := SafeIndices(old(cells[..]));
              cells[..] == if roll < SpreadChance && burning < GridSize && |safe| > 0
                           then old(cells[..])[safe[SpreadIndex(|safe|, choice)] := FullFire]
                           else old(cells[..])
    {
      if roll < SpreadChance && burning < GridSize {
        var safe := SafeCells();
        if |safe| > 0 {
          StartFire(safe[SpreadIndex(|safe|, choice)]);
        }
      }
    }

    /** One animation frame at `timestamp` (milliseconds): regenerate water for
        the time elapsed, publish the burned percentage, and maybe spread the
        fire, with `roll` and `choice` the frame's two uniform draws. */
    method Tick(timestamp: real, roll: real, choice: real)
      requires Valid() && lastTime <= timestamp
      requires 0.0 <= roll < 1.0 && 0.0 <= choice < 1.0
      modifies this`lastTime, store, cells
      ensures Valid() && (old(Sane()) ==> Sane())
      ensures lastTime == timestamp
      ensures store.order == old(store.order) && store.listeners == old(store.listeners)
      ensures var water := TopUp(old(Water()), old(MaxWater()), RegenRate * ((timestamp - old(lastTime)) / 1000.0));
              var percent := Num(BurnedPercent(Burning(old(cells[..]))) as real);
              && store.data == old(store.data)["water" := Num(water)]["burnedPercent" := percent]
              && store.calls == old(store.calls)
                                + (if old(Water()) < old(MaxWater()) then Dispatch(store.listeners, "water", Num(water)) else [])
                                + Dispatch(store.listeners, "burnedPercent", percent)
      ensures var before := old(cells[..]);
              var safe := SafeIndices(before);
              cells[..] == if roll < SpreadChance && Burning(before) < GridSize && |safe| > 0
                           then before[safe[SpreadIndex(|safe|, choice)] := FullFire]
                           else before
    {
      ghost var before := cells[..];
      var dt := (timestamp - lastTime) / 1000.0;
      lastTime := timestamp;
      RegenerateWater(dt);
      assert cells[..] == before;
      var burning := PublishBurned();
      assert cells[..] == before;
      SpreadFire(burning, roll, choice);
    }

    /** First step of a purchase: pay the price (notifying the coin
        listeners) and raise the level in place (notifying nobody). */
    method Pay(u: Upgrade)
      requires Valid()
      modifies store
      ensures store.Valid()
      ensures store.order == old(store.order) && store.listeners == old(store.listeners)
      ensures store.data == Paid(old(store.data), u)
      ensures store.calls == old(store.calls) + Dispatch(store.listeners, "coins", store.data["coins"])
    {
      store.Set("coins", Num(Coins() - Price(u, Level(u)) as real));
      store.SetNested("upgrades", u.Id(), Num(store.data["upgrades"].fields[u.Id()].n + 1.0));
    }

    /** A purchase the coins cover: pay for it (Pay), and for a tank reset
        the capacity from the new level (notifying the capacity listeners). */
    method Purchase(u: Upgrade)
      requires Valid() && Coins() >= Price(u, Level(u)) as real
      modifies store
      ensures Valid() && (old(Sane()) ==> Sane())
      ensures store.order == old(store.order) && store.listeners == old(store.listeners)
      ensures store.data == Bought(old(store.data), u)
      ensures store.calls == old(store.calls)
                             + Dispatch(store.listeners, "coins", store.data["coins"])
                             + (if u == Tank then Dispatch(store.listeners, "maxWater", store.data["maxWater"]) else [])
    {
      PurchaseEffect(store.data, u);
      Pay(u);
      if u == Tank {
        store.Set("maxWater", Num((BaseWater + TankBonus(Level(Tank))) as real));
      }
    }

    /** Buy one level of upgrade `u` at Price(u, level): with too few coins
        nothing changes; otherwise the purchase goes through (Purchase), with
        the effects PurchaseEffect lists. */
    method BuyUpgrade(u: Upgrade)
      requires Valid()
      modifies store
      ensures Valid() && (old(Sane()) ==> Sane())
      ensures store.order == old(store.order) && store.listeners == old(store.listeners)
      ensures old(Coins()) < Price(u, old(Level(u))) as real ==>
                store.data == old(store.data) && store.calls == old(store.calls)
      ensures old(Coins()) >= Price(u, old(Level(u))) as real ==>
                && store.data == Bought(old(store.data), u)
                && store.calls == old(store.calls)
                                  + Dispatch(store.listeners, "coins", store.data["coins"])
                                  + (if u == Tank then Dispatch(store.listeners, "maxWater", store.data["maxWater"]) else [])
    {
      var cost := Price(u, Level(u));
      if Coins() >= cost as real {
        Purchase(u);
      }
    }
  }
}
