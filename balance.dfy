/** The tuning table of the game (its CONFIG object) and the pure formulas
    the controller evaluates inline: click power, extinguish reward, the
    damage of one click, water top-up, the upgrade price curve, the burned
    percentage and the choice of the cell a spreading fire lands on. */
module Balance {

  /** Number of building cells on the grid. */
  const GridSize: nat := 25
  /** Water regained per second of play. */
  const RegenRate: real := 20.0
  /** Chance, per frame, that one more fire starts. */
  const SpreadChance: real := 0.015
  /** Water spent by the rain ability. */
  const RainCost: real := 50.0
  /** Water spent by one click on a burning cell. */
  const ClickCost: real := 5.0
  /** Water added by one press of the refill button. */
  const RefillAmount: real := 15.0
  /** Hit points of a freshly lit cell. */
  const FullFire: int := 100
  /** Click power that every pump level gets on top of its table entry. */
  const BaseClickPower: int := 20
  /** Water capacity that every tank level gets on top of its table entry. */
  const BaseWater: int := 100

  /** Extra click power per pump level; the table covers levels 0 to 5. */
  const PumpLevels: seq<int> := [0, 5, 12, 25, 50, 100]
  /** Extra water capacity per tank level; the table covers levels 0 to 5. */
  const TankLevels: seq<int> := [0, 50, 150, 300, 600, 1000]

  /** A table lookup that may fall off the end. */
  datatype Option<T> = None | Some(value: T)

  /** The two upgrades sold in the shop. */
  datatype Upgrade = Pump | Tank {
    /** The key of the upgrade in the saved `upgrades` record. */
    function Id(): string {
      match this
      case Pump => "pump"
      case Tank => "tank"
    }

    function BasePrice(): nat {
      match this
      case Pump => 100
      case Tank => 250
    }

    /** Factor by which the price grows with each level (exact rationals 8/5 and 3/2). */
    function Growth(): real {
      match this
      case Pump => 1.6
      case Tank => 1.5
    }

    /** The other upgrade. */
    function Other(): (o: Upgrade)
      ensures o != this && o.Id() != this.Id()
    {
      match this
      case Pump => Tank
      case Tank => Pump
    }
  }

  /** `g` raised to the power `n`, exactly. */
  function Pow(g: real, n: nat): real {
    if n == 0 then 1.0 else g * Pow(g, n - 1)
  }

  lemma {:induction false} PowAtLeastOne(g: real, n: nat)
    requires g >= 1.0
    ensures Pow(g, n) >= 1.0
  {
    if n > 0 {
      PowAtLeastOne(g, n - 1);
      assert g * Pow(g, n - 1) >= 1.0 * Pow(g, n - 1);
    }
  }

  /** Price of buying upgrade `u` while it stands at level `lvl`:
      floor(base * growth^lvl), computed on exact rationals. */
  function Price(u: Upgrade, lvl: nat): (price: nat)
    ensures price >= u.BasePrice()
  {
    var b := u.BasePrice() as real;
    PowAtLeastOne(u.Growth(), lvl);
    assert b * Pow(u.Growth(), lvl) >= b * 1.0;
    (b * Pow(u.Growth(), lvl)).Floor
  }

  /** Each level costs strictly more than the one before. */
  lemma PriceStep(u: Upgrade, lvl: nat)
    ensures Price(u, lvl) < Price(u, lvl + 1)
  {
  }

  /** The price curve never flattens: a higher level always costs more. */
  lemma {:induction false} PriceStrictlyIncreasing(u: Upgrade, lvl: nat, later: nat)
    requires lvl < later
    ensures Price(u, lvl) < Price(u, later)
  {
    PriceStep(u, later - 1);
    if lvl < later - 1 {
      PriceStrictlyIncreasing(u, lvl, later - 1);
    }
  }

  /** The second pump level costs 160 coins and the second tank level 375. */
  lemma PriceAtLevelOne()
    ensures Price(Pump, 1) == 160 && Price(Tank, 1) == 375
  {
  }

  /** The pump table entry a click at level `pump` reads, as the click
      handler indexes it: nothing past the table, where the click power
      becomes NaN. */
  function PumpBonusAsWritten(pump: nat): (bonus: Option<int>)
    ensures bonus.Some? <==> pump < |PumpLevels|
    ensures bonus.Some? ==> 0 <= bonus.value <= PumpLevels[|PumpLevels| - 1]
  {
    if pump < |PumpLevels| then Some(PumpLevels[pump]) else None
  }

  /** Where the click handler's read is defined, a higher level never reads
      a smaller bonus. */
  lemma PumpReadMonotone(lo: nat, hi: nat)
    requires lo <= hi < |PumpLevels|
    ensures PumpBonusAsWritten(lo).Some? && PumpBonusAsWritten(hi).Some?
    ensures PumpBonusAsWritten(lo).value <= PumpBonusAsWritten(hi).value
  {
  }

  /** Extra click power at pump level `pump`, the last row applying past
      the end of the table. */
  function PumpBonus(pump: nat): (bonus: int)
    ensures pump < |PumpLevels| ==> PumpBonusAsWritten(pump) == Some(bonus)
    ensures pump >= |PumpLevels| ==> bonus == PumpLevels[|PumpLevels| - 1]
  {
    if pump < |PumpLevels| then PumpLevels[pump] else PumpLevels[|PumpLevels| - 1]
  }

  /** Damage done by one click at pump level `pump`. */
  function ClickPower(pump: nat): (power: int)
    ensures BaseClickPower <= power <= BaseClickPower + PumpLevels[|PumpLevels| - 1]
    ensures pump < |PumpLevels| ==> PumpBonusAsWritten(pump) == Some(power - BaseClickPower)
    ensures pump >= |PumpLevels| ==> power == BaseClickPower + PumpLevels[|PumpLevels| - 1]
  {
    PumpBonus(pump) + BaseClickPower
  }

  /** A better pump never hits softer. */
  lemma ClickPowerMonotone(lo: nat, hi: nat)
    requires lo <= hi
    ensures ClickPower(lo) <= ClickPower(hi)
  {
  }

  /** The tank table entry a purchase reaching `level` reads, as the shop
      indexes it: the fallback to row 5 applies to the index, so only to
      level 0, and a level past the table reads nothing (the capacity
      becomes NaN). */
  function TankBonusAsWritten(level: nat): (bonus: Option<int>)
    ensures bonus.Some? <==> level < |TankLevels|
    ensures level == 0 ==> bonus == Some(TankLevels[|TankLevels| - 1])
  {
    var row := if level != 0 then level else 5;
    if row < |TankLevels| then Some(TankLevels[row]) else None
  }

  /** Extra water capacity at tank level `level`, the last row applying
      past the end of the table. */
  function TankBonus(level: nat): (bonus: int)
    ensures 1 <= level < |TankLevels| ==> TankBonusAsWritten(level) == Some(bonus)
    ensures level >= |TankLevels| ==> bonus == TankLevels[|TankLevels| - 1]
  {
    if level < |TankLevels| then TankLevels[level] else TankLevels[|TankLevels| - 1]
  }

  /** A bigger tank never holds less. */
  lemma TankBonusMonotone(lo: nat, hi: nat)
    requires lo <= hi
    ensures TankBonus(lo) <= TankBonus(hi)
  {
  }

  /** Coins paid for putting out one fire at pump level `pump`. */
  function Reward(pump: nat): (coins: nat)
    ensures coins >= 10 && coins % 2 == 0
  {
    10 + pump * 2
  }

  /** Hit points left after one click of strength `power` on a cell at `hp`. */
  function Hit(hp: int, power: int): (left: int)
    ensures left >= 0
    ensures power >= 0 ==> left <= hp || hp < 0
    ensures left == 0 <==> hp <= power
    ensures left > 0 ==> left == hp - power
  {
    if hp - power > 0 then hp - power else 0
  }

  /** Water after adding `amount`, capped at `cap`; a tank already at or
      above its cap is left alone. */
  function TopUp(water: real, cap: real, amount: real): (w: real)
    requires amount >= 0.0
    ensures water >= cap ==> w == water
    ensures water < cap ==> water <= w <= cap && (w == water + amount || w == cap)
    ensures w <= water + amount
  {
    if water < cap then (if water + amount < cap then water + amount else cap) else water
  }

  /** Share of the grid on fire, as floor(burning / size * 100). */
  function BurnedPercent(burning: nat): (percent: nat)
    requires burning <= GridSize
    ensures percent <= 100
    ensures percent == 0 <==> burning == 0
    ensures percent == 100 <==> burning == GridSize
    ensures percent == 4 * burning
  {
    ((burning as real / GridSize as real) * 100.0).Floor
  }

  /** Index picked among `count` safe cells by a uniform draw `choice` in [0, 1),
      as floor(choice * count). */
  function SpreadIndex(count: nat, choice: real): (k: nat)
    requires count > 0 && 0.0 <= choice < 1.0
    ensures k < count
  {
    assert choice * count as real < 1.0 * count as real;
    (choice * count as real).Floor
  }

  /** A cell's hit points after `clicks` clicks of strength `power`, each
      with enough water; clicks on a safe cell do nothing. */
  function AfterClicks(hp: int, power: int, clicks: nat): int
    decreases clicks
  {
    if clicks == 0 || hp <= 0 then hp else AfterClicks(Hit(hp, power), power, clicks - 1)
  }

  /** How many of those clicks paid a reward, i.e. took the cell to 0. */
  function RewardsPaid(hp: int, power: int, clicks: nat): nat
    decreases clicks
  {
    if clicks == 0 || hp <= 0 then 0
    else (if Hit(hp, power) == 0 then 1 else 0) + RewardsPaid(Hit(hp, power), power, clicks - 1)
  }

  /** After n clicks a burning cell stands at max(0, hp - n * power). */
  lemma {:induction false} AfterClicksValue(hp: int, power: int, clicks: nat)
    requires hp > 0 && power > 0
    ensures AfterClicks(hp, power, clicks) == if hp - clicks * power > 0 then hp - clicks * power else 0
  {
    if clicks > 0 {
      if hp - power > 0 {
        AfterClicksValue(hp - power, power, clicks - 1);
        assert hp - power - (clicks - 1) * power == hp - clicks * power;
      } else {
        assert hp - clicks * power <= hp - power;
      }
    }
  }

  /** A burning cell pays its reward exactly once, on the click that takes it
      to 0, and never again; clicks that leave it burning pay nothing. */
  lemma {:induction false} RewardPaidOnce(hp: int, power: int, clicks: nat)
    requires hp >= 0 && power > 0
    ensures RewardsPaid(hp, power, clicks) == if hp > 0 && clicks * power >= hp then 1 else 0
  {
    if clicks > 0 && hp > 0 {
      if Hit(hp, power) == 0 {
        assert RewardsPaid(0, power, clicks - 1) == 0;
        assert clicks * power >= 1 * power;
      } else {
        RewardPaidOnce(hp - power, power, clicks - 1);
        assert (clicks - 1) * power == clicks * power - power;
      }
    }
  }

  /** At pump level 1 (power 25) a fresh fire is at 50 after two clicks and out
      after four, and six clicks pay exactly one reward. */
  lemma FreshFireAtPumpOne()
    ensures ClickPower(1) == 25
    ensures AfterClicks(FullFire, ClickPower(1), 2) == 50
    ensures AfterClicks(FullFire, ClickPower(1), 3) == 25
    ensures AfterClicks(FullFire, ClickPower(1), 4) == 0
    ensures RewardsPaid(FullFire, ClickPower(1), 6) == 1
  {
  }
}
