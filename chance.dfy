/** The battle odds: `calculateWinningChances`, `random` and `chooseWinner`
    of main.go, as functions, with what they promise proved as lemmas. */
module Chance {
  import opened Types

  const INITIAL_CHANCE: int := 50
  const MIN_CHANCE: int := 5
  const MAX_CHANCE: int := 95
  /** Percentage points per attribute point of difference. */
  const POINT_WEIGHT: int := 5
  /** `chooseWinner` draws from [0, ROLL_RANGE). */
  const ROLL_RANGE: int := 100

  /** `int(math.Max(5.0, math.Min(float64(c), 95.0)))`. The float64 round
      trip cannot change which side of 5 or 95 an integer lies on, so this
      integer clamp gives the same value. */
  function Clamp(c: int): (r: int)
    ensures MIN_CHANCE <= r <= MAX_CHANCE
    ensures MIN_CHANCE <= c <= MAX_CHANCE ==> r == c
    ensures c < MIN_CHANCE ==> r == MIN_CHANCE
    ensures c > MAX_CHANCE ==> r == MAX_CHANCE
  {
    if c < MIN_CHANCE then MIN_CHANCE else if c > MAX_CHANCE then MAX_CHANCE else c
  }

  /** One of the three guarded blocks: when the two attribute values differ,
      add the weighted difference and clamp at once. */
  function Step(c: int, mine: int, theirs: int): (r: int)
    ensures mine == theirs ==> r == c
    ensures mine != theirs ==> MIN_CHANCE <= r <= MAX_CHANCE
    ensures MIN_CHANCE <= c <= MAX_CHANCE ==> r == Clamp(c + (mine - theirs) * POINT_WEIGHT)
  {
    if mine != theirs then Clamp(c + (mine - theirs) * POINT_WEIGHT) else c
  }

  /** `calculateWinningChances(playerData, opponentData)`: speed, then
      stamina, then strength, each step clamped before the next. */
  function WinChance(p: Player, o: Player): (r: int)
    ensures MIN_CHANCE <= r <= MAX_CHANCE
  {
    var afterSpeed := Step(INITIAL_CHANCE, p.speed, o.speed);
    var afterStamina := Step(afterSpeed, p.stamina, o.stamina);
    Step(afterStamina, p.strength, o.strength)
  }

  /** `random(a)`: `runtime.GetRandom() % a`. The runtime's random number is
      unsigned, so the draw is a natural number passed in by the caller. */
  function Random(draw: nat, n: int): (r: nat)
    requires n > 0
    ensures r < n
    ensures draw < n ==> r == draw
  {
    draw % n
  }

  /** `chooseWinner(chancePlayer1)` with the draw supplied by the caller. */
  function ChooseWinner(chance: int, draw: nat): (r: string)
    ensures r == PLAYER1 || r == PLAYER2
    ensures r == PLAYER1 <==> Random(draw, ROLL_RANGE) <= chance
  {
    if Random(draw, ROLL_RANGE) <= chance then PLAYER1 else PLAYER2
  }

  // ---------------------------------------------------------------------
  // Properties of the win chance

  /** Equal attributes leave the chance at even odds. */
  lemma EvenOdds(p: Player, o: Player)
    requires p.speed == o.speed && p.stamina == o.stamina && p.strength == o.strength
    ensures WinChance(p, o) == INITIAL_CHANCE
  {
  }

  /** A speed lead of 10 with everything else equal saturates at 95. */
  lemma SpeedLeadSaturates(p: Player, o: Player)
    requires p.speed == 10 && o.speed == 0
    requires p.stamina == o.stamina && p.strength == o.strength
    ensures WinChance(p, o) == MAX_CHANCE
  {
  }

  /** The clamp is applied after each step, not once at the end: a large speed
      lead is capped at 95 before a stamina deficit pulls it down to 45, while
      one clamp of the whole sum would have stayed at 95. */
  lemma ClampIsSequential(p: Player, o: Player)
    requires p.speed == 20 && o.speed == 0
    requires p.stamina == 0 && o.stamina == 10
    requires p.strength == o.strength
    ensures WinChance(p, o) == 45
    ensures Clamp(INITIAL_CHANCE + (p.speed - o.speed) * POINT_WEIGHT
                  + (p.stamina - o.stamina) * POINT_WEIGHT) == MAX_CHANCE
  {
  }

  /** Swapping the two fighters gives the complementary chance: the range
      [5,95] is symmetric about 50, and so is every clamped step. */
  lemma WinChanceSwap(p: Player, o: Player)
    ensures WinChance(o, p) == ROLL_RANGE - WinChance(p, o)
  {
  }

  /** Raising any of the player's attributes never lowers the chance. */
  lemma WinChanceMonotone(p: Player, q: Player, o: Player)
    requires p.speed <= q.speed && p.stamina <= q.stamina && p.strength <= q.strength
    ensures WinChance(p, o) <= WinChance(q, o)
  {
  }

  // ---------------------------------------------------------------------
  // Properties of the draw

  /** How many of the rolls 0 .. n-1 make `chooseWinner` name `who`. */
  function RollsFor(chance: int, who: string, n: nat): (k: nat)
    ensures k <= n
  {
    if n == 0 then 0
    else RollsFor(chance, who, n - 1) + (if ChooseWinner(chance, n - 1) == who then 1 else 0)
  }

  lemma {:induction false} RollsForPlayer1(chance: int, n: nat)
    requires 0 <= chance
    requires n <= ROLL_RANGE
    ensures RollsFor(chance, PLAYER1, n) == if n <= chance + 1 then n else chance + 1
  {
    if n > 0 {
      RollsForPlayer1(chance, n - 1);
    }
  }

  lemma {:induction false} RollsSplit(chance: int, n: nat)
    ensures RollsFor(chance, PLAYER1, n) + RollsFor(chance, PLAYER2, n) == n
  {
    if n > 0 {
      RollsSplit(chance, n - 1);
    }
  }

  /** Because the comparison is `<=`, a chance of c wins on c + 1 of the 100
      rolls, and loses on the other 99 - c. */
  lemma RollCounts(chance: int)
    requires 0 <= chance < ROLL_RANGE
    ensures RollsFor(chance, PLAYER1, ROLL_RANGE) == chance + 1
    ensures RollsFor(chance, PLAYER2, ROLL_RANGE) == ROLL_RANGE - 1 - chance
  {
    RollsForPlayer1(chance, ROLL_RANGE);
    RollsSplit(chance, ROLL_RANGE);
  }

  /** The inclusive comparison favours whoever starts the battle: a fighter
      who initiates wins on two more rolls than the same fighter challenged
      by the same opponent. */
  lemma InitiatorEdge(p: Player, o: Player)
    ensures RollsFor(WinChance(p, o), PLAYER1, ROLL_RANGE)
         == RollsFor(WinChance(o, p), PLAYER2, ROLL_RANGE) + 2
  {
    WinChanceSwap(p, o);
    RollCounts(WinChance(p, o));
    RollCounts(WinChance(o, p));
  }
}
