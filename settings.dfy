/** Game configuration and the tempo table.

    A speed setting selects a tempo (seconds per beat) from a fixed table;
    the other parameters drive the level generator and the session length. */
module Settings {

  datatype Option<T> = None | Some(value: T)

  /** A speed setting the tempo table has an entry for. */
  type Speed = s: int | 1 <= s <= 5 witness 2

  /** Seconds per beat for each speed setting (the SPEEDS table). */
  function Tempo(speed: Speed): (seconds: real)
    ensures 0.22 <= seconds <= 0.5
  {
    if speed == 1 then 0.5
    else if speed == 2 then 0.4
    else if speed == 3 then 0.3
    else if speed == 4 then 0.26
    else 0.22
  }

  /** A higher speed setting means a shorter beat. */
  lemma FasterIsShorter(slow: Speed, fast: Speed)
    requires slow < fast
    ensures Tempo(fast) < Tempo(slow)
  {
  }

  /** Which fixed symbol set a session draws from. */
  datatype PoolType = Animals | Anan1 | Shenren

  /** How many distinct symbols each level uses. */
  datatype Complexity = FixedCount | Increasing | RandomCount

  datatype Params = Params(
    speed: Speed,
    totalLevels: int,
    poolSize: int,
    poolType: PoolType,
    complexity: Complexity,
    fixedCount: int)

  /** The parameters a new game starts with. */
  const Defaults := Params(2, 10, 18, Animals, RandomCount, 3)

  /** A partial parameter object: the fields it leaves out keep their value. */
  datatype Patch = Patch(
    speed: Option<Speed>,
    totalLevels: Option<int>,
    poolSize: Option<int>,
    poolType: Option<PoolType>,
    complexity: Option<Complexity>,
    fixedCount: Option<int>)

  function Pick<T>(supplied: Option<T>, current: T): T {
    if supplied.Some? then supplied.value else current
  }

  /** `{ ...params, ...patch }`: supplied fields win, the others are kept. */
  function Merge(p: Params, patch: Patch): (r: Params)
    ensures patch.speed.Some? ==> r.speed == patch.speed.value
    ensures patch.speed.None? ==> r.speed == p.speed
    ensures patch.totalLevels.Some? ==> r.totalLevels == patch.totalLevels.value
    ensures patch.totalLevels.None? ==> r.totalLevels == p.totalLevels
    ensures patch.poolSize.Some? ==> r.poolSize == patch.poolSize.value
    ensures patch.poolSize.None? ==> r.poolSize == p.poolSize
    ensures patch.poolType.Some? ==> r.poolType == patch.poolType.value
    ensures patch.poolType.None? ==> r.poolType == p.poolType
    ensures patch.complexity.Some? ==> r.complexity == patch.complexity.value
    ensures patch.complexity.None? ==> r.complexity == p.complexity
    ensures patch.fixedCount.Some? ==> r.fixedCount == patch.fixedCount.value
    ensures patch.fixedCount.None? ==> r.fixedCount == p.fixedCount
  {
    Params(
      Pick(patch.speed, p.speed),
      Pick(patch.totalLevels, p.totalLevels),
      Pick(patch.poolSize, p.poolSize),
      Pick(patch.poolType, p.poolType),
      Pick(patch.complexity, p.complexity),
      Pick(patch.fixedCount, p.fixedCount))
  }
}
