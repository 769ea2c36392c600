/** The generator object, proved to take exactly the steps of SnowflakeModel. */
module Snowflake {
  import opened SnowflakeModel

  /** Options as supplied; zero selects a default. */
  datatype Options = Options(
    workerId: int, workerIdBitLength: nat, seqBitLength: nat, maxSeqNumber: int, minSeqNumber: int, topOverCostCount: int)

  function Configured(o: Options): Config {
    var seqBits := if o.seqBitLength != 0 then o.seqBitLength else 6;
    Config(if o.workerIdBitLength != 0 then o.workerIdBitLength else 6, o.workerId, seqBits, o.minSeqNumber,
           if o.maxSeqNumber <= 0 then Pow2(seqBits) - 1 else o.maxSeqNumber, o.topOverCostCount)
  }

  /** Six bits each for worker and sequence by default, and the whole sequence field. */
  lemma Defaults(o: Options)
    ensures var c := Configured(o);
            && c.worker == o.workerId && c.minSeq == o.minSeqNumber && c.topOverCost == o.topOverCostCount
            && c.workerBits == (if o.workerIdBitLength == 0 then 6 else o.workerIdBitLength)
            && c.seqBits == (if o.seqBitLength == 0 then 6 else o.seqBitLength)
            && c.maxSeq == (if o.maxSeqNumber > 0 then o.maxSeqNumber else Pow2(c.seqBits) - 1)
    ensures Start(Configured(o)) == Gen(0, o.minSeqNumber, 0, 0, false, 0, 0)
  {
  }

  class SnowFlakeM1 {
    const workerIdBitLength: nat
    const workerId: int
    const seqBitLength: nat
    const maxSeqNumber: int
    const minSeqNumber: int
    const topOverCostCount: int
    const timestampShift: nat
    var currentSeqNumber: int
    var lastTimeTick: int
    var turnBackTimeTick: int
    var turnBackIndex: int
    var isOverCost: bool
    var overCostCountInOneTerm: int
    // How many turn-back episodes there have been.
    ghost var episode: nat

    constructor (o: Options)
      ensures Valid() && Configuration() == Configured(o) && Abs() == Start(Configured(o))
    {
      workerIdBitLength := if o.workerIdBitLength != 0 then o.workerIdBitLength else 6;
      workerId := o.workerId;
      var seqBits := if o.seqBitLength != 0 then o.seqBitLength else 6;
      seqBitLength := seqBits;
      maxSeqNumber := if o.maxSeqNumber <= 0 then Pow2(seqBits) - 1 else o.maxSeqNumber;
      minSeqNumber := o.minSeqNumber;
      topOverCostCount := o.topOverCostCount;
      timestampShift := (if o.workerIdBitLength != 0 then o.workerIdBitLength else 6) + seqBits;
      currentSeqNumber, lastTimeTick, turnBackTimeTick, turnBackIndex := o.minSeqNumber, 0, 0, 0;
      isOverCost, overCostCountInOneTerm, episode := false, 0, 0;
    }

    ghost predicate Valid() {
      timestampShift == workerIdBitLength + seqBitLength
    }

    function Configuration(): Config {
      Config(workerIdBitLength, workerId, seqBitLength, minSeqNumber, maxSeqNumber, topOverCostCount)
    }

    ghost function Abs(): Gen
      reads this
    {
      Gen(lastTimeTick, currentSeqNumber, turnBackTimeTick, turnBackIndex, isOverCost, overCostCountInOneTerm, episode)
    }

    method CalcId(useTimeTick: int) returns (id: int)
      requires Valid()
      modifies this`currentSeqNumber
      ensures currentSeqNumber == old(currentSeqNumber) + 1
      ensures id == Id(Configuration(), Regular(useTimeTick, currentSeqNumber))
    {
      currentSeqNumber := currentSeqNumber + 1;
      id := (useTimeTick * Pow2(timestampShift) + workerId * Pow2(seqBitLength) + currentSeqNumber) % MODULUS;
    }

    /** The tick is used before it is counted down. */
    method CalcTurnBackId(useTimeTick: int) returns (id: int)
      requires Valid()
      modifies this`turnBackTimeTick
      ensures turnBackTimeTick == old(turnBackTimeTick) - 1
      ensures id == Id(Configuration(), TurnedBack(useTimeTick, turnBackIndex, episode))
    {
      turnBackTimeTick := turnBackTimeTick - 1;
      id := (useTimeTick * Pow2(timestampShift) + workerId * Pow2(seqBitLength) + turnBackIndex) % MODULUS;
    }

    method NextOverCostId(t: Tick) returns (id: int)
      requires Valid() && isOverCost
      modifies this
      ensures Abs() == Step(Configuration(), old(Abs()), t).0
      ensures id == Id(Configuration(), Step(Configuration(), old(Abs()), t).1)
    {
      var currentTimeTick := t.now;
      if currentTimeTick > lastTimeTick {
        lastTimeTick, currentSeqNumber := currentTimeTick, minSeqNumber;
        isOverCost, overCostCountInOneTerm := false, 0;
        id := CalcId(lastTimeTick);
        return;
      }
      if overCostCountInOneTerm >= topOverCostCount {
        lastTimeTick, currentSeqNumber := t.waited, minSeqNumber;
        isOverCost, overCostCountInOneTerm := false, 0;
        id := CalcId(lastTimeTick);
        return;
      }
      if currentSeqNumber > maxSeqNumber {
        lastTimeTick, currentSeqNumber := lastTimeTick + 1, minSeqNumber;
        isOverCost, overCostCountInOneTerm := true, overCostCountInOneTerm + 1;
        id := CalcId(lastTimeTick);
        return;
      }
      id := CalcId(lastTimeTick);
    }

    method NextNormalId(t: Tick) returns (id: int)
      requires Valid() && !isOverCost
      modifies this
      ensures Abs() == Step(Configuration(), old(Abs()), t).0
      ensures id == Id(Configuration(), Step(Configuration(), old(Abs()), t).1)
    {
      var currentTimeTick := t.now;
      if currentTimeTick < lastTimeTick {
        if turnBackTimeTick < 1 {
          turnBackTimeTick := lastTimeTick - 1;
          turnBackIndex := turnBackIndex + 1;
          episode := episode + 1;
          if turnBackIndex > 4 {
            turnBackIndex := 1;
          }
        }
        id := CalcTurnBackId(turnBackTimeTick);
        return;
      }
      turnBackTimeTick := if turnBackTimeTick < 0 then turnBackTimeTick else 0;
      if currentTimeTick > lastTimeTick {
        lastTimeTick, currentSeqNumber := currentTimeTick, minSeqNumber;
        id := CalcId(lastTimeTick);
        return;
      }
      if currentSeqNumber > maxSeqNumber {
        lastTimeTick, currentSeqNumber := lastTimeTick + 1, minSeqNumber;
        isOverCost, overCostCountInOneTerm := true, 1;
        id := CalcId(lastTimeTick);
        return;
      }
      id := CalcId(lastTimeTick);
    }

    method NextId(t: Tick) returns (id: int)
      requires Valid()
      modifies this
      ensures Abs() == Step(Configuration(), old(Abs()), t).0
      ensures id == Id(Configuration(), Step(Configuration(), old(Abs()), t).1)
    {
      if isOverCost {
        id := NextOverCostId(t);
      } else {
        id := NextNormalId(t);
      }
    }
  }

  /** Drawing one id per tick from a new generator: with at most four turn-back episodes, and numbers
      below the modulus, no id is drawn twice. */
  method Draw(o: Options, ticks: seq<Tick>) returns (ids: seq<int>)
    requires Documented(Configured(o)) && ClockOk(Configured(o), ticks)
    ensures |ids| == |ticks|
    ensures forall i :: 0 <= i < |ids| ==> ids[i] == Id(Configured(o), Emits(Configured(o), ticks)[i])
    ensures Unreduced(Configured(o), Emits(Configured(o), ticks)) && After(Configured(o), ticks).episode <= 4 ==>
              forall i, j :: 0 <= i < j < |ids| ==> ids[i] != ids[j]
  {
    var generator := new SnowFlakeM1(o);
    ids := [];
    for n := 0 to |ticks|
      invariant generator.Configuration() == Configured(o) && generator.Valid()
      invariant fresh(generator) && generator.Abs() == After(Configured(o), ticks[..n])
      invariant |ids| == n
      invariant forall i :: 0 <= i < n ==> ids[i] == Id(Configured(o), Emits(Configured(o), ticks[..n])[i])
    {
      assert ticks[..n + 1] == ticks[..n] + [ticks[n]];
      EmitsGrow(Configured(o), ticks[..n], ticks[n]);
      var id := generator.NextId(ticks[n]);
      ids := ids + [id];
    }
    assert ticks[..|ticks|] == ticks;
    if Unreduced(Configured(o), Emits(Configured(o), ticks)) && After(Configured(o), ticks).episode <= 4 {
      FourEpisodesAreSafe(Configured(o), ticks);
    }
  }
}
