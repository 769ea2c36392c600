/** The snowflake generator as a step function, and which of its ids can coincide. */
module SnowflakeModel {

  function Pow2(n: nat): (r: int)
    ensures r >= 1
  {
    if n == 0 then 1 else 2 * Pow2(n - 1)
  }

  /** int(1e64), the nearest double to ten to the 64. */
  const MODULUS := 10000000000000000213204190094543968723012578712679649467743338496

  datatype Config = Config(workerBits: nat, worker: int, seqBits: nat, minSeq: int, maxSeq: int, topOverCost: int)

  /** The documented option ranges. */
  predicate Documented(c: Config) {
    && 1 <= c.workerBits && 3 <= c.seqBits && c.workerBits + c.seqBits <= 22
    && 0 <= c.worker < Pow2(c.workerBits)
    && 5 <= c.minSeq <= c.maxSeq <= Pow2(c.seqBits) - 1
  }

  /** One call's clock: the reading, and the first later reading if the call has to wait. */
  datatype Tick = Tick(now: int, waited: int)

  /** `episode` counts the turn-back episodes started so far; the rest are the generator's fields. */
  datatype Gen = Gen(last: int, number: int, turnBack: int, index: int, overCost: bool, term: int, episode: nat)

  /** What an id is made of. */
  datatype Emit = Regular(tick: int, number: int) | TurnedBack(tick: int, index: int, episode: nat)

  function Start(c: Config): Gen {
    Gen(0, c.minSeq, 0, 0, false, 0, 0)
  }

  function Field(e: Emit): int {
    match e
    case Regular(_, number) => number
    case TurnedBack(_, index, _) => index
  }

  function Raw(c: Config, e: Emit): int {
    e.tick * Pow2(c.workerBits + c.seqBits) + c.worker * Pow2(c.seqBits) + Field(e)
  }

  function Id(c: Config, e: Emit): int {
    Raw(c, e) % MODULUS
  }

  // --------------------------------------------------------------------------------------------
  // Steps
  // --------------------------------------------------------------------------------------------

  /** The call has to wait for a tick beyond the last one. */
  predicate Waits(c: Config, g: Gen, t: Tick) {
    g.overCost && t.now <= g.last && g.term >= c.topOverCost
  }

  /** Emitting a regular id advances the sequence number first. */
  function Calc(g: Gen): (Gen, Emit) {
    (g.(number := g.number + 1), Regular(g.last, g.number + 1))
  }

  function OverCostStep(c: Config, g: Gen, t: Tick): (Gen, Emit) {
    if t.now > g.last then Calc(g.(last := t.now, number := c.minSeq, overCost := false, term := 0))
    else if g.term >= c.topOverCost then Calc(g.(last := t.waited, number := c.minSeq, overCost := false, term := 0))
    else if g.number > c.maxSeq then Calc(g.(last := g.last + 1, number := c.minSeq, overCost := true, term := g.term + 1))
    else Calc(g)
  }

  function TurnBackStep(g: Gen): (Gen, Emit) {
    var h :=
      if g.turnBack >= 1 then g
      else g.(turnBack := g.last - 1, index := if g.index + 1 > 4 then 1 else g.index + 1, episode := g.episode + 1);
    (h.(turnBack := h.turnBack - 1), TurnedBack(h.turnBack, h.index, h.episode))
  }

  function NormalStep(c: Config, g: Gen, t: Tick): (Gen, Emit) {
    if t.now < g.last then TurnBackStep(g)
    else
      var h := g.(turnBack := if g.turnBack < 0 then g.turnBack else 0);
      if t.now > h.last then Calc(h.(last := t.now, number := c.minSeq))
      else if h.number > c.maxSeq then Calc(h.(last := h.last + 1, number := c.minSeq, overCost := true, term := 1))
      else Calc(h)
  }

  function Step(c: Config, g: Gen, t: Tick): (Gen, Emit) {
    if g.overCost then OverCostStep(c, g, t) else NormalStep(c, g, t)
  }

  function After(c: Config, ticks: seq<Tick>): Gen {
    if ticks == [] then Start(c)
    else Step(c, After(c, ticks[..|ticks| - 1]), ticks[|ticks| - 1]).0
  }

  function Emits(c: Config, ticks: seq<Tick>): (r: seq<Emit>)
    ensures |r| == |ticks|
  {
    if ticks == [] then []
    else Emits(c, ticks[..|ticks| - 1]) + [Step(c, After(c, ticks[..|ticks| - 1]), ticks[|ticks| - 1]).1]
  }

  /** Any clock that does not read before the base time; waiting ends beyond the last tick. */
  predicate ClockOk(c: Config, ticks: seq<Tick>) {
    ticks == [] ||
    var front, t := ticks[..|ticks| - 1], ticks[|ticks| - 1];
    ClockOk(c, front) && t.now >= 0 && (Waits(c, After(c, front), t) ==> t.waited > After(c, front).last)
  }

  /** The greatest reading taken, those of waiting calls included. */
  function Latest(c: Config, ticks: seq<Tick>): int {
    if ticks == [] then 0
    else
      var front, t := ticks[..|ticks| - 1], ticks[|ticks| - 1];
      var seen := if Waits(c, After(c, front), t) && t.waited > t.now then t.waited else t.now;
      if seen > Latest(c, front) then seen else Latest(c, front)
  }

  // --------------------------------------------------------------------------------------------
  // Ids determine what they are made of
  // --------------------------------------------------------------------------------------------

  lemma {:induction false} PowSum(a: nat, b: nat)
    ensures Pow2(a + b) == Pow2(a) * Pow2(b)
    decreases b
  {
    if b > 0 {
      PowSum(a, b - 1);
      assert Pow2(a) * Pow2(b) == 2 * (Pow2(a) * Pow2(b - 1));
    }
  }

  lemma DigitsUnique(s: int, a: int, b: int, x: int, y: int)
    requires s >= 1 && 0 <= x < s && 0 <= y < s && a * s + x == b * s + y
    ensures a == b && x == y
  {
    if a > b {
      Gap(a, b, s);
    } else if a < b {
      Gap(b, a, s);
    }
  }

  lemma Times(a: int, b: int)
    requires a >= 0 && b >= 0
    ensures a * b >= 0
  {
  }

  lemma Gap(a: int, b: int, s: int)
    requires a > b && s >= 1
    ensures a * s >= b * s + s
  {
    var d := a - b - 1;
    assert d * s >= 0;
    assert a * s == b * s + s + d * s;
  }

  /** The field of every id: a sequence number beyond the reserved ones, or a reserved index.  The
      largest sequence number is 2^seqBits, which carries into the worker field. */
  predicate Encodable(c: Config, e: Emit) {
    match e
    case Regular(tick, number) => tick >= 0 && c.minSeq < number <= Pow2(c.seqBits)
    case TurnedBack(tick, index, _) => tick >= 0 && 1 <= index <= 4
  }

  lemma WorkerRange(w: int, worker: int, b: int, field: int)
    requires 0 <= worker < w && b >= 1 && 1 <= field <= b
    ensures 0 <= worker * b + field - 1 < w * b
  {
    Times(worker, b);
    Gap(w, worker, b);
  }

  lemma FieldFits(c: Config, e: Emit)
    requires Documented(c) && Encodable(c, e)
    ensures 1 <= Field(e) <= Pow2(c.seqBits)
  {
    assert Pow2(c.seqBits) >= Pow2(3) by {
      PowSum(3, c.seqBits - 3);
      assert Pow2(3) == 8;
      assert Pow2(3) * Pow2(c.seqBits - 3) >= 8;
    }
    assert Pow2(3) == 8;
  }

  /** Two generators with the same field widths issue the same number only if worker, tick and field
      agree: the carry of the largest sequence number loses nothing. */
  lemma RawDetermines(c: Config, d: Config, e: Emit, f: Emit)
    requires Documented(c) && Documented(d) && c.workerBits == d.workerBits && c.seqBits == d.seqBits
    requires Encodable(c, e) && Encodable(d, f)
    ensures Raw(c, e) == Raw(d, f) <==> c.worker == d.worker && e.tick == f.tick && Field(e) == Field(f)
  {
    FieldFits(c, e);
    FieldFits(d, f);
    var b, w := Pow2(c.seqBits), Pow2(c.workerBits);
    PowSum(c.workerBits, c.seqBits);
    WorkerRange(w, c.worker, b, Field(e));
    WorkerRange(w, d.worker, b, Field(f));
    if Raw(c, e) == Raw(d, f) {
      DigitsUnique(w * b, e.tick, f.tick, c.worker * b + Field(e) - 1, d.worker * b + Field(f) - 1);
      DigitsUnique(b, c.worker, d.worker, Field(e) - 1, Field(f) - 1);
    }
  }

  lemma RawIncreases(c: Config, e: Emit, f: Emit)
    requires Documented(c) && Encodable(c, e) && Encodable(c, f)
    requires e.tick < f.tick || (e.tick == f.tick && Field(e) < Field(f))
    ensures Raw(c, e) < Raw(c, f)
  {
    FieldFits(c, e);
    FieldFits(c, f);
    var b, w := Pow2(c.seqBits), Pow2(c.workerBits);
    PowSum(c.workerBits, c.seqBits);
    WorkerRange(w, c.worker, b, Field(e));
    WorkerRange(w, c.worker, b, Field(f));
    if e.tick < f.tick {
      Gap(f.tick, e.tick, w * b);
    }
  }

  lemma DivMod(q: int, b: int, x: int)
    requires b >= 1 && 0 <= x < b
    ensures (q * b + x) / b == q && (q * b + x) % b == x
  {
    var n := q * b + x;
    assert n == (n / b) * b + n % b;
    DigitsUnique(b, n / b, q, n % b, x);
  }

  /** The layout of a number: tick, worker and field from the highest bits down.  Only the largest
      sequence number does not fit its field: it leaves it zero and reads as the next worker's. */
  lemma RawLayout(c: Config, e: Emit)
    requires Documented(c) && Encodable(c, e)
    ensures var b, w, high := Pow2(c.seqBits), Pow2(c.workerBits), Raw(c, e) / Pow2(c.seqBits);
            if Field(e) < b then Raw(c, e) % b == Field(e) && high % w == c.worker && high / w == e.tick
            else Field(e) == b && Raw(c, e) % b == 0 && high == e.tick * w + c.worker + 1
  {
    FieldFits(c, e);
    PowSum(c.workerBits, c.seqBits);
    LayoutDigits(e.tick, Pow2(c.workerBits), Pow2(c.seqBits), c.worker, Field(e));
  }

  lemma Regroup(t: int, w: int, b: int, v: int)
    ensures t * (w * b) + v * b == (t * w + v) * b
    ensures (t * w + v) * b + b == (t * w + v + 1) * b
  {
  }

  lemma LayoutDigits(t: int, w: int, b: int, v: int, field: int)
    requires w >= 1 && b >= 1 && 0 <= v < w && 1 <= field <= b
    ensures var raw := t * (w * b) + v * b + field;
            if field < b then raw % b == field && (raw / b) % w == v && (raw / b) / w == t
            else raw % b == 0 && raw / b == t * w + v + 1
  {
    Regroup(t, w, b, v);
    DivMod(t, w, v);
    DigitsOf(t * w + v, b, field, t * (w * b) + v * b + field);
  }

  lemma DigitsOf(q: int, b: int, field: int, raw: int)
    requires b >= 1 && 1 <= field <= b && raw == q * b + field
    ensures if field < b then raw % b == field && raw / b == q else raw % b == 0 && raw / b == q + 1
  {
    if field < b {
      DivMod(q, b, field);
    } else {
      DivMod(q + 1, b, 0);
    }
  }

  /** What each call issues, and the mode it leaves: a reading beyond the last tick starts that tick; at
      the last tick numbers follow each other until they are used up, which borrows the next tick, at most
      topOverCost times in a row before the call waits; only a normal call turns back. */
  lemma WhatIsIssued(c: Config, g: Gen, t: Tick)
    ensures var h, e := Step(c, g, t).0, Step(c, g, t).1;
            if t.now > g.last then
              e == Regular(t.now, c.minSeq + 1) && !h.overCost
            else if g.overCost && g.term >= c.topOverCost then
              e == Regular(t.waited, c.minSeq + 1) && !h.overCost
            else if !g.overCost && t.now < g.last then
              && e.TurnedBack? && e.tick < Most(g.last, g.turnBack + 1) && !h.overCost
              && h.last == g.last && h.number == g.number && h.turnBack == e.tick - 1
              && (if g.turnBack >= 1 then e == TurnedBack(g.turnBack, g.index, g.episode)
                  else e == TurnedBack(g.last - 1, if g.index >= 4 then 1 else g.index + 1, g.episode + 1))
            else if g.number > c.maxSeq then
              && e == Regular(g.last + 1, c.minSeq + 1) && h.overCost
              && h.term == if g.overCost then g.term + 1 else 1
            else
              e == Regular(g.last, g.number + 1) && h.overCost == g.overCost && h.term == g.term
    ensures var h, e := Step(c, g, t).0, Step(c, g, t).1; e.Regular? ==> h.last == e.tick && h.number == e.number
  {
  }

  // --------------------------------------------------------------------------------------------
  // Runs
  // --------------------------------------------------------------------------------------------

  ghost predicate Inv(c: Config, g: Gen, emits: seq<Emit>) {
    && g.last >= 0 && c.minSeq <= g.number <= c.maxSeq + 1
    && (g.episode == 0 ==> g.turnBack <= 0)
    && g.index == (if g.episode == 0 then 0 else (g.episode - 1) % 4 + 1)
    && (forall i :: 0 <= i < |emits| ==> EmitOk(c, g, emits[i]))
    && (forall i, j :: 0 <= i < j < |emits| ==> Ordered(emits[i], emits[j]))
  }

  /** An id issued earlier, seen from the present state. */
  predicate EmitOk(c: Config, g: Gen, e: Emit) {
    && Encodable(c, e)
    && match e
       case Regular(tick, number) => tick < g.last || (tick == g.last && number <= g.number)
       case TurnedBack(tick, index, episode) =>
         1 <= episode <= g.episode && index == (episode - 1) % 4 + 1 && (episode == g.episode ==> tick > g.turnBack)
  }

  /** Regular ids ascend; a later turned-back id is in a later episode, or at an earlier tick. */
  predicate Ordered(e: Emit, f: Emit) {
    match (e, f)
    case (Regular(t, s), Regular(t', s')) => t < t' || (t == t' && s < s')
    case (TurnedBack(t, _, k), TurnedBack(t', _, k')) => k < k' || (k == k' && t > t')
    case _ => true
  }

  lemma StepEmits(c: Config, g: Gen, t: Tick, emits: seq<Emit>)
    requires Documented(c) && Inv(c, g, emits) && t.now >= 0 && (Waits(c, g, t) ==> t.waited > g.last)
    ensures EmitOk(c, Step(c, g, t).0, Step(c, g, t).1)
    ensures forall i :: 0 <= i < |emits| ==> EmitOk(c, Step(c, g, t).0, emits[i]) && Ordered(emits[i], Step(c, g, t).1)
  {
    forall i | 0 <= i < |emits|
      ensures EmitOk(c, Step(c, g, t).0, emits[i]) && Ordered(emits[i], Step(c, g, t).1)
    {
      assert EmitOk(c, g, emits[i]);
    }
  }

  lemma StepKeepsInv(c: Config, g: Gen, t: Tick, emits: seq<Emit>)
    requires Documented(c) && Inv(c, g, emits) && t.now >= 0 && (Waits(c, g, t) ==> t.waited > g.last)
    ensures Inv(c, Step(c, g, t).0, emits + [Step(c, g, t).1])
  {
    StepEmits(c, g, t, emits);
    hide EmitOk;
    hide Ordered;
  }

  lemma {:induction false} RunKeepsInv(c: Config, ticks: seq<Tick>)
    requires Documented(c) && ClockOk(c, ticks)
    ensures Inv(c, After(c, ticks), Emits(c, ticks))
  {
    if ticks != [] {
      var front, t := ticks[..|ticks| - 1], ticks[|ticks| - 1];
      RunKeepsInv(c, front);
      StepKeepsInv(c, After(c, front), t, Emits(c, front));
    }
  }

  /** Every number is below the modulus, so that reduction does not fold two of them together. */
  ghost predicate Unreduced(c: Config, emits: seq<Emit>) {
    forall i :: 0 <= i < |emits| ==> 0 <= Raw(c, emits[i]) < MODULUS
  }

  lemma IdIsRaw(c: Config, emits: seq<Emit>, i: nat)
    requires Unreduced(c, emits) && i < |emits|
    ensures Id(c, emits[i]) == Raw(c, emits[i])
  {
    SmallRemainder(Raw(c, emits[i]), MODULUS);
  }

  lemma SmallRemainder(x: int, m: int)
    requires 0 <= x < m
    ensures x % m == x
  {
  }

  /** Ids from the normal and over-cost paths are strictly increasing. */
  lemma RegularIdsIncrease(c: Config, ticks: seq<Tick>, i: nat, j: nat)
    requires Documented(c) && ClockOk(c, ticks) && Unreduced(c, Emits(c, ticks)) && i < j < |ticks|
    requires Emits(c, ticks)[i].Regular? && Emits(c, ticks)[j].Regular?
    ensures Id(c, Emits(c, ticks)[i]) < Id(c, Emits(c, ticks)[j])
  {
    var emits := Emits(c, ticks);
    RunKeepsInv(c, ticks);
    assert EmitOk(c, After(c, ticks), emits[i]) && EmitOk(c, After(c, ticks), emits[j]) && Ordered(emits[i], emits[j]);
    RawIncreases(c, emits[i], emits[j]);
    IdIsRaw(c, emits, i);
    IdIsRaw(c, emits, j);
  }

  /** Exactly which ids coincide: two turned-back ones at the same tick whose episodes are a multiple
      of four apart.  A turned-back id never equals a regular one. */
  lemma CollisionIff(c: Config, ticks: seq<Tick>, i: nat, j: nat)
    requires Documented(c) && ClockOk(c, ticks) && Unreduced(c, Emits(c, ticks)) && i < j < |ticks|
    ensures var e, f := Emits(c, ticks)[i], Emits(c, ticks)[j];
            Id(c, e) == Id(c, f) <==>
            e.TurnedBack? && f.TurnedBack? && e.tick == f.tick && e.episode < f.episode && (f.episode - e.episode) % 4 == 0
  {
    var emits := Emits(c, ticks);
    var e, f := emits[i], emits[j];
    RunKeepsInv(c, ticks);
    assert EmitOk(c, After(c, ticks), e) && EmitOk(c, After(c, ticks), f) && Ordered(e, f);
    RawDetermines(c, c, e, f);
    IdIsRaw(c, emits, i);
    IdIsRaw(c, emits, j);
    hide Raw;
    hide Id;
    hide Inv;
    hide Emits;
    if e.TurnedBack? && f.TurnedBack? {
      SameIndexIff(e.episode, f.episode);
    }
  }

  lemma SameIndexIff(a: nat, b: nat)
    requires 1 <= a && 1 <= b
    ensures (a - 1) % 4 == (b - 1) % 4 <==> (b - a) % 4 == 0
  {
  }

  /** So at most four episodes give pairwise distinct ids. */
  lemma FourEpisodesAreSafe(c: Config, ticks: seq<Tick>)
    requires Documented(c) && ClockOk(c, ticks) && Unreduced(c, Emits(c, ticks)) && After(c, ticks).episode <= 4
    ensures forall i, j :: 0 <= i < j < |ticks| ==> Id(c, Emits(c, ticks)[i]) != Id(c, Emits(c, ticks)[j])
  {
    hide Id;
    hide Emits;
    hide After;
    hide ClockOk;
    hide Unreduced;
    forall i, j | 0 <= i < j < |ticks|
      ensures Id(c, Emits(c, ticks)[i]) != Id(c, Emits(c, ticks)[j])
    {
      CollisionIff(c, ticks, i, j);
      EpisodeInRange(c, ticks, i);
      EpisodeInRange(c, ticks, j);
    }
  }

  lemma EpisodeInRange(c: Config, ticks: seq<Tick>, i: nat)
    requires Documented(c) && ClockOk(c, ticks) && i < |ticks|
    ensures Emits(c, ticks)[i].TurnedBack? ==> 1 <= Emits(c, ticks)[i].episode <= After(c, ticks).episode
  {
    RunKeepsInv(c, ticks);
    assert EmitOk(c, After(c, ticks), Emits(c, ticks)[i]);
  }

  /** Generators of different workers never issue the same id, whatever their clocks and episodes. */
  lemma WorkersNeverCollide(c: Config, d: Config, ticks: seq<Tick>, others: seq<Tick>, i: nat, j: nat)
    requires Documented(c) && Documented(d) && c.workerBits == d.workerBits && c.seqBits == d.seqBits
    requires c.worker != d.worker
    requires ClockOk(c, ticks) && Unreduced(c, Emits(c, ticks)) && i < |ticks|
    requires ClockOk(d, others) && Unreduced(d, Emits(d, others)) && j < |others|
    ensures Id(c, Emits(c, ticks)[i]) != Id(d, Emits(d, others)[j])
  {
    RunKeepsInv(c, ticks);
    RunKeepsInv(d, others);
    assert EmitOk(c, After(c, ticks), Emits(c, ticks)[i]) && EmitOk(d, After(d, others), Emits(d, others)[j]);
    RawDetermines(c, d, Emits(c, ticks)[i], Emits(d, others)[j]);
    IdIsRaw(c, Emits(c, ticks), i);
    IdIsRaw(d, Emits(d, others), j);
  }

  // --------------------------------------------------------------------------------------------
  // The fifth episode
  // --------------------------------------------------------------------------------------------

  /** Default widths and limits, worker 23. */
  const DEFAULTS := Config(6, 23, 6, 5, 63, 2000)

  /** A clock that reads 10 and then jumps n times back to 5 and forward to 10 again. */
  function Jolts(n: nat): seq<Tick> {
    if n == 0 then [Tick(10, 0)] else Jolts(n - 1) + [Tick(5, 0)] + [Tick(10, 0)]
  }

  lemma EmitsGrow(c: Config, ticks: seq<Tick>, t: Tick)
    ensures Emits(c, ticks + [t]) == Emits(c, ticks) + [Step(c, After(c, ticks), t).1]
    ensures After(c, ticks + [t]) == Step(c, After(c, ticks), t).0
    ensures ClockOk(c, ticks + [t]) <==>
            ClockOk(c, ticks) && t.now >= 0 && (Waits(c, After(c, ticks), t) ==> t.waited > After(c, ticks).last)
  {
    assert (ticks + [t])[..|ticks + [t]| - 1] == ticks;
  }

  function Jolted(n: nat): Gen {
    Gen(10, 6 + n, 0, if n == 0 then 0 else (n - 1) % 4 + 1, false, 0, n)
  }

  lemma OneJolt(n: nat)
    requires n < 5
    ensures var back := Step(DEFAULTS, Jolted(n), Tick(5, 0));
            && back.1 == TurnedBack(9, n % 4 + 1, n + 1)
            && Step(DEFAULTS, back.0, Tick(10, 0)).0 == Jolted(n + 1)
  {
  }

  lemma {:induction false} JoltsState(n: nat)
    requires n <= 5
    ensures ClockOk(DEFAULTS, Jolts(n)) && |Jolts(n)| == 2 * n + 1 && After(DEFAULTS, Jolts(n)) == Jolted(n)
  {
    if n == 0 {
      EmitsGrow(DEFAULTS, [], Tick(10, 0));
      assert [] + [Tick(10, 0)] == Jolts(0);
    } else {
      JoltsState(n - 1);
      NextJolt(n - 1);
    }
  }

  lemma NextJolt(n: nat)
    requires n < 5 && After(DEFAULTS, Jolts(n)) == Jolted(n)
    ensures After(DEFAULTS, Jolts(n + 1)) == Jolted(n + 1)
    ensures ClockOk(DEFAULTS, Jolts(n)) ==> ClockOk(DEFAULTS, Jolts(n + 1))
    ensures |Jolts(n + 1)| == |Jolts(n)| + 2
    ensures Emits(DEFAULTS, Jolts(n)) <= Emits(DEFAULTS, Jolts(n + 1))
    ensures Emits(DEFAULTS, Jolts(n + 1))[|Jolts(n)|] == TurnedBack(9, n % 4 + 1, n + 1)
  {
    OneJolt(n);
    var back := Step(DEFAULTS, Jolted(n), Tick(5, 0));
    assert !Waits(DEFAULTS, Jolted(n), Tick(5, 0)) && !Waits(DEFAULTS, back.0, Tick(10, 0));
    EmitsGrow(DEFAULTS, Jolts(n), Tick(5, 0));
    EmitsGrow(DEFAULTS, Jolts(n) + [Tick(5, 0)], Tick(10, 0));
    hide Step;
    hide Emits;
    hide After;
    hide ClockOk;
    hide Waits;
    hide Jolted;
  }

  /** Five episodes are one too many: the fifth reuses the first one's index. */
  lemma FifthEpisodeCollides()
    ensures var ticks := Jolts(5);
            && Documented(DEFAULTS) && ClockOk(DEFAULTS, ticks) && After(DEFAULTS, ticks).episode == 5
            && |ticks| == 11 && Id(DEFAULTS, Emits(DEFAULTS, ticks)[1]) == Id(DEFAULTS, Emits(DEFAULTS, ticks)[9])
  {
    JoltsState(0);
    JoltsState(1);
    JoltsState(2);
    JoltsState(3);
    JoltsState(4);
    JoltsState(5);
    NextJolt(0);
    NextJolt(1);
    NextJolt(2);
    NextJolt(3);
    NextJolt(4);
    hide Jolts;
    hide Emits;
    var emits := Emits(DEFAULTS, Jolts(5));
    assert emits[1] == TurnedBack(9, 1, 1) && emits[9] == TurnedBack(9, 1, 5);
    PowSum(3, 3);
    assert Pow2(3) == 8 && Pow2(6) == 64;
  }

  // --------------------------------------------------------------------------------------------
  // Drift
  // --------------------------------------------------------------------------------------------

  function Most(a: int, b: int): int {
    if a > b then a else b
  }

  ghost predicate DriftOk(c: Config, g: Gen, latest: int) {
    && latest >= 0
    && (!g.overCost ==> g.last <= latest)
    && (g.overCost ==> g.last <= latest + g.term && 1 <= g.term <= Most(1, c.topOverCost))
  }

  lemma {:induction false} DriftKept(c: Config, ticks: seq<Tick>)
    requires ClockOk(c, ticks)
    ensures DriftOk(c, After(c, ticks), Latest(c, ticks))
  {
    if ticks != [] {
      DriftKept(c, ticks[..|ticks| - 1]);
    }
  }

  /** The generator runs ahead of its clock by at most max(1, top) ticks, and in normal mode not at
      all. */
  lemma DriftBound(c: Config, ticks: seq<Tick>)
    requires ClockOk(c, ticks)
    ensures After(c, ticks).last <= Latest(c, ticks) + Most(1, c.topOverCost)
    ensures !After(c, ticks).overCost ==> After(c, ticks).last <= Latest(c, ticks)
  {
    DriftKept(c, ticks);
  }
}
