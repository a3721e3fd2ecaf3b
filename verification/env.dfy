/**
 The environment glue around NewPoint (env.go, type ExEnv): lookup of the
 named output buffers, lookup of counters by time scale, and the Init / Step
 protocol over the run, epoch and trial counters.
 */
module Environment {
  import opened Wrappers
  import opened Counting
  import opened Placement

  /** The named output buffers the environment exposes; their tensor contents are not modelled. */
  datatype Buffer = EgoInput | Attn | AlloInput | Distance | Angle

  /** The name under which each buffer is exposed. */
  function BufferName(b: Buffer): string {
    match b
    case EgoInput => "EgoInput"
    case Attn => "Attn"
    case AlloInput => "AlloInput"
    case Distance => "Distance"
    case Angle => "Angle"
  }

  /** No two buffers share a name, so a name identifies at most one buffer. */
  lemma BufferNamesDistinct(a: Buffer, b: Buffer)
    ensures BufferName(a) == BufferName(b) ==> a == b
  {
  }

  /**
   State: the buffer exposed under `name`, or nothing (nil) when no buffer has
   that name. Every buffer is found under its own name.
   */
  function State(name: string): (r: Option<Buffer>)
    ensures r.Some? ==> BufferName(r.value) == name
    ensures r.None? <==> forall b: Buffer :: BufferName(b) != name
  {
    match name
    case "EgoInput" => Some(EgoInput)
    case "Attn" => Some(Attn)
    case "AlloInput" => Some(AlloInput)
    case "Distance" => Some(Distance)
    case "Angle" => Some(Angle)
    case _ => None
  }

  /** Looking up a buffer's own name returns that buffer. */
  lemma StateRoundTrip(b: Buffer)
    ensures State(BufferName(b)) == Some(b)
  {
    BufferNamesDistinct(State(BufferName(b)).value, b);
  }

  /** Validate: a configuration error exactly when the grid size is 0; every other size is accepted. */
  function Validate(size: int): (r: Option<string>)
    ensures r.None? <==> size != 0
  {
    if size == 0 then Some("has size == 0 -- need to Config") else None
  }

  /** Validate accepts sizes at which some reachable Point3 offset leaves a placement window empty. */
  lemma ValidateAdmitsUnsafeSizes()
    ensures Validate(10).None? && !OffsetFits(10, -8)
    ensures Validate(6).None? && !OffsetFits(6, 4)
  {
  }

  /** The time scales of the engine; only Run, Epoch and Trial are kept by this environment. */
  datatype TimeScale = Run | Epoch | Trial | Other(name: string)

  /** Counters: the scales this environment keeps counters for. */
  function Counters(): (r: seq<TimeScale>)
    ensures forall s :: s in r <==> !s.Other?
    ensures |r| == 3
  {
    [Run, Epoch, Trial]
  }

  /** The reading returned for a scale the environment does not keep. */
  const Unknown := Reading(-1, -1, false)

  /** The state of one environment: grid size, the points of the last trial and the three counters. */
  datatype ExEnv = ExEnv(size: int, point: Point, point2: Point, point3: Point, run: Ctr, epoch: Ctr, trial: Ctr)

  /**
   Counter: the reading of the counter for `scale`, or the Unknown sentinel
   for a scale not listed by Counters.
   */
  function Counter(e: ExEnv, scale: TimeScale): (r: Reading)
    ensures scale !in Counters() ==> r == Unknown
    ensures scale == Run ==> r == Query(e.run)
    ensures scale == Epoch ==> r == Query(e.epoch)
    ensures scale == Trial ==> r == Query(e.trial)
  {
    match scale
    case Run => Query(e.run)
    case Epoch => Query(e.epoch)
    case Trial => Query(e.trial)
    case Other(_) => Unknown
  }

  /**
   Init: restarts all three counters for run `run`. The run counter reads
   `run`, the epoch counter 0, and the trial counter -1 so that the first Step
   yields trial 0. Maxima, size and points are kept.
   */
  function Init(e: ExEnv, run: int): (r: ExEnv)
    ensures Query(r.run) == Reading(run, -1, false)
    ensures Query(r.epoch) == Reading(0, -1, false)
    ensures Query(r.trial) == Reading(-1, -1, false)
    ensures r.run.max == e.run.max && r.epoch.max == e.epoch.max && r.trial.max == e.trial.max
    ensures r.size == e.size && r.point == e.point && r.point2 == e.point2 && r.point3 == e.point3
  {
    e.(run := Counting.Init(e.run).(cur := run),
       epoch := Counting.Init(e.epoch),
       trial := Counting.Init(e.trial).(cur := -1))
  }

  /** The random choices of one trial: the polar point Point3 and the draw (x, y) of Point inside its window. */
  datatype Draw = Draw(p3: Point, x: int, y: int)

  predicate Fits(size: int, d: Draw) {
    DrawFits(size, d.p3, d.x, d.y)
  }

  /**
   Step: places a new pair of points and advances the trial counter; the
   epoch counter is marked unchanged and is advanced exactly when the trial
   counter wraps. Step always reports success and leaves the run counter and
   the grid size alone.
   */
  function Step(e: ExEnv, d: Draw): (r: (ExEnv, bool))
    requires Fits(e.size, d)
    ensures r.1
    ensures r.0.size == e.size && r.0.run == e.run
    ensures OnGrid(e.size, r.0.point) && OnGrid(e.size, r.0.point2) && r.0.point3 == d.p3
    ensures r.0.point == Point(d.x, d.y)
    ensures r.0.point2 == Point(d.x + d.p3.x - e.size, d.y + d.p3.y - e.size)
    ensures r.0.trial == Incr(e.trial).ctr
    ensures r.0.epoch.chg <==> Incr(e.trial).wrapped
    ensures r.0.epoch.max == e.epoch.max
    ensures e.epoch.max <= 0 ==> r.0.epoch.cur == e.epoch.cur + (if Incr(e.trial).wrapped then 1 else 0)
    ensures !Incr(e.trial).wrapped ==> Query(r.0.epoch) == Query(e.epoch).(chg := false)
  {
    var epoch := Same(e.epoch);
    var pl := NewPoint(e.size, d.p3, d.x, d.y);
    var trial := Incr(e.trial);
    var epoch' := if trial.wrapped then Incr(epoch).ctr else epoch;
    (e.(point := pl.point, point2 := pl.point2, point3 := d.p3, epoch := epoch', trial := trial.ctr), true)
  }

  /** Runs one Step per draw, in order. */
  function Steps(e: ExEnv, draws: seq<Draw>): (r: ExEnv)
    requires forall i :: 0 <= i < |draws| ==> Fits(e.size, draws[i])
    ensures r.size == e.size && r.run == e.run
    ensures r.trial.max == e.trial.max && r.epoch.max == e.epoch.max
    decreases |draws|
  {
    if |draws| == 0 then e
    else Steps(Step(e, draws[0]).0, draws[1..])
  }

  /** After Init the trial counter reports exactly the Unknown sentinel, so a caller cannot tell it from an unknown scale until the first Step. */
  lemma TrialReadsUnknownAfterInit(e: ExEnv, run: int)
    ensures Counter(Init(e, run), Trial) == Unknown
  {
  }

  /** After a Step the trial counter reports a change, so it never reads as the Unknown sentinel. */
  lemma TrialKnownAfterStep(e: ExEnv, d: Draw)
    requires Fits(e.size, d)
    ensures Counter(Step(e, d).0, Trial) != Unknown
  {
  }

  /** The first Step after Init yields trial 0 and leaves the epoch at 0, whatever the trial maximum. */
  lemma FirstStepIsTrialZero(e: ExEnv, run: int, d: Draw)
    requires Fits(e.size, d)
    ensures Step(Init(e, run), d).0.trial.cur == 0
    ensures Step(Init(e, run), d).0.epoch.cur == 0
    ensures Step(Init(e, run), d).0.run.cur == run
  {
  }

  /**
   One Step with M trials per epoch and no epoch maximum advances the
   combined count epoch * M + trial by one and leaves the trial counter in [0, M).
   */
  lemma StepAdvancesCount(e: ExEnv, d: Draw)
    requires 0 < e.trial.max && e.epoch.max <= 0
    requires -1 <= e.trial.cur < e.trial.max
    requires Fits(e.size, d)
    ensures var r := Step(e, d).0;
      && r.epoch.cur * e.trial.max + r.trial.cur == e.epoch.cur * e.trial.max + e.trial.cur + 1
      && 0 <= r.trial.cur < e.trial.max
  {
    var m := e.trial.max;
    var r := Step(e, d).0;
    if Incr(e.trial).wrapped {
      assert r.epoch.cur == e.epoch.cur + 1;
      assert (e.epoch.cur + 1) * m == e.epoch.cur * m + m;
    }
  }

  /**
   With M trials per epoch and an epoch counter without a maximum, every Step
   advances the combined count epoch * M + trial by exactly one, and the trial
   counter stays in [-1, M).
   */
  lemma {:induction false} StepsAdvanceCount(e: ExEnv, draws: seq<Draw>)
    requires 0 < e.trial.max && e.epoch.max <= 0
    requires -1 <= e.trial.cur < e.trial.max
    requires forall i :: 0 <= i < |draws| ==> Fits(e.size, draws[i])
    ensures var r := Steps(e, draws);
      && r.epoch.cur * e.trial.max + r.trial.cur == e.epoch.cur * e.trial.max + e.trial.cur + |draws|
      && -1 <= r.trial.cur < e.trial.max
      && (|draws| > 0 ==> 0 <= r.trial.cur)
    decreases |draws|
  {
    if |draws| > 0 {
      var e1 := Step(e, draws[0]).0;
      StepAdvancesCount(e, draws[0]);
      var rest := draws[1..];
      assert forall i :: 0 <= i < |rest| ==> Fits(e1.size, rest[i]) by {
        forall i | 0 <= i < |rest| ensures Fits(e1.size, rest[i]) {
          assert rest[i] == draws[i + 1];
        }
      }
      StepsAdvanceCount(e1, rest);
    }
  }

  /** Multiplying a positive m by k >= 1 gives at least m. */
  lemma {:induction false} MulAtLeast(k: int, m: int)
    requires 1 <= k && 0 < m
    ensures m <= k * m
    decreases k
  {
    if k > 1 {
      MulAtLeast(k - 1, m);
      assert k * m == (k - 1) * m + m;
    }
  }

  /** Quotient and remainder are the only pair q, r with q * m + r == n and 0 <= r < m. */
  lemma DivModUnique(n: int, m: int, q: int, r: int)
    requires 0 < m && 0 <= r < m && q * m + r == n
    ensures n / m == q && n % m == r
  {
    var q', r' := n / m, n % m;
    assert q' * m + r' == n;
    if q' > q {
      MulAtLeast(q' - q, m);
    } else if q' < q {
      MulAtLeast(q - q', m);
    }
  }

  /**
   After Init and n >= 1 Steps with M trials per epoch (and no epoch
   maximum), the trial counter reads (n - 1) mod M and the epoch counter
   (n - 1) div M: the n-th Step is trial n - 1, and the epoch first advances on
   Step M + 1.
   */
  lemma InitThenSteps(e: ExEnv, run: int, draws: seq<Draw>)
    requires 0 < e.trial.max && e.epoch.max <= 0
    requires 0 < |draws|
    requires forall i :: 0 <= i < |draws| ==> Fits(e.size, draws[i])
    ensures var r := Steps(Init(e, run), draws);
      && r.trial.cur == (|draws| - 1) % e.trial.max
      && r.epoch.cur == (|draws| - 1) / e.trial.max
      && r.run.cur == run
  {
    var e0 := Init(e, run);
    StepsAdvanceCount(e0, draws);
    var r := Steps(e0, draws);
    DivModUnique(|draws| - 1, e.trial.max, r.epoch.cur, r.trial.cur);
  }
}
