/** The per-bar position state machine of `execution_model` (execution.py:168-207).
    Bar i's state is decided from bar i-1's z-score and thresholds; a transition at bar i
    overwrites the state column and two of the four per-leg position columns from i to the
    end of the frame. The z-scores and the rolling statistics are inputs: only whether a
    threshold is defined matters here, an undefined one (NaN in the source) making every
    comparison against it false. */
module PositionStateMachine {
  import opened Wrappers

  const Flat: int := 0
  const LongSpread: int := 1
  const ShortSpread: int := -1

  /** The rolling window of the thresholds, in bars. */
  const Window: nat := 20

  predicate IsState(s: int) {
    s == Flat || s == LongSpread || s == ShortSpread
  }

  /** One row of the frame as the state machine reads it. */
  datatype Bar = Bar(zscore: real, entry: Option<real>, exit: Option<real>)

  /** `entry_threshold = 0.5 * rolling_std` and `exit_threshold = 0.25 * rolling_mean`: the exit
      is literally based on the rolling mean. NaN stays NaN. */
  function MakeBar(zscore: real, rollingMean: Option<real>, rollingStd: Option<real>): (b: Bar)
    ensures b.entry.Some? <==> rollingStd.Some?
    ensures b.exit.Some? <==> rollingMean.Some?
    ensures rollingStd.Some? ==> b.entry.value * 2.0 == rollingStd.value
    ensures rollingMean.Some? ==> b.exit.value * 4.0 == rollingMean.value
  {
    Bar(zscore,
        if rollingStd.Some? then Some(rollingStd.value * 0.5) else None,
        if rollingMean.Some? then Some(rollingMean.value * 0.25) else None)
  }

  /** `zscore <= -threshold`, false when the threshold is NaN. */
  predicate AtOrBelowNegated(z: real, t: Option<real>) {
    t.Some? && z <= -t.value
  }

  /** `zscore >= threshold`, false when the threshold is NaN. */
  predicate AtOrAbove(z: real, t: Option<real>) {
    t.Some? && z >= t.value
  }

  /** The four guarded transitions, tried in the source's order; the first that holds wins. */
  function Step(s: int, b: Bar): int {
    if s == Flat && AtOrBelowNegated(b.zscore, b.entry) then LongSpread
    else if s == LongSpread && AtOrAbove(b.zscore, b.exit) then Flat
    else if s == Flat && AtOrAbove(b.zscore, b.entry) then ShortSpread
    else if s == ShortSpread && AtOrBelowNegated(b.zscore, b.exit) then Flat
    else s
  }

  /** The transition table: from Flat the long entry is checked before the short entry;
      a held spread only ever returns to Flat; nothing else moves. */
  lemma StepTable(s: int, b: Bar)
    requires IsState(s)
    ensures IsState(Step(s, b))
    ensures s == Flat ==>
      (Step(s, b) == LongSpread <==> AtOrBelowNegated(b.zscore, b.entry)) &&
      (Step(s, b) == ShortSpread <==> !AtOrBelowNegated(b.zscore, b.entry) && AtOrAbove(b.zscore, b.entry))
    ensures s == LongSpread ==> (Step(s, b) == Flat <==> AtOrAbove(b.zscore, b.exit)) && Step(s, b) != ShortSpread
    ensures s == ShortSpread ==> (Step(s, b) == Flat <==> AtOrBelowNegated(b.zscore, b.exit)) && Step(s, b) != LongSpread
  {
  }

  /** The state at bar i: Flat at bar 0, then one Step per bar on the previous bar's data. */
  function StateAt(bars: seq<Bar>, i: nat): (s: int)
    requires i < |bars|
    ensures IsState(s)
    decreases i
  {
    if i == 0 then Flat else Step(StateAt(bars, i - 1), bars[i - 1])
  }

  /** The per-leg position columns `pos_<s1>_long`, `pos_<s2>_short`, `pos_<s1>_short`,
      `pos_<s2>_long`. */
  datatype Legs = Legs(long1: int, short2: int, short1: int, long2: int)

  const NoLegs: Legs := Legs(0, 0, 0, 0)

  /** The columns a state implies: (1, -1) on the long-spread pair, (-1, 1) on the
      short-spread pair, zeros when flat. */
  function LegsOf(s: int): Legs {
    if s == LongSpread then Legs(1, -1, 0, 0)
    else if s == ShortSpread then Legs(0, 0, -1, 1)
    else NoLegs
  }

  /** `position_change`: a row differs from the one before it in either pair of columns.
      Row 0 is compared with the NaN row that `shift(1)` puts there, so it is always marked. */
  function PositionChange(legs: seq<Legs>): seq<bool> {
    seq(|legs|, i requires 0 <= i < |legs| => i == 0 || legs[i] != legs[i - 1])
  }

  /** `df.loc[i:, 'in_position'] = v`. */
  method SetStateFrom(a: array<int>, i: nat, v: int)
    requires i <= a.Length
    modifies a
    ensures forall k :: 0 <= k < i ==> a[k] == old(a[k])
    ensures forall k :: i <= k < a.Length ==> a[k] == v
  {
    var j := i;
    while j < a.Length
      invariant i <= j <= a.Length
      invariant forall k :: 0 <= k < i ==> a[k] == old(a[k])
      invariant forall k :: i <= k < j ==> a[k] == v
      invariant forall k :: j <= k < a.Length ==> a[k] == old(a[k])
    {
      a[j] := v;
      j := j + 1;
    }
  }

  /** `df.loc[i:, (pos_<s1>_long, pos_<s2>_short)] = [l1, s2]`; the other two columns are kept. */
  method SetLongSpreadFrom(cols: array<Legs>, i: nat, l1: int, s2: int)
    requires i <= cols.Length
    modifies cols
    ensures forall k :: 0 <= k < i ==> cols[k] == old(cols[k])
    ensures forall k :: i <= k < cols.Length ==> cols[k] == old(cols[k]).(long1 := l1, short2 := s2)
  {
    var j := i;
    while j < cols.Length
      invariant i <= j <= cols.Length
      invariant forall k :: 0 <= k < i ==> cols[k] == old(cols[k])
      invariant forall k :: i <= k < j ==> cols[k] == old(cols[k]).(long1 := l1, short2 := s2)
      invariant forall k :: j <= k < cols.Length ==> cols[k] == old(cols[k])
    {
      cols[j] := cols[j].(long1 := l1, short2 := s2);
      j := j + 1;
    }
  }

  /** `df.loc[i:, (pos_<s1>_short, pos_<s2>_long)] = [s1, l2]`; the other two columns are kept. */
  method SetShortSpreadFrom(cols: array<Legs>, i: nat, s1: int, l2: int)
    requires i <= cols.Length
    modifies cols
    ensures forall k :: 0 <= k < i ==> cols[k] == old(cols[k])
    ensures forall k :: i <= k < cols.Length ==> cols[k] == old(cols[k]).(short1 := s1, long2 := l2)
  {
    var j := i;
    while j < cols.Length
      invariant i <= j <= cols.Length
      invariant forall k :: 0 <= k < i ==> cols[k] == old(cols[k])
      invariant forall k :: i <= k < j ==> cols[k] == old(cols[k]).(short1 := s1, long2 := l2)
      invariant forall k :: j <= k < cols.Length ==> cols[k] == old(cols[k])
    {
      cols[j] := cols[j].(short1 := s1, long2 := l2);
      j := j + 1;
    }
  }

  /** The loop's frame before bar i: bars 0..i-1 hold their scanned states, the suffix still
      holds the state of bar i-1, and every row's legs are the ones its state implies. */
  ghost predicate Scanned(bars: seq<Bar>, pos: array<int>, cols: array<Legs>, i: nat)
    reads pos, cols
  {
    pos.Length == |bars| && cols.Length == |bars| && 1 <= i <= |bars| &&
    (forall k :: 0 <= k < i ==> pos[k] == StateAt(bars, k)) &&
    (forall k :: i <= k < |bars| ==> pos[k] == StateAt(bars, i - 1)) &&
    (forall k :: 0 <= k < |bars| ==> cols[k] == LegsOf(pos[k]))
  }

  /** The long entry fires at bar i: `in_position` and the long-spread legs are set from i on. */
  method EnterLongSpread(bars: seq<Bar>, pos: array<int>, cols: array<Legs>, i: nat)
    requires Scanned(bars, pos, cols, i) && i < |bars|
    requires pos[i] == Flat && AtOrBelowNegated(bars[i - 1].zscore, bars[i - 1].entry)
    modifies pos, cols
    ensures Scanned(bars, pos, cols, i + 1)
  {
    SetLongSpreadFrom(cols, i, 1, -1);
    SetStateFrom(pos, i, LongSpread);
  }

  /** The long exit fires at bar i: its legs are cleared from i on. */
  method ExitLongSpread(bars: seq<Bar>, pos: array<int>, cols: array<Legs>, i: nat)
    requires Scanned(bars, pos, cols, i) && i < |bars|
    requires pos[i] == LongSpread && AtOrAbove(bars[i - 1].zscore, bars[i - 1].exit)
    modifies pos, cols
    ensures Scanned(bars, pos, cols, i + 1)
  {
    SetLongSpreadFrom(cols, i, 0, 0);
    SetStateFrom(pos, i, Flat);
  }

  /** The short entry fires at bar i (the long entry did not): the short-spread legs are set from
      i on. */
  method EnterShortSpread(bars: seq<Bar>, pos: array<int>, cols: array<Legs>, i: nat)
    requires Scanned(bars, pos, cols, i) && i < |bars|
    requires pos[i] == Flat && !AtOrBelowNegated(bars[i - 1].zscore, bars[i - 1].entry)
    requires AtOrAbove(bars[i - 1].zscore, bars[i - 1].entry)
    modifies pos, cols
    ensures Scanned(bars, pos, cols, i + 1)
  {
    SetShortSpreadFrom(cols, i, -1, 1);
    SetStateFrom(pos, i, ShortSpread);
  }

  /** The short exit fires at bar i: its legs are cleared from i on. */
  method ExitShortSpread(bars: seq<Bar>, pos: array<int>, cols: array<Legs>, i: nat)
    requires Scanned(bars, pos, cols, i) && i < |bars|
    requires pos[i] == ShortSpread && AtOrBelowNegated(bars[i - 1].zscore, bars[i - 1].exit)
    modifies pos, cols
    ensures Scanned(bars, pos, cols, i + 1)
  {
    SetShortSpreadFrom(cols, i, 0, 0);
    SetStateFrom(pos, i, Flat);
  }

  /** No transition fires at bar i: the frame is already right up to bar i. */
  lemma HoldAt(bars: seq<Bar>, pos: array<int>, cols: array<Legs>, i: nat)
    requires Scanned(bars, pos, cols, i) && i < |bars|
    requires Step(pos[i], bars[i - 1]) == pos[i]
    ensures Scanned(bars, pos, cols, i + 1)
  {
  }

  /** The loop of execution.py:174-207 as written: every fired transition overwrites the whole
      suffix of the frame. Its result is the left-to-right scan StateAt, with the leg columns
      that scan implies and the change marks over them. */
  method RunStateMachine(bars: seq<Bar>) returns (inPosition: seq<int>, legs: seq<Legs>, change: seq<bool>)
    ensures |inPosition| == |bars| && |legs| == |bars|
    ensures forall i :: 0 <= i < |bars| ==> inPosition[i] == StateAt(bars, i)
    ensures forall i :: 0 <= i < |bars| ==> legs[i] == LegsOf(inPosition[i])
    ensures change == PositionChange(legs)
  {
    var n := |bars|;
    var pos := new int[n](_ => Flat);
    var cols := new Legs[n](_ => NoLegs);
    if n > 0 {
      for i := 1 to n
        invariant Scanned(bars, pos, cols, i)
      {
        var z, entry, exit := bars[i - 1].zscore, bars[i - 1].entry, bars[i - 1].exit;
        if pos[i] == Flat && AtOrBelowNegated(z, entry) {
          EnterLongSpread(bars, pos, cols, i);
          continue;
        }
        if pos[i] == LongSpread && AtOrAbove(z, exit) {
          ExitLongSpread(bars, pos, cols, i);
          continue;
        }
        if pos[i] == Flat && AtOrAbove(z, entry) {
          EnterShortSpread(bars, pos, cols, i);
          continue;
        }
        if pos[i] == ShortSpread && AtOrBelowNegated(z, exit) {
          ExitShortSpread(bars, pos, cols, i);
          continue;
        }
        HoldAt(bars, pos, cols, i);
      }
    }
    inPosition, legs := pos[..], cols[..];
    change := PositionChange(legs);
  }

  /** Adjacent bars never jump straight between the two spreads. */
  lemma NoDirectReversal(bars: seq<Bar>, i: nat)
    requires 1 <= i < |bars|
    ensures StateAt(bars, i - 1) == LongSpread ==> StateAt(bars, i) != ShortSpread
    ensures StateAt(bars, i - 1) == ShortSpread ==> StateAt(bars, i) != LongSpread
  {
    StepTable(StateAt(bars, i - 1), bars[i - 1]);
  }

  /** The thresholds come from `spread.shift().rolling(20)`, so bars 0..19 have none. */
  ghost predicate WarmingUp(bars: seq<Bar>) {
    forall k :: 0 <= k < |bars| && k < Window ==> bars[k].entry.None? && bars[k].exit.None?
  }

  /** During the warm-up no transition can fire: bars 0..20 are Flat. */
  lemma {:induction false} FlatThroughWarmUp(bars: seq<Bar>, i: nat)
    requires WarmingUp(bars)
    requires i < |bars| && i <= Window
    ensures StateAt(bars, i) == Flat
  {
    if i > 0 {
      FlatThroughWarmUp(bars, i - 1);
    }
  }

  /** Once long the spread, the position is carried forward until a bar meets the exit. */
  lemma {:induction false} LongHeldUntilExit(bars: seq<Bar>, j: nat, m: nat)
    requires j <= m < |bars|
    requires StateAt(bars, j) == LongSpread
    requires forall t :: j <= t < m ==> !AtOrAbove(bars[t].zscore, bars[t].exit)
    ensures StateAt(bars, m) == LongSpread
  {
    if m > j {
      LongHeldUntilExit(bars, j, m - 1);
    }
  }

  /** Once short the spread, the position is carried forward until a bar meets the exit. */
  lemma {:induction false} ShortHeldUntilExit(bars: seq<Bar>, j: nat, m: nat)
    requires j <= m < |bars|
    requires StateAt(bars, j) == ShortSpread
    requires forall t :: j <= t < m ==> !AtOrBelowNegated(bars[t].zscore, bars[t].exit)
    ensures StateAt(bars, m) == ShortSpread
  {
    if m > j {
      ShortHeldUntilExit(bars, j, m - 1);
    }
  }

  /** A flat position is carried forward while no bar meets either entry. */
  lemma {:induction false} FlatHeldUntilEntry(bars: seq<Bar>, j: nat, m: nat)
    requires j <= m < |bars|
    requires StateAt(bars, j) == Flat
    requires forall t :: j <= t < m ==>
      !AtOrBelowNegated(bars[t].zscore, bars[t].entry) && !AtOrAbove(bars[t].zscore, bars[t].entry)
    ensures StateAt(bars, m) == Flat
  {
    if m > j {
      FlatHeldUntilEntry(bars, j, m - 1);
    }
  }

  /** On the columns the machine produces, `position_change` marks exactly the bars whose state
      differs from the previous bar's, and always marks bar 0. */
  lemma ChangeMarksTransitions(bars: seq<Bar>, legs: seq<Legs>)
    requires |legs| == |bars|
    requires forall i :: 0 <= i < |bars| ==> legs[i] == LegsOf(StateAt(bars, i))
    ensures |bars| > 0 ==> PositionChange(legs)[0]
    ensures forall i :: 1 <= i < |bars| ==>
      (PositionChange(legs)[i] <==> StateAt(bars, i) != StateAt(bars, i - 1))
  {
  }
}
