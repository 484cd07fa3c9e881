/** The acoustic profile: a Karplus-Strong plucked string. Within one render the
    profile keeps, in the render's scratch object (`lets`), a table of values that
    first fills with random +1/-1 values, a play cursor into that table, and a
    counter of fractional-period wraps. After the fill, every call smooths the
    cursor's entry with its successor and advances or resets the cursor.
    `Math.random()` is replaced by a bit supplied by the caller. */
module Acoustic {
  import opened Wrappers
  import opened Bits
  import opened Profiles

  /** attack 0.002 s and dampen 1, whatever the arguments; the wave is the
      plucked table below. */
  const AcousticProfile: Profile := Profile("acoustic", Fixed(0.002), Fixed(1.0), Plucked)

  /** The scratch fields, each possibly absent: a fresh render starts with none. */
  datatype Lets = Lets(valueTable: Option<seq<real>>, playVal: Option<int>, periodCount: Option<int>)

  const Fresh: Lets := Lets(None, None, None)

  /** The scratch fields once the missing ones have been given their initial values. */
  datatype Tally = Tally(table: seq<real>, play: int, count: int)

  /** A missing table starts empty, a missing cursor and counter start at 0;
      fields already present are kept. */
  function Init(l: Lets): (t: Tally)
    ensures l.valueTable.Some? ==> t.table == l.valueTable.value
    ensures l.playVal.Some? ==> t.play == l.playVal.value
    ensures l.periodCount.Some? ==> t.count == l.periodCount.value
    ensures l.valueTable.None? ==> t.table == []
    ensures l.playVal.None? ==> t.play == 0
    ensures l.periodCount.None? ==> t.count == 0
  {
    Tally(
      if l.valueTable.None? then [] else l.valueTable.value,
      if l.playVal.None? then 0 else l.playVal.value,
      if l.periodCount.None? then 0 else l.periodCount.value)
  }

  /** `Math.floor((period - Math.floor(period)) * 100)`: the first two decimals of
      the fractional part of the period. */
  function Hundredths(period: real): (h: int)
    ensures 0 <= h <= 99
    ensures h as real <= (period - period.Floor as real) * 100.0 < h as real + 1.0
  {
    ((period - period.Floor as real) * 100.0).Floor
  }

  /** The shape every reachable scratch state has: the table never grows past
      `ceil(period) + 1` entries, the cursor indexes it once it is full, the
      counter is a count, and every entry lies in [-1, 1]. */
  predicate Consistent(t: Tally, period: real)
  {
    |t.table| <= Ceil(period) + 1 &&
    0 <= t.play <= Ceil(period) &&
    0 <= t.count &&
    forall k :: 0 <= k < |t.table| ==> -1.0 <= t.table[k] <= 1.0
  }

  predicate Ready(l: Lets, period: real)
  {
    0.0 <= period && Consistent(Init(l), period)
  }

  /** A fresh scratch object is a consistent start for every non-negative period. */
  lemma FreshIsReady(period: real)
    requires 0.0 <= period
    ensures Ready(Fresh, period)
  {
  }

  /** Whether the table is still filling: `valueTable.length <= Math.ceil(period)`. */
  predicate Filling(t: Tally, period: real)
  {
    |t.table| <= Ceil(period)
  }

  /** The fractional-wrap branch: the cursor is in [floor(period), ceil(period)) and
      the counter's last two decimals have reached the period's hundredths. */
  predicate FractionalWrap(t: Tally, period: real)
  {
    period.Floor <= t.play < Ceil(period) && t.count % 100 >= Hundredths(period)
  }

  /** The index whose value is averaged into the cursor's entry: the next one, or
      0 from the last slot. */
  function Successor(t: Tally): int
  {
    if t.play >= |t.table| - 1 then 0 else t.play + 1
  }

  /** One call of `wave` on the scratch state `l`, for `period = sampleRate / frequency`
      and the caller's random bit; gives the new scratch state and the value returned. */
  function Step(l: Lets, period: real, coin: bool): (r: (Lets, real))
    requires Ready(l, period)
    ensures Ready(r.0, period)
    ensures r.0.valueTable.Some? && r.0.playVal.Some? && r.0.periodCount.Some?
    ensures -1.0 <= r.1 <= 1.0
  {
    var t := Init(l);
    if Filling(t, period) then
      var v := if coin then 1.0 else -1.0;
      (Lets(Some(t.table + [v]), Some(t.play), Some(t.count)), v)
    else
      Smoothed(t, period)
  }

  /** A call after the fill: the cursor's entry is averaged with its successor,
      the fractional-wrap branch also averages the next entry with slot 0 and
      counts the wrap, and the cursor resets or advances. */
  function Smoothed(t: Tally, period: real): (r: (Lets, real))
    requires 0.0 <= period && Consistent(t, period) && !Filling(t, period)
    ensures Ready(r.0, period)
    ensures r.0.valueTable.Some? && r.0.playVal.Some? && r.0.periodCount.Some?
    ensures -1.0 <= r.1 <= 1.0
  {
    var smoothed := t.table[t.play := (t.table[Successor(t)] + t.table[t.play]) * 0.5];
    var fractional := FractionalWrap(t, period);
    var table :=
      if fractional then smoothed[t.play + 1 := (smoothed[0] + smoothed[t.play + 1]) * 0.5]
      else smoothed;
    var reset := fractional || (period.Floor <= t.play && Ceil(period) <= t.play);
    var count := if fractional then t.count + 1 else t.count;
    (Lets(Some(table), Some(if reset then 0 else t.play + 1), Some(count)), table[t.play])
  }

  /** `n` successive calls of `wave` for samples 0 .. n-1, starting from `l`: the
      final scratch state and the values returned, in call order. The call for
      sample `i` uses the bit `coin(i)`. */
  function Run(l: Lets, period: real, coin: nat -> bool, n: nat): (r: (Lets, seq<real>))
    requires Ready(l, period)
    ensures Ready(r.0, period)
    ensures |r.1| == n
  {
    if n == 0 then (l, [])
    else
      var before := Run(l, period, coin, n - 1);
      var after := Step(before.0, period, coin(n - 1));
      (after.0, before.1 + [after.1])
  }

  /** Fill phase: while the table has at most `ceil(period)` entries, a call appends
      exactly one value, +1 or -1 as the bit says, returns it, and leaves the
      cursor and the counter as they were (0 when they were absent). */
  lemma FillStep(l: Lets, period: real, coin: bool)
    requires Ready(l, period) && Filling(Init(l), period)
    ensures var (l', v) := Step(l, period, coin);
      v == (if coin then 1.0 else -1.0) &&
      l'.valueTable == Some(Init(l).table + [v]) &&
      l'.playVal == Some(Init(l).play) &&
      l'.periodCount == Some(Init(l).count)
  {
  }

  /** After the fill the table keeps `ceil(period) + 1` entries. The cursor's
      entry becomes the average of itself and its successor (slot 0 after the
      last slot) and is the value returned; the entry after the cursor changes
      only in the fractional-wrap branch, where it is averaged with slot 0; no
      other entry changes. */
  lemma SteadyStep(l: Lets, period: real, coin: bool)
    requires Ready(l, period) && !Filling(Init(l), period)
    ensures var t := Init(l);
      var (l', v) := Step(l, period, coin);
      var t' := Init(l');
      |t.table| == Ceil(period) + 1 && |t'.table| == |t.table| &&
      Successor(t) == (if t.play == Ceil(period) then 0 else t.play + 1) &&
      t'.table[t.play] == (t.table[Successor(t)] + t.table[t.play]) * 0.5 &&
      v == t'.table[t.play] &&
      (forall k :: 0 <= k < |t.table| && k != t.play && k != t.play + 1 ==> t'.table[k] == t.table[k]) &&
      (FractionalWrap(t, period) ==>
        t.play < Ceil(period) && t'.table[t.play + 1] == (t'.table[0] + t.table[t.play + 1]) * 0.5) &&
      (!FractionalWrap(t, period) && t.play + 1 < |t.table| ==> t'.table[t.play + 1] == t.table[t.play + 1])
  {
  }

  /** After the fill the cursor is either reset to 0 or advanced by one and always
      stays within `ceil(period)`. It resets in the fractional-wrap branch or once
      it has reached `ceil(period)`; for a whole-number period it therefore wraps
      exactly when it reaches the period. */
  lemma CursorStep(l: Lets, period: real, coin: bool)
    requires Ready(l, period) && !Filling(Init(l), period)
    ensures var t := Init(l);
      var p' := Init(Step(l, period, coin).0).play;
      (p' == 0 || p' == t.play + 1) && 0 <= p' <= Ceil(period) &&
      (p' == 0 <==> FractionalWrap(t, period) || Ceil(period) <= t.play) &&
      (period == period.Floor as real ==> p' == if t.play == period.Floor then 0 else t.play + 1)
  {
  }

  /** The wrap counter never decreases; it grows, by exactly one, only in the
      fractional-wrap branch after the fill. */
  lemma CounterStep(l: Lets, period: real, coin: bool)
    requires Ready(l, period)
    ensures var t := Init(l);
      var c' := Init(Step(l, period, coin).0).count;
      t.count <= c' <= t.count + 1 &&
      (c' == t.count + 1 <==> !Filling(t, period) && FractionalWrap(t, period))
  {
  }

  /** From a fresh scratch object the table grows by one entry per call until it
      holds `ceil(period) + 1` entries, and keeps that length from then on. */
  lemma {:induction false} FillLength(period: real, coin: nat -> bool, n: nat)
    requires 0.0 <= period
    ensures |Init(Run(Fresh, period, coin, n).0).table| == if n <= Ceil(period) + 1 then n else Ceil(period) + 1
  {
    if n > 0 {
      FillLength(period, coin, n - 1);
      var before := Run(Fresh, period, coin, n - 1).0;
      if Filling(Init(before), period) {
        FillStep(before, period, coin(n - 1));
      } else {
        SteadyStep(before, period, coin(n - 1));
      }
    }
  }

  /** From a fresh scratch object, the first `ceil(period) + 1` calls fill the
      table with exactly the values they return, each +1 or -1 as its bit says,
      with the cursor and counter at 0. */
  lemma {:induction false} FillFromFresh(period: real, coin: nat -> bool, n: nat)
    requires 0.0 <= period && n <= Ceil(period) + 1
    ensures var (l, w) := Run(Fresh, period, coin, n);
      Init(l).table == w && Init(l).play == 0 && Init(l).count == 0 &&
      forall k :: 0 <= k < n ==> w[k] == if coin(k) then 1.0 else -1.0
  {
    if n > 0 {
      FillFromFresh(period, coin, n - 1);
      var before := Run(Fresh, period, coin, n - 1);
      FillStep(before.0, period, coin(n - 1));
      var after := Step(before.0, period, coin(n - 1));
      assert Run(Fresh, period, coin, n) == (after.0, before.1 + [after.1]);
      assert after.1 == if coin(n - 1) then 1.0 else -1.0;
    }
  }

  /** Over any run of calls, from any reachable scratch state, the wrap counter
      never decreases. */
  lemma {:induction false} CountNeverDecreases(l: Lets, period: real, coin: nat -> bool, n: nat)
    requires Ready(l, period)
    ensures Init(l).count <= Init(Run(l, period, coin, n).0).count
  {
    if 0 < n {
      CountNeverDecreases(l, period, coin, n - 1);
      CounterStep(Run(l, period, coin, n - 1).0, period, coin(n - 1));
    }
  }

  /** When the period has non-zero hundredths, a run from a fresh scratch object
      never takes the fractional-wrap branch: the counter starts at 0, whose
      last two decimals are below the hundredths, and only that branch counts.
      The cursor then always runs on to `ceil(period)` before it resets. */
  lemma {:induction false} NoFractionalWrapFromFresh(period: real, coin: nat -> bool, n: nat)
    requires 0.0 <= period && 0 < Hundredths(period)
    ensures Init(Run(Fresh, period, coin, n).0).count == 0
    ensures !FractionalWrap(Init(Run(Fresh, period, coin, n).0), period)
  {
    if n > 0 {
      NoFractionalWrapFromFresh(period, coin, n - 1);
      CounterStep(Run(Fresh, period, coin, n - 1).0, period, coin(n - 1));
    }
  }

  /** Every value a run of calls returns lies in [-1, 1]: table entries start at
      +1 or -1 and are only ever replaced by averages of two entries. */
  lemma {:induction false} RunValuesBounded(l: Lets, period: real, coin: nat -> bool, n: nat)
    requires Ready(l, period)
    ensures forall k :: 0 <= k < n ==> -1.0 <= Run(l, period, coin, n).1[k] <= 1.0
  {
    if n > 0 {
      RunValuesBounded(l, period, coin, n - 1);
      var before := Run(l, period, coin, n - 1);
      assert Run(l, period, coin, n).1 == before.1 + [Step(before.0, period, coin(n - 1)).1];
    }
  }

  /** The scratch object of one render (`this._temp`, seen by the profile as
      `this.lets`). */
  class Scratch {
    var valueTable: Option<seq<real>>
    var playVal: Option<int>
    var periodCount: Option<int>

    function State(): Lets
      reads this
    {
      Lets(valueTable, playVal, periodCount)
    }

    /** `{}`: a scratch object with no fields. */
    constructor ()
      ensures State() == Fresh
    {
      valueTable, playVal, periodCount := None, None, None;
    }

    /** `profile.wave(i, sampleRate, frequency)` of the acoustic profile; the
        sample index is not used by this profile and is omitted. */
    method Wave(sampleRate: nat, frequency: real, coin: bool) returns (v: real)
      requires 0.0 < frequency && Ready(State(), sampleRate as real / frequency)
      modifies this
      ensures (State(), v) == Step(old(State()), sampleRate as real / frequency, coin)
    {
      if valueTable.None? {
        valueTable := Some([]);
      }
      if playVal.None? {
        playVal := Some(0);
      }
      if periodCount.None? {
        periodCount := Some(0);
      }
      var period := sampleRate as real / frequency;

      if |valueTable.value| <= Ceil(period) {
        valueTable := Some(valueTable.value + [if coin then 1.0 else -1.0]);
        v := valueTable.value[|valueTable.value| - 1];
        return;
      }

      v := Smooth(period);
    }

    /** The part of `wave` after the fill: smoothing, the fractional wrap and the
        cursor update, on fields that are all present. */
    method Smooth(period: real) returns (v: real)
      requires valueTable.Some? && playVal.Some? && periodCount.Some?
      requires 0.0 <= period && Consistent(Init(State()), period) && !Filling(Init(State()), period)
      modifies this
      ensures (State(), v) == Smoothed(Init(old(State())), period)
    {
      var table, play, count := valueTable.value, playVal.value, periodCount.value;
      var hundredths := ((period - period.Floor as real) * 100.0).Floor;
      var resetPlay := false;

      table := table[play := (table[if play >= |table| - 1 then 0 else play + 1] + table[play]) * 0.5];
      valueTable := Some(table);

      if play >= period.Floor {
        if play < Ceil(period) {
          if count % 100 >= hundredths {
            resetPlay := true;
            table := table[play + 1 := (table[0] + table[play + 1]) * 0.5];
            valueTable := Some(table);
            periodCount := Some(count + 1);
          }
        } else {
          resetPlay := true;
        }
      }

      v := table[play];

      if resetPlay {
        playVal := Some(0);
      } else {
        playVal := Some(play + 1);
      }
    }
  }
}
