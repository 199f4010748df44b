/**
 * Sequences of navigation commands, as the event loop issues them one after
 * another, and what holds after any such sequence.
 */
module NavigationRuns {
  import opened ImageMessage
  import opened Navigation

  /** The state after issuing the commands `cs` in order. */
  function Run(v: ViewState, cs: seq<Command>): (w: ViewState)
    ensures w.minSlice == v.minSlice && w.maxSlice == v.maxSlice
    ensures v.renders <= w.renders <= v.renders + |cs|
    decreases |cs|
  {
    if cs == [] then v else Run(Step(v, cs[0]), cs[1..])
  }

  function Repeat(c: Command, n: nat): seq<Command> {
    seq(n, _ => c)
  }

  function Count(cs: seq<Command>, c: Command): nat
    decreases |cs|
  {
    if cs == [] then 0 else (if cs[0] == c then 1 else 0) + Count(cs[1..], c)
  }

  predicate IsSliceMove(c: Command) {
    Target(c) == Slice
  }

  lemma {:induction false} RunAppend(v: ViewState, cs: seq<Command>, ds: seq<Command>)
    ensures Run(v, cs + ds) == Run(Run(v, cs), ds)
    decreases |cs|
  {
    if cs == [] {
      assert cs + ds == ds;
    } else {
      assert (cs + ds)[1..] == cs[1..] + ds;
      RunAppend(Step(v, cs[0]), cs[1..], ds);
    }
  }

  /** Clamping: a slice within its bounds stays within them after any command sequence. */
  lemma {:induction false} RunKeepsSliceInBounds(v: ViewState, cs: seq<Command>)
    requires InBounds(v)
    ensures InBounds(Run(v, cs))
    decreases |cs|
  {
    if cs != [] {
      RunKeepsSliceInBounds(Step(v, cs[0]), cs[1..]);
    }
  }

  /** A volume whose Z range is empty: the slice never leaves the first slice. */
  lemma {:induction false} RunEmptyRangeKeepsSlice(v: ViewState, cs: seq<Command>)
    requires v.maxSlice < v.minSlice == v.slice
    ensures Run(v, cs).slice == v.slice
    decreases |cs|
  {
    if cs != [] {
      assert Step(v, cs[0]).slice == v.slice;
      RunEmptyRangeKeepsSlice(Step(v, cs[0]), cs[1..]);
    }
  }

  /** Whatever the display shows correctly keeps being shown correctly. */
  lemma {:induction false} RunKeepsDisplays(v: ViewState, cs: seq<Command>, q: Quantity)
    requires Displays(v, q)
    ensures Displays(Run(v, cs), q)
    decreases |cs|
  {
    if cs != [] {
      RunKeepsDisplays(Step(v, cs[0]), cs[1..], q);
    }
  }

  /**
   * Once the primary and the mask mapper hold the styler's slice, level and
   * width, they keep holding them after any sequence, whatever the texts show.
   */
  lemma {:induction false} RunKeepsSynced(v: ViewState, cs: seq<Command>)
    requires Synced(v)
    ensures Synced(Run(v, cs))
    decreases |cs|
  {
    if cs != [] {
      RunKeepsSynced(Step(v, cs[0]), cs[1..]);
    }
  }

  /**
   * Once the primary and the mask mapper hold the same Z slice, colour level
   * and colour window, no command sequence sets them apart.
   */
  lemma {:induction false} RunKeepsMappersAgree(v: ViewState, cs: seq<Command>)
    requires v.image == v.mask
    ensures Run(v, cs).image == Run(v, cs).mask
    decreases |cs|
  {
    if cs != [] {
      RunKeepsMappersAgree(Step(v, cs[0]), cs[1..]);
    }
  }

  /** Some slice move of `cs`, issued from `v`, was not at its bound. */
  predicate MovesSlice(v: ViewState, cs: seq<Command>) {
    exists i :: 0 <= i < |cs| && IsSliceMove(cs[i]) && !AtBound(Run(v, cs[..i]), cs[i])
  }

  /**
   * If a sequence moved the slice at least once (even if it came back),
   * both mappers and the slice text show the final slice.
   */
  lemma {:induction false} RunDisplaysMovedSlice(v: ViewState, cs: seq<Command>)
    requires MovesSlice(v, cs)
    ensures Displays(Run(v, cs), Slice)
    decreases |cs|
  {
    var i :| 0 <= i < |cs| && IsSliceMove(cs[i]) && !AtBound(Run(v, cs[..i]), cs[i]);
    var v1 := Step(v, cs[0]);
    if i == 0 {
      assert cs[..0] == [];
      assert !AtBound(v, cs[0]);
      RunKeepsDisplays(v1, cs[1..], Slice);
    } else {
      assert cs[..i][1..] == cs[1..][..i - 1];
      assert Run(v, cs[..i]) == Run(v1, cs[1..][..i - 1]);
      assert cs[1..][i - 1] == cs[i];
      assert MovesSlice(v1, cs[1..]);
      RunDisplaysMovedSlice(v1, cs[1..]);
    }
  }

  /**
   * Any sequence with a level (width) command leaves both mappers and the
   * level (width) text showing the final level (width).
   */
  lemma {:induction false} RunDisplaysWindowing(v: ViewState, cs: seq<Command>, q: Quantity)
    requires q != Slice
    requires exists i :: 0 <= i < |cs| && Target(cs[i]) == q
    ensures Displays(Run(v, cs), q)
    decreases |cs|
  {
    var v1 := Step(v, cs[0]);
    if Target(cs[0]) == q {
      assert !AtBound(v, cs[0]);
      RunKeepsDisplays(v1, cs[1..], q);
    } else {
      var i :| 0 <= i < |cs| && Target(cs[i]) == q;
      assert Target(cs[1..][i - 1]) == q;
      RunDisplaysWindowing(v1, cs[1..], q);
    }
  }

  /**
   * The level moves by exactly 10 per level command, in either order, and
   * the width likewise; neither has a bound.
   */
  lemma {:induction false} RunWindowing(v: ViewState, cs: seq<Command>)
    ensures Run(v, cs).windowLevel
         == v.windowLevel + WindowStep * (Count(cs, RaiseLevel) as real - Count(cs, LowerLevel) as real)
    ensures Run(v, cs).window
         == v.window + WindowStep * (Count(cs, WidenWindow) as real - Count(cs, NarrowWindow) as real)
    decreases |cs|
  {
    if cs != [] {
      RunWindowing(Step(v, cs[0]), cs[1..]);
    }
  }

  /**
   * Without slice moves the slice does not change and every command
   * requests exactly one redraw.
   */
  lemma {:induction false} RunWithoutSliceMoves(v: ViewState, cs: seq<Command>)
    requires forall i :: 0 <= i < |cs| ==> !IsSliceMove(cs[i])
    ensures Run(v, cs).slice == v.slice
    ensures Run(v, cs).renders == v.renders + |cs|
    decreases |cs|
  {
    if cs != [] {
      assert !IsSliceMove(cs[0]);
      assert forall i :: 0 <= i < |cs[1..]| ==> !IsSliceMove(cs[1..][i]) by {
        forall i | 0 <= i < |cs[1..]| ensures !IsSliceMove(cs[1..][i]) {
          assert cs[1..][i] == cs[i + 1];
        }
      }
      RunWithoutSliceMoves(Step(v, cs[0]), cs[1..]);
    }
  }

  /** Without level or width commands, neither the level nor the width changes. */
  lemma RunSliceMovesOnly(v: ViewState, cs: seq<Command>)
    requires forall i :: 0 <= i < |cs| ==> IsSliceMove(cs[i])
    ensures Run(v, cs).windowLevel == v.windowLevel && Run(v, cs).window == v.window
  {
    CountOfAbsent(cs, RaiseLevel);
    CountOfAbsent(cs, LowerLevel);
    CountOfAbsent(cs, WidenWindow);
    CountOfAbsent(cs, NarrowWindow);
    RunWindowing(v, cs);
  }

  lemma {:induction false} CountOfAbsent(cs: seq<Command>, c: Command)
    requires forall i :: 0 <= i < |cs| ==> cs[i] != c
    ensures Count(cs, c) == 0
    decreases |cs|
  {
    if cs != [] {
      assert forall i :: 0 <= i < |cs[1..]| ==> cs[1..][i] != c by {
        forall i | 0 <= i < |cs[1..]| ensures cs[1..][i] != c {
          assert cs[1..][i] == cs[i + 1];
        }
      }
      CountOfAbsent(cs[1..], c);
    }
  }

  /**
   * `n` forward moves from within the range end at the last slice or `n`
   * slices further, whichever is first; if the first of them could move,
   * both mappers and the slice text show where they ended.
   */
  lemma {:induction false} RunForward(v: ViewState, n: nat)
    requires v.slice <= v.maxSlice
    ensures var w := Run(v, Repeat(NextSlice, n));
      w.slice == (if v.slice + n <= v.maxSlice then v.slice + n else v.maxSlice)
      && (0 < n && v.slice < v.maxSlice ==> Displays(w, Slice))
    decreases n
  {
    if n > 0 {
      assert Repeat(NextSlice, n)[1..] == Repeat(NextSlice, n - 1);
      var v1 := Step(v, NextSlice);
      RunForward(v1, n - 1);
      if v.slice < v.maxSlice {
        RunKeepsDisplays(v1, Repeat(NextSlice, n - 1), Slice);
      }
    }
  }

  /** The mirror image: `n` backward moves stop at the first slice. */
  lemma {:induction false} RunBackward(v: ViewState, n: nat)
    requires v.minSlice <= v.slice
    ensures var w := Run(v, Repeat(PreviousSlice, n));
      w.slice == (if v.minSlice <= v.slice - n then v.slice - n else v.minSlice)
      && (0 < n && v.minSlice < v.slice ==> Displays(w, Slice))
    decreases n
  {
    if n > 0 {
      assert Repeat(PreviousSlice, n)[1..] == Repeat(PreviousSlice, n - 1);
      var v1 := Step(v, PreviousSlice);
      RunBackward(v1, n - 1);
      if v.minSlice < v.slice {
        RunKeepsDisplays(v1, Repeat(PreviousSlice, n - 1), Slice);
      }
    }
  }

  // Worked scenarios on a volume with slices 0..9, level 40 and width 400.

  /** Five forward moves from slice 0 reach slice 5, shown as "5 of 9". */
  lemma ScenarioForwardFive(v: ViewState)
    requires v.minSlice == 0 && v.maxSlice == 9 && v.slice == 0
    ensures Run(v, Repeat(NextSlice, 5)).slice == 5
    ensures Run(v, Repeat(NextSlice, 5)).sliceStatus == SliceNumberFormat(5, 9)
  {
    RunForward(v, 5);
  }

  /** From slice 5, six backward moves end at slice 0 and the sixth does nothing. */
  lemma ScenarioBackwardSix(v: ViewState)
    requires v.minSlice == 0 && v.maxSlice == 9 && v.slice == 5
    ensures Run(v, Repeat(PreviousSlice, 6)).slice == 0
    ensures Run(v, Repeat(PreviousSlice, 6)) == Run(v, Repeat(PreviousSlice, 5))
  {
    RunBackward(v, 5);
    assert Repeat(PreviousSlice, 6) == Repeat(PreviousSlice, 5) + [PreviousSlice];
    RunAppend(v, Repeat(PreviousSlice, 5), [PreviousSlice]);
  }

  /** Inside the range, a forward move and a backward move return to the slice and leave it shown. */
  lemma ScenarioThereAndBack(v: ViewState)
    requires v.minSlice <= v.slice < v.maxSlice
    ensures Run(v, [NextSlice, PreviousSlice]).slice == v.slice
    ensures Displays(Run(v, [NextSlice, PreviousSlice]), Slice)
  {
    var cs := [NextSlice, PreviousSlice];
    assert cs[..0] == [];
    assert IsSliceMove(cs[0]) && !AtBound(Run(v, cs[..0]), cs[0]);
    RunDisplaysMovedSlice(v, cs);
  }

  /** Level 40, two steps up and one down: level 50 on both mappers and in the text. */
  lemma ScenarioLevel(v: ViewState)
    requires v.windowLevel == 40.0
    ensures var w := Run(v, [RaiseLevel, RaiseLevel, LowerLevel]);
      w.windowLevel == 50.0 && w.image.colorLevel == 50.0 && w.mask.colorLevel == 50.0
      && w.levelStatus == WindowLevelFormat(50)
  {
    var cs := [RaiseLevel, RaiseLevel, LowerLevel];
    RunWindowing(v, cs);
    assert Count(cs, RaiseLevel) == 2 && Count(cs, LowerLevel) == 1;
    RunDisplaysWindowing(v, cs, Level);
  }

  /** Width 400, one step down: width 390 on both mappers. */
  lemma ScenarioWidth(v: ViewState)
    requires v.window == 400.0
    ensures var w := Run(v, [NarrowWindow]);
      w.window == 390.0 && w.image.colorWindow == 390.0 && w.mask.colorWindow == 390.0
  {
  }
}
