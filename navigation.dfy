/**
 * Value-level specification of the interactor styler: the whole observable
 * state of a bound styler (its own fields, what the primary image mapper and
 * the mask mapper hold, the three status texts and the number of redraw
 * requests) and the effect of each of its six navigation commands on it.
 */
module Navigation {
  import opened ImageMessage

  /** What the styler pushes into one image mapper. */
  datatype MapperState = MapperState(zSlice: int, colorLevel: real, colorWindow: real)

  datatype ViewState = ViewState(
    slice: int,
    minSlice: int,
    maxSlice: int,
    windowLevel: real,
    window: real,
    image: MapperState,        // the primary image mapper
    mask: MapperState,         // the mask (overlay) mapper
    sliceStatus: StatusText,
    levelStatus: StatusText,
    windowStatus: StatusText,
    renders: nat)              // redraw requests issued so far

  /** The six navigation commands. */
  datatype Command =
    | NextSlice | PreviousSlice
    | RaiseLevel | LowerLevel
    | WidenWindow | NarrowWindow

  /** The three quantities the styler drives; each command owns one. */
  datatype Quantity = Slice | Level | Width

  const SliceStep: int := 1
  const WindowStep: real := 10.0

  /** C++ `int(x)` on a value in range: truncation toward zero, not floor. */
  function TruncateToInt(x: real): (n: int)
    ensures 0.0 <= x ==> n as real <= x < n as real + 1.0
    ensures x < 0.0 ==> n as real - 1.0 < x <= n as real
  {
    if 0.0 <= x then x.Floor else -((-x).Floor)
  }

  function Target(c: Command): Quantity {
    match c
    case NextSlice | PreviousSlice => Slice
    case RaiseLevel | LowerLevel => Level
    case WidenWindow | NarrowWindow => Width
  }

  /** Both mappers hold the styler's current value of `q`. */
  predicate Mirrors(v: ViewState, q: Quantity) {
    match q
    case Slice => v.image.zSlice == v.slice && v.mask.zSlice == v.slice
    case Level => v.image.colorLevel == v.windowLevel && v.mask.colorLevel == v.windowLevel
    case Width => v.image.colorWindow == v.window && v.mask.colorWindow == v.window
  }

  /** The status text for `q` shows the styler's current value of `q`. */
  predicate Shows(v: ViewState, q: Quantity) {
    match q
    case Slice => v.sliceStatus == SliceNumberFormat(v.slice, v.maxSlice)
    case Level => v.levelStatus == WindowLevelFormat(TruncateToInt(v.windowLevel))
    case Width => v.windowStatus == WindowFormat(TruncateToInt(v.window))
  }

  /** Both mappers and the status text for `q` show the styler's current value of `q`. */
  predicate Displays(v: ViewState, q: Quantity) {
    Mirrors(v, q) && Shows(v, q)
  }

  /** The primary and the mask mapper agree with the styler on all three quantities. */
  predicate Synced(v: ViewState) {
    Mirrors(v, Slice) && Mirrors(v, Level) && Mirrors(v, Width)
  }

  predicate InBounds(v: ViewState) {
    v.minSlice <= v.slice <= v.maxSlice
  }

  /**
   * `w` differs from `v` at most in what a command on `q` may write: the
   * styler's own field for `q`, both mappers' setting for `q`, the status
   * text for `q` and the redraw count.
   */
  predicate Untouched(v: ViewState, w: ViewState, q: Quantity) {
    match q
    case Slice =>
      w == v.(slice := w.slice,
              image := v.image.(zSlice := w.image.zSlice),
              mask := v.mask.(zSlice := w.mask.zSlice),
              sliceStatus := w.sliceStatus, renders := w.renders)
    case Level =>
      w == v.(windowLevel := w.windowLevel,
              image := v.image.(colorLevel := w.image.colorLevel),
              mask := v.mask.(colorLevel := w.mask.colorLevel),
              levelStatus := w.levelStatus, renders := w.renders)
    case Width =>
      w == v.(window := w.window,
              image := v.image.(colorWindow := w.image.colorWindow),
              mask := v.mask.(colorWindow := w.mask.colorWindow),
              windowStatus := w.windowStatus, renders := w.renders)
  }

  /** The commands that leave the state alone: a slice move at its bound. */
  predicate AtBound(v: ViewState, c: Command) {
    (c == NextSlice && v.slice >= v.maxSlice) || (c == PreviousSlice && v.slice <= v.minSlice)
  }

  // The effect of each command, one function per method of the styler.

  function MoveSliceForward(v: ViewState): ViewState {
    if v.slice < v.maxSlice then
      var s := v.slice + SliceStep;
      v.(slice := s, image := v.image.(zSlice := s), mask := v.mask.(zSlice := s),
         sliceStatus := SliceNumberFormat(s, v.maxSlice), renders := v.renders + 1)
    else
      v
  }

  function MoveSliceBackward(v: ViewState): ViewState {
    if v.slice > v.minSlice then
      var s := v.slice - SliceStep;
      v.(slice := s, image := v.image.(zSlice := s), mask := v.mask.(zSlice := s),
         sliceStatus := SliceNumberFormat(s, v.maxSlice), renders := v.renders + 1)
    else
      v
  }

  function SetLevel(v: ViewState, level: real): ViewState {
    v.(windowLevel := level,
       image := v.image.(colorLevel := level), mask := v.mask.(colorLevel := level),
       levelStatus := WindowLevelFormat(TruncateToInt(level)), renders := v.renders + 1)
  }

  function SetWidth(v: ViewState, width: real): ViewState {
    v.(window := width,
       image := v.image.(colorWindow := width), mask := v.mask.(colorWindow := width),
       windowStatus := WindowFormat(TruncateToInt(width)), renders := v.renders + 1)
  }

  function MoveWindowLevelForward(v: ViewState): ViewState {
    SetLevel(v, v.windowLevel + WindowStep)
  }

  function MoveWindowLevelBackward(v: ViewState): ViewState {
    SetLevel(v, v.windowLevel - WindowStep)
  }

  function MoveWindowForward(v: ViewState): ViewState {
    SetWidth(v, v.window + WindowStep)
  }

  function MoveWindowBackward(v: ViewState): ViewState {
    SetWidth(v, v.window - WindowStep)
  }

  /**
   * One command. Whatever the command, the slice range is fixed, the slice
   * bounds are kept, what is already displayed stays displayed, and either
   * nothing changes (exactly when a slice move is at its bound) or the
   * command's own quantity is pushed to both mappers and its status text,
   * nothing else is touched and exactly one redraw is requested.
   */
  function Step(v: ViewState, c: Command): (w: ViewState)
    ensures w.minSlice == v.minSlice && w.maxSlice == v.maxSlice
    ensures v.minSlice <= v.slice ==> v.minSlice <= w.slice
    ensures v.slice <= v.maxSlice ==> w.slice <= w.maxSlice
    ensures w == v <==> AtBound(v, c)
    ensures w != v ==> Displays(w, Target(c)) && Untouched(v, w, Target(c)) && w.renders == v.renders + 1
    ensures forall q :: Displays(v, q) ==> Displays(w, q)
    ensures forall q :: Mirrors(v, q) ==> Mirrors(w, q)
    ensures v.image == v.mask ==> w.image == w.mask
  {
    match c
    case NextSlice => MoveSliceForward(v)
    case PreviousSlice => MoveSliceBackward(v)
    case RaiseLevel => MoveWindowLevelForward(v)
    case LowerLevel => MoveWindowLevelBackward(v)
    case WidenWindow => MoveWindowForward(v)
    case NarrowWindow => MoveWindowBackward(v)
  }

  /** Forward slice move: +1 below the last slice, otherwise nothing at all. */
  lemma SliceForwardEffect(v: ViewState)
    ensures var w := MoveSliceForward(v);
      if v.slice < v.maxSlice then
        w.slice == v.slice + 1 && Displays(w, Slice) && Untouched(v, w, Slice) && w.renders == v.renders + 1
      else
        w == v
  {
  }

  /** Backward slice move: -1 above the first slice, otherwise nothing at all. */
  lemma SliceBackwardEffect(v: ViewState)
    ensures var w := MoveSliceBackward(v);
      if v.slice > v.minSlice then
        w.slice == v.slice - 1 && Displays(w, Slice) && Untouched(v, w, Slice) && w.renders == v.renders + 1
      else
        w == v
  {
  }

  /** Level moves: exactly +10 or -10, unbounded, pushed to both mappers. */
  lemma LevelEffect(v: ViewState)
    ensures var up := MoveWindowLevelForward(v);
      up.windowLevel == v.windowLevel + 10.0 && Displays(up, Level) && Untouched(v, up, Level)
      && up.renders == v.renders + 1
    ensures var down := MoveWindowLevelBackward(v);
      down.windowLevel == v.windowLevel - 10.0 && Displays(down, Level) && Untouched(v, down, Level)
      && down.renders == v.renders + 1
  {
  }

  /** Width moves: exactly +10 or -10, unbounded, pushed to both mappers. */
  lemma WidthEffect(v: ViewState)
    ensures var up := MoveWindowForward(v);
      up.window == v.window + 10.0 && Displays(up, Width) && Untouched(v, up, Width)
      && up.renders == v.renders + 1
    ensures var down := MoveWindowBackward(v);
      down.window == v.window - 10.0 && Displays(down, Width) && Untouched(v, down, Width)
      && down.renders == v.renders + 1
  {
  }

  /**
   * A level step up followed by a level step down restores the level; if
   * the display was in sync before, both mappers and the level text are
   * back as they were, and only the two redraws remain.
   */
  lemma LevelRoundTrip(v: ViewState)
    ensures var w := MoveWindowLevelBackward(MoveWindowLevelForward(v));
      w.windowLevel == v.windowLevel && w.slice == v.slice && w.window == v.window
      && (Displays(v, Level) ==> w == v.(renders := v.renders + 2))
  {
  }

  /** The same for the window width. */
  lemma WidthRoundTrip(v: ViewState)
    ensures var w := MoveWindowBackward(MoveWindowForward(v));
      w.window == v.window && w.slice == v.slice && w.windowLevel == v.windowLevel
      && (Displays(v, Width) ==> w == v.(renders := v.renders + 2))
  {
  }

  /** Below the last slice, a forward move followed by a backward move returns to the same slice. */
  lemma SliceRoundTrip(v: ViewState)
    requires v.minSlice <= v.slice < v.maxSlice
    ensures var w := MoveSliceBackward(MoveSliceForward(v));
      w.slice == v.slice && (Displays(v, Slice) ==> w == v.(renders := v.renders + 2))
  {
  }
}
