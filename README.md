# Interactor styler of a medical volume viewer

This project models the interactive navigation and windowing controller of a
VTK-based medical volume viewer: the interactor styler that tracks the
currently displayed Z slice, the window level and the window width. It keeps
a primary image mapper and a mask mapper on the same slice and the same
intensity window, writes a status line for each quantity and asks the render
window to redraw after every change.

- `image_message.dfy` (module `ImageMessage`): the three status-text
  formatters. A status text is represented by its formatter and its
  arguments.
- `vtk.dfy` (module `Vtk`): the image mapper, text mapper and render window as
  passive sinks. Each holds the last value it was given; the render window
  counts redraw requests.
- `navigation.dfy` (module `Navigation`): the observable state of a bound
  styler as a value (`ViewState`), one function per command, `Step`, and
  lemmas on single commands.
- `navigation_runs.dfy` (module `NavigationRuns`): `Run`, which issues a
  sequence of commands in order, and what holds after any such sequence:
  clamping, mapper synchronisation, exact step sizes, redraw counts, and five
  worked scenarios.
- `interaction.dfy` (module `Interaction`): the class `InteractorStyler`
  itself. It has the same fields as the C++ class and updates them in place.
  Each command is proved to leave the objects in the state that its
  `Navigation` function gives: `State() == Navigation.F(old(State()))`.

Window level and width are `real`s, so a step of 10 is exact. The C++
`int(...)` cast applied before formatting is `TruncateToInt`, which truncates
toward zero. Dafny's `Floor` rounds down instead.

Three behaviours of the code that the model keeps as written:
- A slice move at its bound requests no redraw, because `Render()` sits inside
  the `if` (src/interactorStyler.cxx:43-56).
- Status mappers are dereferenced without a null check, so a bound handle is
  a precondition; an absent one is not skipped silently.
- `setImageViewer` pushes nothing into the mappers. Mapper synchronisation is
  therefore established command by command, not at bind time.

## Model

| member | source | states |
|---|---|---|
| `Navigation.TruncateToInt` | src/interactorStyler.cxx:85 | the integer handed to the level/width formatter is the value truncated toward zero: within 1 below it for non-negative values, within 1 above it for negative ones |
| `Navigation.Step` | src/interactorStyler.cxx:41-135 | every command keeps the slice range and the slice bounds and keeps everything already displayed; it changes nothing exactly when it is a slice move at its bound; otherwise it pushes its own quantity to both mappers and its status text, touches nothing else and requests exactly one redraw |
| `Navigation.SliceForwardEffect` | src/interactorStyler.cxx:41-57 | below the last slice the slice grows by exactly 1, both mappers and the slice text show it, nothing else changes and one redraw is requested; at or past the last slice nothing changes at all |
| `Navigation.SliceBackwardEffect` | src/interactorStyler.cxx:59-75 | above the first slice the slice shrinks by exactly 1 with the same effects; at or below the first slice nothing changes at all |
| `Navigation.LevelEffect` | src/interactorStyler.cxx:77-105 | the level moves by exactly +10 or -10 without a bound; both mappers' colour level and the level text follow; slice, width and the other texts are untouched; one redraw |
| `Navigation.WidthEffect` | src/interactorStyler.cxx:107-135 | the width moves by exactly +10 or -10 without a bound; both mappers' colour window and the width text follow; slice, level and the other texts are untouched; one redraw |
| `Navigation.LevelRoundTrip` | src/interactorStyler.cxx:77-105 | a level step up then down restores the level and leaves slice and width alone; from a displayed level, only two redraws remain |
| `Navigation.WidthRoundTrip` | src/interactorStyler.cxx:107-135 | a width step up then down restores the width and leaves slice and level alone; from a displayed width, only two redraws remain |
| `Navigation.SliceRoundTrip` | src/interactorStyler.cxx:41-75 | below the last slice, a forward then a backward move return to the same slice; from a displayed slice, only two redraws remain |
| `NavigationRuns.Run` | src/interactorStyler.cxx:41-135 | no command sequence changes the slice range, and each command requests at most one redraw |
| `NavigationRuns.RunKeepsSliceInBounds` | src/interactorStyler.cxx:41-75 | clamping: a slice between the first and last slice stays there after any command sequence |
| `NavigationRuns.RunEmptyRangeKeepsSlice` | src/interactorStyler.cxx:17-23 | for an input whose last Z slice precedes its first, the slice stays at the first slice after any sequence |
| `NavigationRuns.RunKeepsDisplays` | src/interactorStyler.cxx:41-135 | once both mappers and the status text agree with the styler on a quantity, they keep agreeing after any sequence |
| `NavigationRuns.RunKeepsSynced` | src/interactorStyler.cxx:41-135 | once the primary and the mask mapper both hold the styler's slice, level and width, they keep holding them after any command sequence, whatever the status texts show |
| `NavigationRuns.RunKeepsMappersAgree` | src/interactorStyler.cxx:41-135 | once the primary and the mask mapper hold the same Z slice, colour level and colour window, no command sequence sets them apart |
| `NavigationRuns.RunDisplaysMovedSlice` | src/interactorStyler.cxx:41-75 | if some slice move of a sequence was not at its bound (even if the slice later came back), both mappers and the slice text show the final slice together with the last slice |
| `NavigationRuns.RunDisplaysWindowing` | src/interactorStyler.cxx:77-135 | a sequence containing a level (width) command leaves both mappers and the level (width) text showing the final level (width) |
| `NavigationRuns.RunWindowing` | src/interactorStyler.cxx:77-135 | after any sequence the level is the start level plus 10 per step up minus 10 per step down, in any order; the width likewise |
| `NavigationRuns.RunWithoutSliceMoves` | src/interactorStyler.cxx:77-135 | level and width commands never move the slice and each requests exactly one redraw |
| `NavigationRuns.RunSliceMovesOnly` | src/interactorStyler.cxx:41-75 | slice moves never change the level or the width |
| `NavigationRuns.RunForward` | src/interactorStyler.cxx:41-57 | n forward moves end n slices further or at the last slice, whichever comes first; if the first could move, both mappers and the text show the end slice |
| `NavigationRuns.RunBackward` | src/interactorStyler.cxx:59-75 | n backward moves end n slices back or at the first slice, whichever comes first, with the same display guarantee |
| `NavigationRuns.ScenarioForwardFive` | src/interactorStyler.cxx:41-57 | slices 0..9 from slice 0: five forward moves reach slice 5, shown as slice 5 of 9 |
| `NavigationRuns.ScenarioBackwardSix` | src/interactorStyler.cxx:59-75 | from slice 5: six backward moves reach slice 0 and the sixth changes nothing |
| `NavigationRuns.ScenarioThereAndBack` | src/interactorStyler.cxx:41-75 | inside the range, a forward then a backward move end on the starting slice with both mappers and the slice text showing it |
| `NavigationRuns.ScenarioLevel` | src/interactorStyler.cxx:77-105 | level 40, two steps up and one down: level 50 on both mappers and in the level text |
| `NavigationRuns.ScenarioWidth` | src/interactorStyler.cxx:122-135 | width 400, one step down: width 390 on both mappers |
| `Interaction.InteractorStyler.SetImageViewer` | src/interactorStyler.cxx:12-24 | stores the three handles; takes the slice range from the primary mapper's Z extent and the level and width from its current colour level and window; starts at the first slice, which lies in range whenever the extent is non-empty |
| `Interaction.InteractorStyler.SetSliceStatusMapper` | src/interactorStyler.cxx:26-29 | stores the slice status mapper and nothing else |
| `Interaction.InteractorStyler.SetWindowLevelStatusMapper` | src/interactorStyler.cxx:31-34 | stores the level status mapper and nothing else |
| `Interaction.InteractorStyler.SetWindowStatusMapper` | src/interactorStyler.cxx:36-39 | stores the width status mapper and nothing else |
| `Interaction.InteractorStyler.MoveSliceForward` | src/interactorStyler.cxx:41-57 | the new observable state is `Navigation.MoveSliceForward` of the old one; the slice grows by 1 below the last slice and is otherwise unchanged; writes only the slice field, both mappers' Z slice, the slice text and the redraw count |
| `Interaction.InteractorStyler.MoveSliceBackward` | src/interactorStyler.cxx:59-75 | the new observable state is `Navigation.MoveSliceBackward` of the old one; the slice shrinks by 1 above the first slice and is otherwise unchanged; same frame |
| `Interaction.InteractorStyler.MoveWindowLevelForward` | src/interactorStyler.cxx:77-90 | the new observable state is `Navigation.MoveWindowLevelForward` of the old one; the level grows by 10; writes only the level, both mappers' colour level, the level text and the redraw count |
| `Interaction.InteractorStyler.MoveWindowLevelBackward` | src/interactorStyler.cxx:92-105 | the new observable state is `Navigation.MoveWindowLevelBackward` of the old one; the level shrinks by 10; same frame |
| `Interaction.InteractorStyler.MoveWindowForward` | src/interactorStyler.cxx:107-120 | the new observable state is `Navigation.MoveWindowForward` of the old one; the width grows by 10; writes only the width, both mappers' colour window, the width text and the redraw count |
| `Interaction.InteractorStyler.MoveWindowBackward` | src/interactorStyler.cxx:122-135 | the new observable state is `Navigation.MoveWindowBackward` of the old one; the width shrinks by 10; same frame |

## Left out

- src/vtkVisualization.cxx is not part of this model. It holds argument checks, console messages, input-type detection, the DICOM and NIfTI readers, the iso-surface and ray-cast pipelines with their floating-point transfer functions, and the render loop. All of it is I/O or library calls.
- The exact status strings are not modelled. The formatters live in a header that is not part of this model, so only the arguments handed to them are recorded.
- VTK mapper and render-window internals are reduced to the values last written and a redraw counter.
- The key bindings that call the six commands are not in the sources modelled. `Run` stands for any order in which they might be called.
- Interaction.InteractorStyler.Bound: the six commands require every handle to be bound, because the code dereferences them without checks. They also require the three status text mappers to be distinct objects, which the code does not demand. With shared status mappers, one command's text would overwrite another's.
- Interaction.InteractorStyler.constructor: the header that declares the fields and their initial values is not part of this model; the model starts unbound with zeroed numbers.
- Navigation.TruncateToInt: C++ `int(...)` of a double outside the range of `int` is undefined; the model truncates any real.
- Navigation.LevelEffect: level and width are exact reals, while the source holds doubles read from the mapper (src/interactorStyler.cxx:19-20). Any level whose fractional bits are finer than `level + 10` or `level - 10` can represent is rounded by the double step (0.1 + 10 gives 10.1 rounded), at every magnitude; the model's exact ±10 does not capture that rounding.
- Navigation.WidthEffect: the same rounding remark applies to the width.
- Navigation.LevelRoundTrip: the level comes back exactly only in exact arithmetic; with doubles, +10 then -10 can miss (0.1 comes back as 0.09999999999999964).
- Navigation.WidthRoundTrip: the same holds for the width round trip.
- Navigation.Step: the slice is an unbounded integer. A C++ `int` cannot overflow here, because a move happens only strictly inside the range.
