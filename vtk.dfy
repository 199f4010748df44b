/**
 * The display-toolkit objects the interactor styler talks to, reduced to
 * passive sinks: each remembers the last value it was handed, and the render
 * window counts the redraws it was asked for.
 */
module Vtk {
  import opened ImageMessage

  /** A 2-D image mapper over one Z slice of a volume. */
  class ImageMapper {
    const wholeZMin: int      // first Z slice of the input extent
    const wholeZMax: int      // last Z slice of the input extent
    var zSlice: int
    var colorLevel: real
    var colorWindow: real

    constructor (zMin: int, zMax: int, level: real, width: real)
      ensures wholeZMin == zMin && wholeZMax == zMax
      ensures zSlice == 0 && colorLevel == level && colorWindow == width
    {
      wholeZMin, wholeZMax := zMin, zMax;
      zSlice, colorLevel, colorWindow := 0, level, width;
    }

    method SetZSlice(z: int)
      modifies this`zSlice
      ensures zSlice == z
    {
      zSlice := z;
    }

    method SetColorLevel(level: real)
      modifies this`colorLevel
      ensures colorLevel == level
    {
      colorLevel := level;
    }

    method SetColorWindow(width: real)
      modifies this`colorWindow
      ensures colorWindow == width
    {
      colorWindow := width;
    }
  }

  /** A text mapper showing one status line. */
  class TextMapper {
    var input: StatusText

    constructor ()
      ensures input == NoText
    {
      input := NoText;
    }

    method SetInput(text: StatusText)
      modifies this`input
      ensures input == text
    {
      input := text;
    }
  }

  /** The render window; only the number of redraw requests is observable. */
  class RenderWindow {
    var renderCount: nat

    constructor ()
      ensures renderCount == 0
    {
      renderCount := 0;
    }

    method Render()
      modifies this`renderCount
      ensures renderCount == old(renderCount) + 1
    {
      renderCount := renderCount + 1;
    }
  }
}
