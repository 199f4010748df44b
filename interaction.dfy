/**
 * The interactor styler itself: the object that owns the current slice, the
 * window level and the window width, and that pushes every change into the
 * primary and mask image mappers, one status text and the render window.
 * Each command is proved against its function in `Navigation`.
 */
module Interaction {
  import opened ImageMessage
  import opened Vtk
  import opened Navigation

  class InteractorStyler {
    // Non-owning handles to the objects the viewer built.
    var imageMapper: ImageMapper?
    var maskMapper: ImageMapper?
    var renderWindow: RenderWindow?
    var sliceStatusMapper: TextMapper?
    var windowLevelStatusMapper: TextMapper?
    var windowStatusMapper: TextMapper?

    var slice: int
    var minSlice: int
    var maxSlice: int
    var windowLevel: real
    var window: real

    /**
     * Every handle a command dereferences is bound, and the three status
     * lines are separate text mappers.
     */
    ghost predicate Bound()
      reads this
    {
      imageMapper != null && maskMapper != null && renderWindow != null
      && sliceStatusMapper != null && windowLevelStatusMapper != null && windowStatusMapper != null
      && sliceStatusMapper != windowLevelStatusMapper
      && sliceStatusMapper != windowStatusMapper
      && windowLevelStatusMapper != windowStatusMapper
    }

    /** The observable state of a bound styler, as a value. */
    ghost function State(): ViewState
      reads this, imageMapper, maskMapper, renderWindow
      reads sliceStatusMapper, windowLevelStatusMapper, windowStatusMapper
      requires Bound()
    {
      ViewState(slice, minSlice, maxSlice, windowLevel, window,
                MapperState(imageMapper.zSlice, imageMapper.colorLevel, imageMapper.colorWindow),
                MapperState(maskMapper.zSlice, maskMapper.colorLevel, maskMapper.colorWindow),
                sliceStatusMapper.input, windowLevelStatusMapper.input, windowStatusMapper.input,
                renderWindow.renderCount)
    }

    /** A fresh styler with nothing bound. */
    constructor ()
      ensures imageMapper == null && maskMapper == null && renderWindow == null
      ensures sliceStatusMapper == null && windowLevelStatusMapper == null && windowStatusMapper == null
    {
      imageMapper, maskMapper, renderWindow := null, null, null;
      sliceStatusMapper, windowLevelStatusMapper, windowStatusMapper := null, null, null;
      slice, minSlice, maxSlice := 0, 0, 0;
      windowLevel, window := 0.0, 0.0;
    }

    /**
     * Binds the mappers and the render window; the slice range and the
     * starting level and width are read from the primary mapper, and the
     * slice starts at the first slice. Nothing is pushed to the mappers.
     */
    method SetImageViewer(image: ImageMapper, mask: ImageMapper?, renWin: RenderWindow?)
      modifies this`imageMapper, this`maskMapper, this`renderWindow
      modifies this`slice, this`minSlice, this`maxSlice, this`windowLevel, this`window
      ensures imageMapper == image && maskMapper == mask && renderWindow == renWin
      ensures minSlice == image.wholeZMin && maxSlice == image.wholeZMax
      ensures windowLevel == image.colorLevel && window == image.colorWindow
      ensures slice == minSlice
      ensures image.wholeZMin <= image.wholeZMax ==> minSlice <= slice <= maxSlice
    {
      renderWindow := renWin;
      imageMapper := image;
      maskMapper := mask;
      minSlice := image.wholeZMin;
      maxSlice := image.wholeZMax;
      windowLevel := image.colorLevel;
      window := image.colorWindow;
      slice := minSlice;
    }

    method SetSliceStatusMapper(statusMapper: TextMapper?)
      modifies this`sliceStatusMapper
      ensures sliceStatusMapper == statusMapper
    {
      sliceStatusMapper := statusMapper;
    }

    method SetWindowLevelStatusMapper(statusMapper: TextMapper?)
      modifies this`windowLevelStatusMapper
      ensures windowLevelStatusMapper == statusMapper
    {
      windowLevelStatusMapper := statusMapper;
    }

    method SetWindowStatusMapper(statusMapper: TextMapper?)
      modifies this`windowStatusMapper
      ensures windowStatusMapper == statusMapper
    {
      windowStatusMapper := statusMapper;
    }

    method MoveSliceForward()
      requires Bound()
      modifies this`slice, imageMapper`zSlice, maskMapper`zSlice
      modifies sliceStatusMapper`input, renderWindow`renderCount
      ensures Bound()
      ensures State() == Navigation.MoveSliceForward(old(State()))
      ensures slice == if old(slice) < maxSlice then old(slice) + 1 else old(slice)
    {
      if slice < maxSlice {
        slice := slice + SliceStep;
        imageMapper.SetZSlice(slice);
        maskMapper.SetZSlice(slice);
        var msg := SliceNumberFormat(slice, maxSlice);
        sliceStatusMapper.SetInput(msg);
        renderWindow.Render();
      }
    }

    method MoveSliceBackward()
      requires Bound()
      modifies this`slice, imageMapper`zSlice, maskMapper`zSlice
      modifies sliceStatusMapper`input, renderWindow`renderCount
      ensures Bound()
      ensures State() == Navigation.MoveSliceBackward(old(State()))
      ensures slice == if old(slice) > minSlice then old(slice) - 1 else old(slice)
    {
      if slice > minSlice {
        slice := slice - SliceStep;
        imageMapper.SetZSlice(slice);
        maskMapper.SetZSlice(slice);
        var msg := SliceNumberFormat(slice, maxSlice);
        sliceStatusMapper.SetInput(msg);
        renderWindow.Render();
      }
    }

    method MoveWindowLevelForward()
      requires Bound()
      modifies this`windowLevel, imageMapper`colorLevel, maskMapper`colorLevel
      modifies windowLevelStatusMapper`input, renderWindow`renderCount
      ensures Bound()
      ensures State() == Navigation.MoveWindowLevelForward(old(State()))
      ensures windowLevel == old(windowLevel) + 10.0
    {
      windowLevel := windowLevel + WindowStep;
      imageMapper.SetColorLevel(windowLevel);
      maskMapper.SetColorLevel(windowLevel);
      var msg := WindowLevelFormat(TruncateToInt(windowLevel));
      windowLevelStatusMapper.SetInput(msg);
      renderWindow.Render();
    }

    method MoveWindowLevelBackward()
      requires Bound()
      modifies this`windowLevel, imageMapper`colorLevel, maskMapper`colorLevel
      modifies windowLevelStatusMapper`input, renderWindow`renderCount
      ensures Bound()
      ensures State() == Navigation.MoveWindowLevelBackward(old(State()))
      ensures windowLevel == old(windowLevel) - 10.0
    {
      windowLevel := windowLevel - WindowStep;
      imageMapper.SetColorLevel(windowLevel);
      maskMapper.SetColorLevel(windowLevel);
      var msg := WindowLevelFormat(TruncateToInt(windowLevel));
      windowLevelStatusMapper.SetInput(msg);
      renderWindow.Render();
    }

    method MoveWindowForward()
      requires Bound()
      modifies this`window, imageMapper`colorWindow, maskMapper`colorWindow
      modifies windowStatusMapper`input, renderWindow`renderCount
      ensures Bound()
      ensures State() == Navigation.MoveWindowForward(old(State()))
      ensures window == old(window) + 10.0
    {
      window := window + WindowStep;
      imageMapper.SetColorWindow(window);
      maskMapper.SetColorWindow(window);
      var msg := WindowFormat(TruncateToInt(window));
      windowStatusMapper.SetInput(msg);
      renderWindow.Render();
    }

    method MoveWindowBackward()
      requires Bound()
      modifies this`window, imageMapper`colorWindow, maskMapper`colorWindow
      modifies windowStatusMapper`input, renderWindow`renderCount
      ensures Bound()
      ensures State() == Navigation.MoveWindowBackward(old(State()))
      ensures window == old(window) - 10.0
    {
      window := window - WindowStep;
      imageMapper.SetColorWindow(window);
      maskMapper.SetColorWindow(window);
      var msg := WindowFormat(TruncateToInt(window));
      windowStatusMapper.SetInput(msg);
      renderWindow.Render();
    }
  }
}
