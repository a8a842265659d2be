/** The window-size correction used by `resizeWindow`. */
module Window {

  datatype Size = Size(width: int, height: int)

  /** `getCorrectedSize`: the window size that gives the requested client
      area, keeping the browser chrome (window size minus client-area size)
      the window has now. */
  function CorrectedSize(clientArea: Size, window: Size, requested: Size): (r: Size)
    ensures r.width - requested.width == window.width - clientArea.width
    ensures r.height - requested.height == window.height - clientArea.height
  {
    Size(requested.width + (window.width - clientArea.width),
         requested.height + (window.height - clientArea.height))
  }

  /** Asking for the current client area gives back the current window size. */
  lemma CorrectedSizeOfCurrentArea(clientArea: Size, window: Size)
    ensures CorrectedSize(clientArea, window, clientArea) == window
  {
  }

  /** With the same chrome, a window of the corrected size has exactly the
      requested client area. */
  lemma CorrectedSizeGivesRequestedArea(clientArea: Size, window: Size, requested: Size)
    ensures var r := CorrectedSize(clientArea, window, requested);
            Size(r.width - (window.width - clientArea.width), r.height - (window.height - clientArea.height)) == requested
  {
  }
}
