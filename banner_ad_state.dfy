/**
  The lifecycle record of one banner slot (BannerAdState.swift).

  `AdState` is the record as a value, so that event runs can be described by
  pure functions; `BannerAdState` is the observable object whose fields the
  coordinator assigns in place, and `View()` reads it as an `AdState`.
 */
module BannerState {
  import opened Wrappers

  /** A width/height pair, standing for `CGSize`. */
  datatype Size = Size(width: int, height: int)

  /** `CGSize.zero`. */
  const ZeroSize := Size(0, 0)

  datatype AdState<E> = AdState(
    didLoad: bool,
    error: Option<E>,
    didClick: bool,
    didRecordImpression: bool,
    willPresentScreen: bool,
    willDismissScreen: bool,
    didDismissScreen: bool,
    adSize: Size)

  /** The values the eight fields are declared with: nothing has happened yet. */
  function Fresh<E>(): (r: AdState<E>)
    ensures !r.didLoad && r.error == None && !r.didClick && !r.didRecordImpression
    ensures !r.willPresentScreen && !r.willDismissScreen && !r.didDismissScreen
    ensures r.adSize == ZeroSize
  {
    AdState(false, None, false, false, false, false, false, ZeroSize)
  }

  class BannerAdState<E> {
    var didLoad: bool
    var error: Option<E>
    var didClick: bool
    var didRecordImpression: bool
    var willPresentScreen: bool
    var willDismissScreen: bool
    var didDismissScreen: bool
    var adSize: Size

    /** The current field values as a record. */
    function View(): AdState<E>
      reads this
    {
      AdState(didLoad, error, didClick, didRecordImpression,
              willPresentScreen, willDismissScreen, didDismissScreen, adSize)
    }

    constructor ()
      ensures !didLoad && error == None && !didClick && !didRecordImpression
      ensures !willPresentScreen && !willDismissScreen && !didDismissScreen
      ensures adSize == ZeroSize
      ensures View() == Fresh()
    {
      didLoad := false;
      error := None;
      didClick := false;
      didRecordImpression := false;
      willPresentScreen := false;
      willDismissScreen := false;
      didDismissScreen := false;
      adSize := ZeroSize;
    }
  }
}
