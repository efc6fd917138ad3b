/** The user-facing status: the message strings and what the map overlay shows. */
module Status {
  import opened Common

  const ZoomInMessage := "Please zoom in to find trash bins."
  const UpdatingMessage := "Updating bins..."

  /** The message a failed session shows for an error that is not an abort. */
  function ErrorText(message: string): (t: string)
    ensures "Error: " <= t && |t| == |message| + 26
    ensures t[7..7 + |message|] == message && t[7 + |message|..] == ". Please try again."
  {
    "Error: " + message + ". Please try again."
  }

  /**
   * `const message = loadingBins ? "Updating bins..." : mapMessage`. The
   * component computes this value but never renders it; what the user sees
   * is `OverlayOf`.
   */
  function DisplayedMessage(loadingBins: bool, mapMessage: Option<string>): (m: Option<string>)
    ensures loadingBins ==> m == Some(UpdatingMessage)
    ensures !loadingBins ==> m == mapMessage
  {
    if loadingBins then Some(UpdatingMessage) else mapMessage
  }

  /** What is drawn over the map: a spinner while loading, otherwise a banner holding a non-empty `mapMessage`. */
  datatype Overlay = Spinner | Banner(text: string) | NoOverlay

  function OverlayOf(loadingBins: bool, mapMessage: Option<string>): (o: Overlay)
    ensures o == Spinner <==> loadingBins
    ensures forall t :: o == Banner(t) <==> !loadingBins && t != "" && mapMessage == Some(t)
    ensures o == NoOverlay <==> !loadingBins && (mapMessage.None? || mapMessage.value == "")
  {
    if loadingBins then Spinner
    else if mapMessage.Some? && mapMessage.value != "" then Banner(mapMessage.value)
    else NoOverlay
  }

  /**
   * The unused `message` and the overlay agree: the spinner is shown exactly
   * while loading (when `message` is "Updating bins..."), and a banner shows
   * exactly `message` when that is non-empty.
   */
  lemma OverlayShowsDisplayedMessage(loadingBins: bool, mapMessage: Option<string>)
    ensures OverlayOf(loadingBins, mapMessage) == Spinner <==> loadingBins
    ensures loadingBins ==> DisplayedMessage(loadingBins, mapMessage) == Some(UpdatingMessage)
    ensures !loadingBins ==> DisplayedMessage(loadingBins, mapMessage) == mapMessage
    ensures forall t :: OverlayOf(loadingBins, mapMessage) == Banner(t) <==>
      !loadingBins && t != "" && DisplayedMessage(loadingBins, mapMessage) == Some(t)
  {
  }
}
