/** The permission dialog shown before the app: two checkboxes the user must tick, a
    continue button that then asks the browser for the microphone and the location, and
    the open/close handling. The browser's answers are parameters. */
module Permissions {
  /** The two checkboxes. */
  datatype Kind = Location | Microphone

  datatype Flags = Flags(location: bool, microphone: bool) {
    function Get(k: Kind): bool {
      match k
      case Location => location
      case Microphone => microphone
    }
  }

  datatype Dialog = Dialog(flags: Flags, showWarning: bool, isClosing: bool)

  const Initial: Dialog := Dialog(Flags(false, false), false, false)

  /** Ticking or unticking one box flips exactly that box and hides the warning. */
  function Toggle(d: Dialog, k: Kind): (r: Dialog)
    ensures r.flags.Get(k) == !d.flags.Get(k)
    ensures forall other: Kind :: other != k ==> r.flags.Get(other) == d.flags.Get(other)
    ensures !r.showWarning && r.isClosing == d.isClosing
  {
    var flags := match k
      case Location => d.flags.(location := !d.flags.location)
      case Microphone => d.flags.(microphone := !d.flags.microphone);
    d.(flags := flags, showWarning := false)
  }

  /** Toggling the same box twice gives back the original boxes. */
  lemma ToggleTwiceRestores(d: Dialog, k: Kind)
    ensures Toggle(Toggle(d, k), k).flags == d.flags
    ensures Toggle(Toggle(d, k), k) == d.(showWarning := false)
  {
  }

  /** The continue button is styled as enabled exactly when both boxes are ticked. */
  predicate AllChecked(f: Flags) {
    f.location && f.microphone
  }

  /** The box a kind is paired with. */
  function Other(k: Kind): Kind {
    match k
    case Location => Microphone
    case Microphone => Location
  }

  /** One click enables continue exactly when it ticks the last unticked box. */
  lemma ToggleCompletes(d: Dialog, k: Kind)
    ensures AllChecked(Toggle(d, k).flags) <==> !d.flags.Get(k) && d.flags.Get(Other(k))
  {
  }

  /** The dialog after a run of checkbox clicks, in order. */
  function Toggles(d: Dialog, clicks: seq<Kind>): Dialog
    decreases |clicks|
  {
    if |clicks| == 0 then d else Toggle(Toggles(d, clicks[..|clicks| - 1]), clicks[|clicks| - 1])
  }

  /** After any run of clicks a box is ticked exactly when it started ticked and was
      clicked an even number of times, or started unticked and was clicked an odd number
      of times. */
  lemma {:induction false} TogglesParity(d: Dialog, clicks: seq<Kind>, k: Kind)
    ensures Toggles(d, clicks).flags.Get(k) == (d.flags.Get(k) != (multiset(clicks)[k] % 2 == 1))
    decreases |clicks|
  {
    if |clicks| > 0 {
      var init := clicks[..|clicks| - 1];
      var last := clicks[|clicks| - 1];
      TogglesParity(d, init, k);
      assert clicks == init + [last];
      assert multiset(clicks) == multiset(init) + multiset{last};
    }
  }

  /** From a freshly opened dialog, continue is enabled after a run of clicks exactly when
      each box was clicked an odd number of times. */
  lemma ContinueEnabledAfterClicks(d: Dialog, clicks: seq<Kind>)
    ensures AllChecked(Toggles(OpenChanged(d, true), clicks).flags)
        <==> multiset(clicks)[Location] % 2 == 1 && multiset(clicks)[Microphone] % 2 == 1
  {
    TogglesParity(OpenChanged(d, true), clicks, Location);
    TogglesParity(OpenChanged(d, true), clicks, Microphone);
  }

  /** A request made of the browser. */
  datatype Request = MicrophoneRequest | LocationRequest

  datatype ContinueResult = ContinueResult(dialog: Dialog, requests: seq<Request>, granted: bool)

  /** Continue: with a box unticked the warning shows and nothing is asked. Otherwise the
      microphone is asked first, the location only if the microphone was granted, and the
      parent hears of it only if both were; any refusal shows the warning. */
  function Continue(d: Dialog, microphoneGranted: bool, locationGranted: bool): (c: ContinueResult)
    ensures !AllChecked(d.flags) ==>
      c.dialog == d.(showWarning := true) && c.requests == [] && !c.granted
    ensures AllChecked(d.flags) ==>
      && c.requests == (if microphoneGranted then [MicrophoneRequest, LocationRequest] else [MicrophoneRequest])
      && (c.granted <==> microphoneGranted && locationGranted)
      && c.dialog == (if c.granted then d else d.(showWarning := true))
    ensures c.granted ==> AllChecked(d.flags) && LocationRequest in c.requests
    ensures c.dialog.flags == d.flags
  {
    if !AllChecked(d.flags) then ContinueResult(d.(showWarning := true), [], false)
    else if !microphoneGranted then ContinueResult(d.(showWarning := true), [MicrophoneRequest], false)
    else if !locationGranted then ContinueResult(d.(showWarning := true), [MicrophoneRequest, LocationRequest], false)
    else ContinueResult(d, [MicrophoneRequest, LocationRequest], true)
  }

  /** Closing starts the fade-out; the parent's close callback follows after the
      animation. */
  function Close(d: Dialog): (r: Dialog)
    ensures r.isClosing && r.flags == d.flags && r.showWarning == d.showWarning
  {
    d.(isClosing := true)
  }

  /** Escape closes the dialog only while it is open. */
  function Escape(d: Dialog, isOpen: bool): (r: Dialog)
    ensures isOpen ==> r == Close(d)
    ensures !isOpen ==> r == d
  {
    if isOpen then Close(d) else d
  }

  /** A click closes the dialog only when it lands on the backdrop itself: the element
      clicked (`target`) must be the element holding the handler (`backdrop`), not the
      panel or anything inside it. */
  function BackdropClick<Node(==)>(d: Dialog, target: Node, backdrop: Node): (r: Dialog)
    ensures r.isClosing <==> d.isClosing || target == backdrop
    ensures target == backdrop ==> r == Close(d)
    ensures target != backdrop ==> r == d
  {
    if target == backdrop then Close(d) else d
  }

  /** The effect on the parent's open flag: opening starts from a clean dialog; a closed
      dialog ends its fade-out. */
  function OpenChanged(d: Dialog, isOpen: bool): (r: Dialog)
    ensures isOpen ==> r == Initial
    ensures !isOpen ==> r == d.(isClosing := false)
  {
    if isOpen then Initial else d.(isClosing := false)
  }

  /** The dialog is on screen while open or while fading out. */
  predicate Rendered(d: Dialog, isOpen: bool) {
    isOpen || d.isClosing
  }

  /** A freshly opened dialog never grants and never asks the browser: both boxes must be
      ticked first, and then a refusal is what shows the warning. */
  lemma FreshDialogAsksNothing(d: Dialog, mic: bool, loc: bool)
    ensures var c := Continue(OpenChanged(d, true), mic, loc);
      !c.granted && c.requests == [] && c.dialog.showWarning
  {
  }

  /** Ticking both boxes of a fresh dialog is what it takes for continue to reach the
      browser; a grant then follows exactly when both requests succeed. */
  lemma BothTicksReachBrowser(d: Dialog, mic: bool, loc: bool)
    ensures var ticked := Toggle(Toggle(OpenChanged(d, true), Location), Microphone);
      && AllChecked(ticked.flags)
      && Continue(ticked, mic, loc).requests != []
      && (Continue(ticked, mic, loc).granted <==> mic && loc)
  {
  }

  /** Closing keeps the dialog on screen until the parent reports it closed. */
  lemma ClosingStaysRenderedUntilClosed(d: Dialog, isOpen: bool)
    ensures Rendered(Close(d), isOpen)
    ensures !Rendered(OpenChanged(Close(d), false), false)
  {
  }
}
