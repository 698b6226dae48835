/** The process-wide pause state. Three writers share the global time
    scale: the pause menu's Escape key, its Resume button and the win flag.
    Each writer also shows or hides its own UI surface. */
module GlobalPause {
  import opened Engine

  const FrozenScale: real := 0.0
  const NormalScale: real := 1.0

  /** One UI surface's visibility together with the shared time scale. */
  datatype Pane = Pane(visible: bool, timeScale: real)

  /** Running: surface hidden, time flowing. */
  predicate IsRunning(p: Pane)
  {
    !p.visible && p.timeScale == NormalScale
  }

  /** Paused: surface shown, time frozen. */
  predicate IsPaused(p: Pane)
  {
    p.visible && p.timeScale == FrozenScale
  }

  /** The pause menu's frame: Escape shows the container and freezes time;
      without Escape nothing changes. */
  function Escape(p: Pane, escapePressed: bool): (r: Pane)
    ensures escapePressed ==> IsPaused(r)
    ensures !escapePressed ==> r == p
  {
    if escapePressed then Pane(true, FrozenScale) else p
  }

  /** The Resume button: hide the container and restore normal time. */
  function Resume(p: Pane): (r: Pane)
    ensures IsRunning(r)
  {
    Pane(false, NormalScale)
  }

  /** The win flag's trigger: a "Player" contact shows the win surface and
      freezes time; any other contact is ignored. */
  function FlagTouch(p: Pane, tag: string): (r: Pane)
    ensures tag == PlayerTag ==> IsPaused(r)
    ensures tag != PlayerTag ==> r == p
    // the flag never hides its surface and never restores time
    ensures p.visible ==> r.visible
    ensures r.timeScale == p.timeScale || r.timeScale == FrozenScale
  {
    if tag == PlayerTag then Pane(true, FrozenScale) else p
  }

  lemma EscapeIdempotent(p: Pane)
    ensures Escape(Escape(p, true), true) == Escape(p, true)
  {
  }

  lemma EscapeThenResumeRuns(p: Pane)
    ensures IsRunning(Resume(Escape(p, true)))
  {
  }

  lemma FlagIdempotent(p: Pane)
    ensures FlagTouch(FlagTouch(p, PlayerTag), PlayerTag) == FlagTouch(p, PlayerTag)
  {
  }

  // ---------------------------------------------------------------------
  // Runs of writes from all three writers
  // ---------------------------------------------------------------------

  /** The pause menu's container, the win surface and the time scale. */
  datatype Screen = Screen(menuVisible: bool, winVisible: bool, timeScale: real)

  /** A call to one of the writers. */
  datatype Event = MenuFrame(escapePressed: bool) | ResumeClick | FlagContact(tag: string)

  function Apply(s: Screen, e: Event): Screen
  {
    match e
    case MenuFrame(pressed) =>
      var p := Escape(Pane(s.menuVisible, s.timeScale), pressed);
      Screen(p.visible, s.winVisible, p.timeScale)
    case ResumeClick =>
      var p := Resume(Pane(s.menuVisible, s.timeScale));
      Screen(p.visible, s.winVisible, p.timeScale)
    case FlagContact(tag) =>
      var p := FlagTouch(Pane(s.winVisible, s.timeScale), tag);
      Screen(s.menuVisible, p.visible, p.timeScale)
  }

  function Run(s: Screen, es: seq<Event>): Screen
    decreases |es|
  {
    if es == [] then s else Run(Apply(s, es[0]), es[1..])
  }

  lemma {:induction false} RunAppend(s: Screen, es: seq<Event>, e: Event)
    ensures Run(s, es + [e]) == Apply(Run(s, es), e)
    decreases |es|
  {
    if es == [] {
      assert es + [e] == [e];
    } else {
      assert (es + [e])[0] == es[0];
      assert (es + [e])[1..] == es[1..] + [e];
      RunAppend(Apply(s, es[0]), es[1..], e);
    }
  }

  /** The time scale an event writes, if it writes one. */
  function Written(e: Event): Option<real>
  {
    match e
    case MenuFrame(pressed) => if pressed then Some(FrozenScale) else None
    case ResumeClick => Some(NormalScale)
    case FlagContact(tag) => if tag == PlayerTag then Some(FrozenScale) else None
  }

  /** The value of the last write to the time scale in `es`, if any. */
  function LastWrite(es: seq<Event>): Option<real>
    decreases |es|
  {
    if es == [] then None
    else
      match Written(es[|es| - 1])
      case Some(v) => Some(v)
      case None => LastWrite(es[..|es| - 1])
  }

  /** Last write wins: after any run the time scale is the value of the
      last write, or the initial one when nothing wrote it. */
  lemma {:induction false} LastWriteWins(s: Screen, es: seq<Event>)
    ensures Run(s, es).timeScale == match LastWrite(es) case Some(v) => v case None => s.timeScale
    decreases |es|
  {
    if es != [] {
      var init, last := es[..|es| - 1], es[|es| - 1];
      assert es == init + [last];
      LastWriteWins(s, init);
      RunAppend(s, init, last);
    }
  }

  /** The time scale is only ever 0 or 1 if it starts so. */
  lemma {:induction false} TimeScaleStaysBinary(s: Screen, es: seq<Event>)
    requires s.timeScale == FrozenScale || s.timeScale == NormalScale
    ensures Run(s, es).timeScale == FrozenScale || Run(s, es).timeScale == NormalScale
    decreases |es|
  {
    if es != [] {
      TimeScaleStaysBinary(Apply(s, es[0]), es[1..]);
    }
  }

  /** Once shown, the win surface stays shown: no writer hides it. */
  lemma {:induction false} WinStaysVisible(s: Screen, es: seq<Event>)
    requires s.winVisible
    ensures Run(s, es).winVisible
    decreases |es|
  {
    if es != [] {
      WinStaysVisible(Apply(s, es[0]), es[1..]);
    }
  }

  /** A frozen game stays frozen until the Resume button is clicked: neither
      the Escape key nor the flag ever restores time. */
  lemma {:induction false} FrozenUntilResume(s: Screen, es: seq<Event>)
    requires s.timeScale == FrozenScale && ResumeClick !in es
    ensures Run(s, es).timeScale == FrozenScale
    decreases |es|
  {
    if es != [] {
      assert es[0] != ResumeClick;
      assert ResumeClick !in es[1..];
      FrozenUntilResume(Apply(s, es[0]), es[1..]);
    }
  }
}
