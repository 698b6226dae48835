/** The level-end flag: a player reaching it sees the win surface and the
    game freezes. The flag stays in the scene. */
module FlagScript {
  import opened Engine
  import opened GlobalPause

  class Flag {
    const winUI: GameObject
    const time: TimeSettings

    /** The win surface's visibility and the global time scale. */
    function View(): Pane
      reads winUI, time
    {
      Pane(winUI.active, time.timeScale)
    }

    constructor (winUI: GameObject, time: TimeSettings)
      ensures this.winUI == winUI && this.time == time
    {
      this.winUI := winUI;
      this.time := time;
    }

    /** A trigger overlap with an object tagged `tag`. */
    method OnTriggerEnter2D(tag: string)
      modifies winUI`active, time`timeScale
      ensures View() == FlagTouch(old(View()), tag)
    {
      if tag == PlayerTag {
        winUI.active := true;
        time.timeScale := FrozenScale;
      }
    }
  }
}
