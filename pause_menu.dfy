/** The pause menu script: Escape opens it and freezes time, the Resume
    button closes it and restores time. */
module PauseMenuScript {
  import opened Engine
  import opened GlobalPause

  class PauseMenu {
    const container: GameObject
    const time: TimeSettings

    /** The container's visibility and the global time scale. */
    function View(): Pane
      reads container, time
    {
      Pane(container.active, time.timeScale)
    }

    constructor (container: GameObject, time: TimeSettings)
      ensures this.container == container && this.time == time
    {
      this.container := container;
      this.time := time;
    }

    /** One frame; `escapePressed` is the Escape key's edge in this frame. */
    method Update(escapePressed: bool)
      modifies container`active, time`timeScale
      ensures View() == Escape(old(View()), escapePressed)
    {
      if escapePressed {
        container.active := true;
        time.timeScale := FrozenScale;
      }
    }

    method ResumeButton()
      modifies container`active, time`timeScale
      ensures View() == Resume(old(View()))
    {
      container.active := false;
      time.timeScale := NormalScale;
    }
  }
}
