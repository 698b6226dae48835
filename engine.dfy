/** The few pieces of the host engine that the scripts read or write:
    tags, game objects that can be shown, hidden or destroyed, and the
    process-wide time scale. */
module Engine {

  datatype Option<+T> = None | Some(value: T)

  /** The tags the scripts compare colliders against. */
  const PlayerTag: string := "Player"
  const DamageTag: string := "Damage"
  const StrawberryTag: string := "Strawberry"

  /** A scene object: a UI surface (shown and hidden with SetActive) or a
      collectible (removed with Destroy). */
  class GameObject {
    const tag: string
    var active: bool
    var destroyed: bool

    constructor (tag: string, active: bool)
      ensures this.tag == tag && this.active == active && !destroyed
    {
      this.tag := tag;
      this.active := active;
      destroyed := false;
    }
  }

  /** The global simulation speed multiplier; 0 freezes every time-scaled
      system, 1 is normal speed. One instance is shared by every writer. */
  class TimeSettings {
    var timeScale: real

    constructor ()
      ensures timeScale == 1.0
    {
      timeScale := 1.0;
    }
  }
}
