/**
 * The AutoDisable marker component. The two editor hooks read it: the
 * light-bake hook activates the objects whose component asks for it, and
 * the build hook saves and restores the active flags of every marked object.
 */
module AutoDisable {
  import opened Engine

  class AutoDisable {
    /** The object the component is attached to. */
    const gameObject: GameObject
    const enableDuringLightBake: bool
    /**
     * Whether the component has been destroyed. A destroyed component compares
     * equal to null in the engine, which is what the hooks' null tests see.
     */
    var destroyed: bool

    constructor (gameObject: GameObject, enableDuringLightBake: bool)
      ensures this.gameObject == gameObject && this.enableDuringLightBake == enableDuringLightBake
      ensures !destroyed
    {
      this.gameObject := gameObject;
      this.enableDuringLightBake := enableDuringLightBake;
      destroyed := false;
    }
  }
}
