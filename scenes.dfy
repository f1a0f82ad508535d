/**
 * The scene (src/renderer/scene.rs): a background and an append-only list of
 * renderables. The renderable type is a parameter, since the traits the
 * source's objects implement do not agree with each other.
 */
module Scenes {
  import opened Vectors

  class Scene<R> {
    var background: Vector3
    var renderables: seq<R>

    /** `Scene::new` */
    constructor (background: Vector3)
      ensures this.background == background && renderables == []
    {
      this.background := background;
      renderables := [];
    }

    /** `add_renderable`: pushes onto the end of the list. */
    method AddRenderable(renderable: R)
      modifies this
      ensures renderables == old(renderables) + [renderable]
      ensures background == old(background)
    {
      renderables := renderables + [renderable];
    }
  }
}
