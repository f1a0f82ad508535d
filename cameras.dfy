/** The camera record (src/renderer/camera.rs). */
module Cameras {
  import opened Vectors

  class Camera {
    var position: Vector3
    var direction: Vector3
    var target: Vector3
    var fov: real
    var zNear: real
    var zFar: real

    /** The target is the origin: `new` puts it there and no method moves it. */
    predicate Valid()
      reads this
    {
      target == Vector3(0.0, 0.0, 0.0)
    }

    /** `Camera::new`: everything but the target is stored as given. */
    constructor (fov: real, zNear: real, zFar: real, position: Vector3, direction: Vector3)
      ensures Valid()
      ensures this.fov == fov && this.zNear == zNear && this.zFar == zFar
      ensures this.position == position && this.direction == direction
    {
      this.fov := fov;
      this.zFar := zFar;
      this.zNear := zNear;
      this.position := position;
      this.target := Vector3(0.0, 0.0, 0.0);
      this.direction := direction;
    }

    /** `set_position`: only the position changes. */
    method SetPosition(position: Vector3)
      requires Valid()
      modifies this
      ensures Valid()
      ensures Position() == position
      ensures direction == old(direction) && target == old(target)
      ensures fov == old(fov) && zNear == old(zNear) && zFar == old(zFar)
    {
      this.position := position;
    }

    /** `position` */
    function Position(): Vector3
      reads this
    {
      position
    }

    /** `target`: always the origin. */
    function Target(): (t: Vector3)
      requires Valid()
      reads this
      ensures t == Vector3(0.0, 0.0, 0.0)
    {
      target
    }
  }
}
