/** Values shared by the hand-stream client and the ray-casting selection hook. */
module Common {

  /** A JavaScript value that may be `null` or `undefined`. */
  datatype Option<+T> = None | Some(value: T)

  /** One tracked hand joint, in normalised camera coordinates. */
  datatype Point3 = Point3(x: real, y: real, z: real)
}
