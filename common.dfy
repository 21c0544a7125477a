/** Small value types shared by the sprite, fighter and match modules. */
module Common {

  /** A JavaScript value that may be `null`/`undefined` (falsy) or present. */
  datatype Option<+T> = None | Some(value: T)

  /** The `{x, y}` pairs the game uses for positions, velocities and offsets. */
  datatype Vec2 = Vec2(x: real, y: real)

  /** A loaded browser image, identified by the path it was loaded from. */
  datatype ImageRef = ImageRef(src: string)

  /** What a sprite is constructed from: a path to load later, or an image object. */
  datatype ImageSource = Path(path: string) | Handle(image: ImageRef)
}
