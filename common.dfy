/** Small value types shared by the updater and the element models. */
module Common {

  /** A value that may be absent: a C# null reference, or a Unity object that tests false. */
  datatype Option<+T> = None | Some(value: T)

  /** The two geometry sub-streams of one particle system: the particles themselves and their trails. */
  datatype SubStream = Main | Trail
}
