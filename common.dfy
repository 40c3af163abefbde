/** Small helpers shared by every module: a nullable value. */
module Common {

  /** A Java reference that may be null: `None` stands for null. */
  datatype Option<+T> = None | Some(value: T)
}
