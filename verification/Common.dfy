// Small types shared by every component of the model.
module Common {

  datatype Option<+T> = None | Some(value: T)

  /** config.ServiceTarget is an open string type; `Other` stands for every
      string that is neither "blue" nor "green". */
  datatype ServiceTarget = Blue | Green | Other(name: string)
}
