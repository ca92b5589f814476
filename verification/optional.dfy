/** The optional values the chart code unwraps with `guard let`. */
module Optional {

  datatype Option<+T> = None | Some(value: T)
}
