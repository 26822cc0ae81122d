/** Optional values, standing for the `null`/`undefined` references of the modelled code. */
module Options {

  datatype Option<+T> = None | Some(value: T)
}
