/** Optional values: JavaScript's `undefined`/`null` results and PHP's missing
    entries become `None`. */
module Options {

  datatype Option<+T> = None | Some(value: T)
}
