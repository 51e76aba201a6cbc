/** The absent-or-present value used for JavaScript's `undefined`/`null` and for a regex
    `match` that may return `null`. */
module Optional {

  datatype Option<+T> = None | Some(value: T)
}
