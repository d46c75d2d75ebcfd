/** The optional value the source writes as `T | undefined` (the result of
    `Array.prototype.find`, an absent `clientId`, a `null` selection). */
module Optional {

  datatype Option<+T> = None | Some(value: T)
}
