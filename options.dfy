/** The nullable values the webhook reads from its store and its settings row. */
module Options {

  datatype Option<+T> = None | Some(value: T)
}
