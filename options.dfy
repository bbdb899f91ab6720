/** The optional value the views use for "nothing selected", "no such
    entry" and "the handler returned before emitting". */
module Options {

  datatype Option<+T> = None | Some(value: T)
}
