/** The usual Some/None wrapper, for values the source may not have (a fetched name, a rule that
    does not fire, a download that raised). */
module Optional {

  datatype Option<+T> = None | Some(value: T)
}
