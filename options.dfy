/** The "value or nothing" result that the scraper expresses with Python's None. */
module Options {

  datatype Option<T> = None | Some(value: T)
}
