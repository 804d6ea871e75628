/** The absent-or-present value the scraper returns where the source returns `None` or a dict. */
module Wrappers {
  datatype Option<+T> = None | Some(value: T)
}
