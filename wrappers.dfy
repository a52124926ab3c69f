/** The Option datatype: `None` stands for a missing value (a spreadsheet
    cell that pandas reads as NaN, a lookup that found nothing). */
module Wrappers {

  datatype Option<+T> = None | Some(value: T)
}
