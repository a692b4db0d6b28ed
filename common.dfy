/** Shared result types, the error conditions the plugin raises, and small
    sequence helpers used by several parts of the model. */
module Common {

  datatype Option<+T> = None | Some(value: T)

  /** The exceptions the plugin throws (coding_exception messages) and the PHP
      runtime errors its code paths can hit, as values. */
  datatype Error =
    | ConfigurationNotLoaded          // item::get_label on an item with no id
    | FailedAdoption                  // item::set_parent with a mismatching parent id
    | NullParent                      // set_parent(null) on an item with an id: method call on null
    | CourseNotAvailable              // get_course with no cached course and a falsy course id
    | NoGroupIdentifiers              // learner_list::get_course_group_membership_join([])
    | ShortnameRequired               // factory create_item of a new item without a short name
    | UnknownShortName(name: string)  // measure_list lookup that finds nothing
    | UnknownClassName(name: string)  // `new $classname` for a class that does not exist
    | ReturnTypeMismatch              // a typed wrapper returning the other kind of item

  datatype Result<+T> = Ok(value: T) | Err(error: Error)

  /** Success or failure of an operation that returns nothing. */
  datatype Outcome = Pass | Fail(error: Error)

  /** A course record, as far as the plugin reads it. */
  datatype Course = Course(id: int, startdate: int)

  /** No value occurs twice in `s`. */
  predicate NoDuplicates<T(==)>(s: seq<T>) {
    forall i, j :: 0 <= i < j < |s| ==> s[i] != s[j]
  }
}
