/** An optional value, for document fields a stored record may lack and for
    the query snapshot that `displayMessages` accepts as possibly null. */
module Optional {

  datatype Option<+T> = None | Some(value: T)
}
