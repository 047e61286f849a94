/** The usual optional value. A `None` number stands for JavaScript's NaN
    wherever a numeric coercion can fail. */
module Optional {

  datatype Option<+T> = None | Some(value: T)
}
