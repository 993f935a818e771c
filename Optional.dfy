/** The usual Some/None datatype, used for values the view can leave unset
    (an angle that is NaN, a measured size that is never set, a deferred rebuild). */
module Optional {

  datatype Option<+T> = None | Some(value: T)

}
