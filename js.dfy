/** The JavaScript values a street property can hold in the frontend's
    GeoJSON data. Numbers are reals; `NaN` is kept apart because it is a
    number that every comparison rejects. Objects, arrays and booleans are
    not modelled. */
module Js {
  datatype JsValue = Undefined | Null | Num(x: real) | NaN | Str(s: string)
}
