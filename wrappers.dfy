/** Option and Result types shared by the two services. */
module Wrappers {
  datatype Option<T> = None | Some(value: T)

  /** The errors the weather pipeline can raise before it reaches the route handlers. */
  datatype Error =
    | CityNotFound        // the geocoding lookup returned no match
    | MalformedResponse   // the forecast feed had no first entry to read

  datatype Result<T> = Ok(value: T) | Err(error: Error)
}
