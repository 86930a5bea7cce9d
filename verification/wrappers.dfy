/** Optional values, standing in for the C# nullable references the hubs use. */
module Wrappers {

  datatype Option<+T> = None | Some(value: T)
}
