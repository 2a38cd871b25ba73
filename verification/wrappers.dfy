/** Optional values: an absent reading, a missing badge, a lookup that found nothing. */
module Wrappers {
  datatype Option<+T> = None | Some(value: T)
}
