/** Vocabulary shared by the catalog, the counters and both carts. */
module Shop {

  /** A product name, the key of the catalog, of the purchase log and of a cart. */
  type Name = string

  datatype Option<T> = None | Some(value: T)
}
