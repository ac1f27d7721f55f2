/** What the programs share: absent values, and how the outside world answers. */
module Environment {
  datatype Option<T> = None | Some(value: T)

  /**
    How one call to the outside (a provider, a database transaction, a remote
    key service) ends. `Refused` had no effect and reports an error; `LostReply`
    took effect and still reports an error.
   */
  datatype Reply = Clean | Refused | LostReply
}
