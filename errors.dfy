/**
 * The failures the request layer raises before anything is sent.
 * `MissingStoreAddress` and `MissingCredentials` are the two
 * `RequestException`s of the package; `MissingIdentifier` stands for the
 * `AttributeError` raised when `update` or `delete` falls back to an id that
 * was never recorded.
 */
module Errors {

  datatype Error = MissingStoreAddress | MissingCredentials | MissingIdentifier
}
