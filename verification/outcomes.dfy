/** Value-or-nothing and value-or-error wrappers, the model's counterparts of
    `std::optional` and `std::expected`. */
module Outcomes {

  /** `std::optional<T>`: `None` is `std::nullopt`. */
  datatype Option<+T> = None | Some(value: T)

  /** `std::expected<T, E>`: `Unexpected` is the `std::unexpected(error)` branch. */
  datatype Expected<+T, +E> = Ok(value: T) | Unexpected(error: E)
}
