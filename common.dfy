/** Storage primitives shared by the three intent contracts. */
module Common {

  /** An account address. `Address::ZERO` is 0; every other value names an account. */
  type Address = nat

  const ZeroAddress: Address := 0

  /** What a contract entry point returns: a value, or one of the contract's errors.
      An error return reverts the call, so a failing call leaves storage as it was. */
  datatype Result<T, E> = Ok(value: T) | Err(error: E)

  /** A read of a storage map: a key that was never written reads as the zero value. */
  function Read<K, V>(m: map<K, V>, key: K, zero: V): V
  {
    if key in m then m[key] else zero
  }
}
