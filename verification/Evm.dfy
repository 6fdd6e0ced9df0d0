/** EVM addresses. */
module Evm {
  /** Hex spelling and letter case play no part; zero is the zero address. */
  type Address = nat
  const ZERO: Address := 0
}
