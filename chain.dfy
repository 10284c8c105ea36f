/**
 * The data fetched from the chain, as the report sees it once the
 * JSON-RPC layer has handed it over.
 */
module Chain {
  import opened Wrappers

  /** An account address as the RPC returns it: a hex string. */
  type Address = string

  /**
   * A transaction of a fetched block. `to` is None for a contract
   * creation; `value` is the transferred amount after `parseInt`.
   */
  datatype Transaction = Transaction(from: Option<Address>, to: Option<Address>, value: int)

  /** A block fetched with its full transaction objects. */
  datatype Block = Block(number: int, transactions: seq<Transaction>)

  /** JavaScript truthiness of an address: null, undefined and "" are falsy. */
  predicate Truthy(address: Option<Address>)
  {
    address.Some? && address.value != ""
  }

  /** What `getCode` answers for an account that holds no code. */
  const NoCode: string := "0x"
}
