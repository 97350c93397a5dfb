/** The records the service keeps: plans and the amounts written in them. */
module Records {

  datatype Option<+T> = None | Some(value: T)

  datatype Result<+T, +E> = Ok(value: T) | Err(error: E)

  /** Nanoseconds since 1970-01-01T00:00:00Z, on an unbounded line. */
  type Instant = int

  /** A base-10 amount field: a number, or a string that does not parse as one. */
  datatype Decimal = Malformed | Atomic(value: int)

  datatype Plan = Plan(id: string, price: Decimal, periodCount: nat, periodUnit: string, active: bool)
}
