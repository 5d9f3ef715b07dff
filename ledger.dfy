/** The records of the inventory ledger, shared by the browser report
    (code.jsx) and the HTTP store (script.js). */
module Ledger {

  /** A value that may be unset. `None` stands for a JavaScript field that is
      falsy as a string or date: missing, `null`, `undefined` or `""`; a value
      read from a form or a request body is `Some(s)` only when `s` is non-empty. */
  datatype Option<T> = None | Some(value: T)

  /** The three roles, `ROLES` in code.jsx and the role strings of script.js. */
  datatype Role = Admin | BaseCommander | LogisticsOfficer

  /** A calendar date `YYYY-MM-DD`, written as the integer `YYYYMMDD`. For
      fixed-width ISO dates, integer order is the string order that the
      source's `<` and `<=` use, and integer equality is string equality. */
  type Date = int

  /** A base name such as "Base Alpha". */
  type Base = string

  /** An equipment type such as "Weapons"; the source's field is `type`. */
  type Equipment = string

  /** The two assignment statuses that the reports look at. */
  const Assigned: string := "Assigned"
  const Expended: string := "Expended"

  datatype Purchase = Purchase(id: int, date: Date, base: Base, kind: Equipment, quantity: int)

  datatype Transfer = Transfer(id: int, date: Date, fromBase: Base, toBase: Base, kind: Equipment, quantity: int)

  /** `status` is a free string: the server stores whatever non-empty status it
      is sent, and only "Assigned" and "Expended" are counted by the reports. */
  datatype Assignment = Assignment(id: int, date: Date, base: Base, kind: Equipment, quantity: int,
                                   personnel: Option<string>, status: string)

  function PurchaseQty(p: Purchase): int { p.quantity }
  function TransferQty(t: Transfer): int { t.quantity }
  function AssignmentQty(a: Assignment): int { a.quantity }
}
