/** What travels between the coordinator and its worker processes. */
module Protocol {
  import opened Values

  /** A `(command, data)` pair sent down a worker's pipe. */
  datatype Msg = Msg(command: string, data: Value)

  /** An exception as `sys.exc_info()[:2]` captures it: its type name and its value. */
  datatype Exc = Exc(typeName: string, message: string)

  /** One entry of the shared error queue: `(index, exctype, value)`. */
  datatype ErrorRecord = ErrorRecord(index: nat, exc: Exc)
}
