/** A parsed chat event: its type name and its decoded payload. */
module KickEvents {
  import opened PyValues

  /** The payload is annotated as a dict, but nothing checks that it is one:
      a `data` string that decodes to a list gives an event whose data is a list. */
  datatype KickEvent = KickEvent(event: string, data: Json)
}
