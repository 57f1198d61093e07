/** Queries: the fixed line that asks the module for a parameter's current value. */
module Query {
  import opened Ascii

  /** Size of the caller's buffer for a transmission-power query. */
  const TransmissionPowerQuerySize: nat := 7

  /** The line that asks for the transmission power. */
  function TransmissionPowerQuery(): (q: string)
    ensures IsAscii(q) && IsAtLine(q) && |q| == TransmissionPowerQuerySize
    ensures q[3..5] == "RP"
  {
    "AT+RP\r\n"
  }

  /**
   * `make_query` for the transmission power: overwrites the whole buffer with
   * the query. It takes no power value, and what the buffer held before does
   * not matter, so a second call leaves the buffer as the first one did.
   */
  method MakeTransmissionPowerQuery(buffer: array<U8>)
    requires buffer.Length == TransmissionPowerQuerySize
    modifies buffer
    ensures buffer[..] == Bytes(TransmissionPowerQuery())
  {
    var query := Bytes(TransmissionPowerQuery());
    CopyInto(buffer, 0, query);
    assert forall k | 0 <= k < buffer.Length :: buffer[k] == query[k];
  }
}
