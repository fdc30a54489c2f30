/** Where the simulators send their readings: every call is kept as an entry, in order. */
module Outputs {

  datatype OutputEntry = OutputEntry(patientId: int, timestamp: int, kind: string, data: string)

  class OutputLog {
    var entries: seq<OutputEntry>

    constructor()
      ensures entries == []
    {
      entries := [];
    }

    method Output(patientId: int, timestamp: int, kind: string, data: string)
      modifies this`entries
      ensures entries == old(entries) + [OutputEntry(patientId, timestamp, kind, data)]
    {
      entries := entries + [OutputEntry(patientId, timestamp, kind, data)];
    }
  }
}
