/** The values that flow between the data store, the alert rules and the alert manager. */
module Records {

  /** A reading handed to an alert rule or factory: its vital type and its value, already
      parsed from the record's text into a number. A null reading is `None` where it can occur. */
  datatype Vitals = Vitals(vitalType: string, value: real)

  /** A stored measurement of one patient: value, record type and time in milliseconds. */
  datatype PatientRecord = PatientRecord(
    patientId: int,
    measurementValue: real,
    recordType: string,
    timestamp: int)

  /** One argument of a `String.format` call. */
  datatype FormatArg = RealArg(r: real) | IntArg(i: int) | TextArg(s: string)

  /** A description is kept as its format template and arguments; rendering the numbers
      as text is not modelled. */
  datatype Description = Formatted(template: string, args: seq<FormatArg>)

  /** An alert: whose it is, the reading behind it, when it was raised, which kind of
      condition it reports, and its description. Alerts are compared as values. */
  datatype Alert = Alert(
    patientId: int,
    vitals: Vitals,
    timestamp: int,
    alertType: string,
    description: Description)
}
