/** The logrus types the hook receives: severity levels, field values and entries. */
module Logrus {

  /** logrus levels, from the most severe down. */
  datatype Level = PanicLevel | FatalLevel | ErrorLevel | WarnLevel | InfoLevel | DebugLevel | TraceLevel

  /** A `time.Time`; its contents matter only through the renderings applied to it. */
  type Instant

  /** Any other Go value: its dynamic type and contents are not modelled. */
  type Object

  /** A field value, tagged with the dynamic-type facts the serialiser tests. */
  datatype Value =
    | TimeVal(t: Instant)        // a time.Time
    | StringerVal(obj: Object)   // any other value whose type has a String() method
    | OtherVal(obj: Object)      // any value of neither kind

  /** A log entry as logrus hands it to a hook; read-only here. */
  datatype Entry = Entry(level: Level, message: string, fields: map<string, Value>, time: Instant)
}
