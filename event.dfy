// The kinds of event that the toolkit's polymorphic event root reports.

module Events {
  /** The discriminant a consumer switches on before narrowing an event to its
      concrete shape. The click kind is the one this model needs by name; the
      toolkit's other kinds are declared elsewhere and stand here, unnamed, as
      OtherKind with a code that tells them apart. */
  datatype EventType = EVENT_CLICK | OtherKind(code: nat)
}
