/** Values shared by the intake endpoint and the page that calls it. */
module Common {

  /** A value that may be absent: a missing header, an unset environment
      variable, an undefined JSON field. */
  datatype Option<+T> = None | Some(value: T)

  /** JavaScript truthiness of a value that is a string or absent:
      `undefined`, `null` and `""` are falsy, every other string is truthy. */
  predicate Truthy(s: Option<string>) {
    s.Some? && s.value != ""
  }

  /** One lead submission: the three fields both forms collect and the
      endpoint forwards. */
  datatype Lead = Lead(name: string, email: string, propertyAddress: string)

  /** The draft a form starts with and returns to after a successful send. */
  const EmptyLead := Lead("", "", "")
}
