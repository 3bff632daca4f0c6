/** Shared records of the password-manager client: the cached user and
    credential records, translated messages and the JavaScript truthiness
    tests the components apply to optional values. */
module Common {

  datatype Option<+T> = None | Some(value: T)

  /** The user record cached in the browser database. `role` is kept as the
      string the components compare against ("free", "semi-premium",
      "premium"); any other string is possible and is treated as unrestricted. */
  datatype User = User(
    id: nat,
    name: string,
    phoneNumber: string,
    email: string,
    recoveryEmail: string,
    antiPhishingSecret: string,
    role: string,
    slotsAvailable: int)

  /** The email sub-record of a credential; its fields are not part of this
      model, so it is carried as an opaque payload. */
  datatype EmailCredential = EmailCredential(payload: string)

  /** A stored credential: the record the database keys by `id`. */
  datatype Credential = Credential(
    id: nat,
    userId: nat,
    companyName: string,
    email: Option<EmailCredential>)

  /** A display text: either the empty string or the result of a translation
      lookup by (category, locale, index), kept symbolic. */
  datatype Message = Blank | Translated(category: string, lng: string, index: nat)

  /** JavaScript truthiness of an optional string: absent and "" are falsy. */
  predicate Truthy(s: Option<string>)
  {
    s.Some? && s.value != ""
  }
}
