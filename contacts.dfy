/** The contact record shared by the client and the server. */
module Contacts {
  /** Identifiers are the strings the store assigns: MongoDB ObjectId strings. */
  type Id = string

  /** A phonebook entry as it travels in JSON: `{ id, name, number }`. */
  datatype Person = Person(id: Id, name: string, number: string)
}
