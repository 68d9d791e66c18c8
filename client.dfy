/** Values the browser hands to the client components. */
module Client {

  /** A `Date`; the model treats instants as opaque numbers. */
  type Instant = int

  /** A browser `File`: its name and its declared MIME type. */
  datatype FileRef = FileRef(name: string, mimeType: string)

  /** The `"user" | "assistant"` role of a chat message. */
  datatype Role = User | Assistant
}
