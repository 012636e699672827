/** Users as the unseen store hands them to the route handlers. */
module Accounts {
  import opened Json

  /** An internal user record: `requireUser` and `getUserInternal` return
      these; `friends` is the user's friend-id set in insertion order. */
  datatype UserRecord = UserRecord(id: string, name: string, friends: seq<string>)

  /** The object `sanitizeUser` makes of a user (its fields are the unseen
      store's business); it is always an object, so always truthy. */
  type Profile = map<string, Value>
}
