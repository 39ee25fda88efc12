/**
 * The server's records as the front end sees them. Only the fields the modelled
 * code reads are kept; everything else a record carries travels inside them unread.
 */
module Domain {

  /** A recipe summary: `_id`, `title`, `cuisine`. */
  datatype Recipe = Recipe(id: string, title: string, cuisine: string)

  /** The signed-in user as the auth endpoints return it. */
  datatype User = User(username: string, email: string)
}
