/** Hash-linked records: what reality_git/validation.py looks at in a commit and in an action event alike. */
module Links {
  import opened Basics

  /** The stored link, the hashed content and the stored hash. */
  datatype Link<C> = Link(previous: Option<string>, content: C, hash: string)

  /** The record names the hash before it and carries the hash of its own content. */
  predicate Fits<C>(hash: C -> string, link: Link<C>, previous: Option<string>) {
    link.previous == previous && link.hash == hash(link.content)
  }
}
