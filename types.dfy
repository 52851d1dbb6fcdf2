/** The values the post card and the post actions exchange with the server. */
module Types {

  datatype Option<+T> = None | Some(value: T)

  /** The author of a like, as the server denormalises it for display. */
  datatype Author = Author(userName: string)

  /** One like on a post; only the liker's user name is displayed. */
  datatype Like = Like(user: Author)

  /** A comment, opaque to the card: it is only handed on to the comment list. */
  datatype Comment = Comment(id: string)

  /**
   * A post as the server returns it. Body, image and author are only displayed,
   * so the model keeps the fields the card's logic reads: the id, which every
   * gateway call is addressed to, the likes and the comments.
   */
  datatype Post = Post(id: string, likes: seq<Like>, comments: seq<Comment>)
}
