/** Values shared by the listing page, the detail page and the host model. */
module Common {

  datatype Option<T> = None | Some(value: T) {
    function GetOr(default: T): T {
      match this
      case Some(v) => v
      case None => default
    }
  }

  datatype Result<T> = Success(value: T) | Failure(message: string)

  /** What a `fetch` hands back: the `ok` flag and the already decoded body. */
  datatype Response<T> = Response(ok: bool, body: T)

  /** One record of the post index `posts.json`; `tags` may be absent. */
  datatype Post = Post(
    slug: string,
    title: string,
    category: string,
    date: string,
    excerpt: string,
    tags: Option<seq<string>>)
}
