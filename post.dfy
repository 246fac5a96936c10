/** The post record the API returns and the feed renders, keyed by `id`. */
module PostModel {

  /** Kotlin's `Int`: a 32-bit signed integer. */
  type Int32 = x: int | -0x8000_0000 <= x < 0x8000_0000

  const DefaultUsername: string := "Devotional Post Bot"

  /** A post; its `id` is the key the feed list renders it under. It has no behaviour of its own. */
  datatype Post = Post(
    id: string,
    imageUrl: string,
    username: string,
    timeAgo: string,
    caption: string,
    likes: Int32,
    comments: Int32,
    avatarUrl: string)
}
