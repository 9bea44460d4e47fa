/** The display rules of components/PostCard.tsx: what a card shows for a
    PostCardData and where each of its links leads. */
module PostCard {
  import opened Wrappers
  import opened Text
  import opened Types

  /** The card shows at most this many tags. */
  const MaxVisibleTags := 3

  datatype ThumbnailLink = ThumbnailLink(src: string, alt: string, href: string)

  datatype TagLink = TagLink(tag: string, href: string)

  /** The round avatar: the author's image, or the first character of the
      author's name (nothing when the name is empty). */
  datatype Avatar = AvatarImage(src: string, alt: string) | AvatarInitial(text: string)

  datatype CardView = CardView(
    thumbnail: Option<ThumbnailLink>,
    titleHref: string,
    title: string,
    description: string,
    tagBlock: Option<seq<TagLink>>,
    createdAt: string,
    commentsLabel: string,
    authorHref: string,
    avatar: Avatar,
    authorName: string,
    likesLabel: string)

  function PostHref(id: string): string {
    "/post/" + id
  }

  function TagHref(tag: string): string {
    "/tags/" + tag
  }

  function UserHref(username: string): string {
    "/user/" + username
  }

  /** `tags.slice(0, 3)`: the first three tags, in their order. */
  function VisibleTags(tags: seq<string>): (shown: seq<string>)
    ensures |shown| == if |tags| < MaxVisibleTags then |tags| else MaxVisibleTags
    ensures shown <= tags
  {
    if |tags| <= MaxVisibleTags then tags else tags[..MaxVisibleTags]
  }

  function AvatarOf(author: CardAuthor): (a: Avatar)
    ensures a.AvatarImage? <==> Truthy(author.avatar)
    ensures a.AvatarImage? ==> a.src == author.avatar.value && a.alt == author.name
    ensures a.AvatarInitial? ==> a.text <= author.name && |a.text| == (if author.name == "" then 0 else 1)
  {
    if Truthy(author.avatar) then AvatarImage(author.avatar.value, author.name)
    else AvatarInitial(if author.name == "" then "" else [author.name[0]])
  }

  function Render(post: PostCardData): (v: CardView)
    ensures v.thumbnail.Some? <==> Truthy(post.thumbnail)
    ensures v.thumbnail.Some? ==> v.thumbnail.value == ThumbnailLink(post.thumbnail.value, post.title, PostHref(post.id))
    ensures v.titleHref == PostHref(post.id) && v.title == post.title && v.description == post.description
    ensures v.tagBlock.Some? <==> |post.tags| > 0
    ensures v.tagBlock.Some? ==>
              |v.tagBlock.value| <= MaxVisibleTags &&
              |v.tagBlock.value| == |VisibleTags(post.tags)| &&
              forall i :: 0 <= i < |v.tagBlock.value| ==>
                v.tagBlock.value[i] == TagLink(post.tags[i], TagHref(post.tags[i]))
    ensures v.createdAt == post.createdAt
    ensures v.commentsLabel == NatToDecimal(post.comments) + "개의 댓글"
    ensures v.likesLabel == NatToDecimal(post.likes)
    ensures v.authorHref == UserHref(post.author.username) && v.authorName == post.author.name
    ensures v.avatar == AvatarOf(post.author)
  {
    var shown := VisibleTags(post.tags);
    CardView(
      thumbnail := if Truthy(post.thumbnail) then Some(ThumbnailLink(post.thumbnail.value, post.title, PostHref(post.id))) else None,
      titleHref := PostHref(post.id),
      title := post.title,
      description := post.description,
      tagBlock := if |post.tags| > 0 then Some(seq(|shown|, i requires 0 <= i < |shown| => TagLink(shown[i], TagHref(shown[i])))) else None,
      createdAt := post.createdAt,
      commentsLabel := NatToDecimal(post.comments) + "개의 댓글",
      authorHref := UserHref(post.author.username),
      avatar := AvatarOf(post.author),
      authorName := post.author.name,
      likesLabel := NatToDecimal(post.likes))
  }

  /** Cards of posts with different ids link to different pages. */
  lemma PostLinksDistinguishPosts(p: PostCardData, q: PostCardData)
    requires Render(p).titleHref == Render(q).titleHref
    ensures p.id == q.id
  {
    assert p.id == PostHref(p.id)[|"/post/"|..];
    assert q.id == PostHref(q.id)[|"/post/"|..];
  }
}
