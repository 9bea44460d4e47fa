/** The API payload shapes of lib/types.ts that the modelled code touches,
    the card view-model derived from a post, and the Korean long-date
    rendering. */
module Types {
  import opened Wrappers
  import opened Text

  /** The author projection embedded in a post. */
  datatype AuthorInfo = AuthorInfo(id: nat, username: string, name: string, avatar: Option<string>)

  datatype SeriesInfo = SeriesInfo(id: nat, title: string)

  /** A post as the API returns it; `createdAt` is an ISO-8601 timestamp. */
  datatype Post = Post(
    id: nat,
    title: string,
    slug: string,
    content: string,
    description: Option<string>,
    thumbnail: Option<string>,
    viewCount: nat,
    isPublic: bool,
    likeCount: nat,
    commentCount: nat,
    createdAt: string,
    updatedAt: string,
    author: AuthorInfo,
    tags: seq<string>,
    series: Option<SeriesInfo>)

  /** The common envelope of every API response. */
  datatype ApiResponse<T> = ApiResponse(success: bool, message: string, data: T, timestamp: string, path: string)

  datatype UserInfo = UserInfo(id: nat, username: string, name: string, avatar: Option<string>)

  datatype LoginRequest = LoginRequest(email: string, password: string)

  datatype RegisterRequest = RegisterRequest(username: string, name: string, email: string, password: string)

  datatype JwtResponse = JwtResponse(accessToken: string, refreshToken: string, expiresIn: int, user: UserInfo)

  /** The body of a create or update; absent optional fields are left out
      of the JSON. */
  datatype PostRequest = PostRequest(
    title: string,
    content: string,
    description: Option<string>,
    thumbnail: Option<string>,
    isPublic: Option<bool>,
    tags: Option<seq<string>>,
    seriesId: Option<nat>)

  datatype CommentRequest = CommentRequest(content: string, parentId: Option<nat>)

  datatype CardAuthor =CardAuthor(name: string, avatar: Option<string>, username: string)

  /** The view-model a post card renders. */
  datatype PostCardData = PostCardData(
    id: string,
    title: string,
    description: string,
    thumbnail: Option<string>,
    author: CardAuthor,
    createdAt: string,
    tags: seq<string>,
    likes: nat,
    comments: nat)

  /** What `new Date(s)` yields in the local time zone: the full year, the
      zero-based month and the day of the month, or an invalid date. */
  datatype CalendarDate = LocalDate(year: int, month0: nat, day: nat) | InvalidDate

  /** `${year}년 ${month}월 ${day}일` with a one-based month and no zero
      padding; every field of an invalid date prints as NaN. */
  function FormatDate(date: CalendarDate): (s: string)
    ensures |s| > 0 && s[|s| - 1] == '일'
    ensures date.LocalDate? ==> StartsWith(s, IntToDecimal(date.year) + "년 ")
    ensures date.InvalidDate? ==> s == "NaN년 NaN월 NaN일"
  {
    match date
    case LocalDate(year, month0, day) =>
      IntToDecimal(year) + ("년 " + (NatToDecimal(month0 + 1) + ("월 " + (NatToDecimal(day) + "일"))))
    case InvalidDate => "NaN년 NaN월 NaN일"
  }

  lemma FormatDateExample()
    ensures FormatDate(LocalDate(2024, 0, 15)) == "2024년 1월 15일"
  {
  }

  /** Two different dates never print alike, and no valid date prints like
      an invalid one: the formatted text identifies the date. */
  lemma FormatDateInjective(a: CalendarDate, b: CalendarDate)
    requires FormatDate(a) == FormatDate(b)
    ensures a == b
  {
    if a.LocalDate? && b.LocalDate? {
      LocalDatesInjective(a, b);
    } else if a.LocalDate? {
      FormatDateStart(a);
      assert false;
    } else if b.LocalDate? {
      FormatDateStart(b);
      assert false;
    }
  }

  lemma LocalDatesInjective(a: CalendarDate, b: CalendarDate)
    requires a.LocalDate? && b.LocalDate? && FormatDate(a) == FormatDate(b)
    ensures a == b
  {
    var tail1 := NatToDecimal(a.day) + "일";
    var tail2 := NatToDecimal(b.day) + "일";
    var mid1 := NatToDecimal(a.month0 + 1) + ("월 " + tail1);
    var mid2 := NatToDecimal(b.month0 + 1) + ("월 " + tail2);
    IntToDecimalFollowedBy(a.year, b.year, "년 " + mid1, "년 " + mid2);
    assert mid1 == ("년 " + mid1)[2..];
    assert mid2 == ("년 " + mid2)[2..];
    NatToDecimalFollowedBy(a.month0 + 1, b.month0 + 1, "월 " + tail1, "월 " + tail2);
    assert tail1 == ("월 " + tail1)[2..];
    assert tail2 == ("월 " + tail2)[2..];
    NatToDecimalFollowedBy(a.day, b.day, "일", "일");
  }

  /** A formatted valid date starts with a digit or a minus sign. */
  lemma FormatDateStart(d: CalendarDate)
    requires d.LocalDate?
    ensures FormatDate(d) != [] && FormatDate(d)[0] != 'N'
  {
  }

  /** Post -> PostCardData. `localDate` stands for `new Date(...)` read in
      the local time zone, which the model does not compute. */
  function ToPostCardData(post: Post, localDate: string -> CalendarDate): (card: PostCardData)
    ensures IsCanonicalDecimal(card.id) && ParseDecimal(card.id) == post.id
    ensures card.title == post.title && card.tags == post.tags && card.thumbnail == post.thumbnail
    ensures card.likes == post.likeCount && card.comments == post.commentCount
    ensures card.description == (if post.description.Some? then post.description.value else "")
    ensures card.author.name == post.author.name
    ensures card.author.avatar == post.author.avatar
    ensures card.author.username == post.author.username
    ensures card.createdAt == FormatDate(localDate(post.createdAt))
  {
    ParseNatToDecimal(post.id);
    PostCardData(
      id := NatToDecimal(post.id),
      title := post.title,
      description := if Truthy(post.description) then post.description.value else "",
      thumbnail := post.thumbnail,
      author := CardAuthor(name := post.author.name, avatar := post.author.avatar, username := post.author.username),
      createdAt := FormatDate(localDate(post.createdAt)),
      tags := post.tags,
      likes := post.likeCount,
      comments := post.commentCount)
  }

  /** Cards of different posts carry different ids, so the id is a sound
      list key and link target. */
  lemma CardIdsDistinguishPosts(p: Post, q: Post, localDate: string -> CalendarDate)
    requires ToPostCardData(p, localDate).id == ToPostCardData(q, localDate).id
    ensures p.id == q.id
  {
  }
}
