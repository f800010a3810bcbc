/** `PostService`: creating, updating, deleting and reading posts, and the list
    operations, which all stack filters and paging on the one query builder the
    service holds. */
module PostServices {
  import opened Wrappers
  import opened Faults
  import opened Linq
  import opened Paging
  import opened Domain
  import opened Store
  import opened QueryBuilding
  import opened PostFilters

  datatype PostCreateDTO = PostCreateDTO(
    authorId: int, postTypeId: int, moodTypeId: int, title: string, text: string, isPublished: bool)

  datatype PostUpdateDTO = PostUpdateDTO(
    id: int, authorId: int, postTypeId: int, moodTypeId: int, title: string, text: string, isPublished: bool)

  /** The names read through the navigations are `None` where the navigation is null. */
  datatype PostViewDTO = PostViewDTO(
    id: int,
    title: string,
    text: string,
    author: Option<string>,
    postTypeName: Option<string>,
    moodTypeName: Option<string>,
    creationDate: int,
    publishDate: Option<int>,
    isPublished: bool,
    voteCount: int,
    commentCount: int)

  datatype PostListDTO = PostListDTO(
    id: int,
    title: string,
    author: string,
    authorId: int,
    postTypeName: string,
    postTypeId: int,
    moodTypeName: string,
    moodTypeId: int,
    creationDate: int,
    isPublished: bool)

  function PostId(p: Post): int
  {
    p.id
  }

  /** The related tables the post query's `Include` calls read, keyed by identity. */
  datatype Lookups = Lookups(users: map<int, User>, postTypes: map<int, PostType>, moodTypes: map<int, MoodType>)
  {
    ghost predicate Valid()
    {
      && (forall k | k in users :: users[k].id == k)
      && (forall k | k in postTypes :: postTypes[k].id == k)
      && (forall k | k in moodTypes :: moodTypes[k].id == k)
    }
  }

  /** `Include(p => p.Author).Include(p => p.PostType).Include(p => p.MoodType)`:
      each navigation is the related row its foreign key names, or null. */
  function Included(lk: Lookups, p: Post): (q: Post)
    ensures q.id == p.id && q.authorId == p.authorId && q.postTypeId == p.postTypeId
    ensures q.moodTypeId == p.moodTypeId && q.title == p.title && q.isPublished == p.isPublished
    ensures q.publishDate == p.publishDate && q.votes == p.votes
    ensures q.author.Some? <==> p.authorId in lk.users
    ensures q.postType.Some? <==> p.postTypeId in lk.postTypes
    ensures q.moodType.Some? <==> p.moodTypeId in lk.moodTypes
    ensures q.text == p.text && q.creationDate == p.creationDate && q.comments == p.comments
    ensures lk.Valid() ==> (q.author.Some? ==> q.author.value.id == p.authorId)
    ensures lk.Valid() ==> (q.postType.Some? ==> q.postType.value.id == p.postTypeId)
    ensures lk.Valid() ==> (q.moodType.Some? ==> q.moodType.value.id == p.moodTypeId)
  {
    p.(author := Get(lk.users, p.authorId),
       postType := Get(lk.postTypes, p.postTypeId),
       moodType := Get(lk.moodTypes, p.moodTypeId))
  }

  function IncludeNavigations(lk: Lookups): Post -> Post
  {
    p => Included(lk, p)
  }

  /** The query the service's builder starts from. */
  function BaseQuery(lk: Lookups): (q: Query<Post>)
    ensures forall rows :: q.Run(rows) == Select(rows, IncludeNavigations(lk))
  {
    var q := Query([Include(IncludeNavigations(lk))]);
    assert q.steps[..0] == [];
    q
  }

  /** The post `CreatePost` stores, with the identity the store assigns. It is
      published at `now` exactly when the DTO says so. */
  function NewPost(dto: PostCreateDTO, id: int, now: int): (p: Post)
    ensures p.publishDate.Some? <==> dto.isPublished
    ensures p.publishDate.Some? ==> p.publishDate.value == now
    ensures p.creationDate == now && p.isPublished == dto.isPublished && p.id == id
    ensures (p.authorId, p.postTypeId, p.moodTypeId, p.title, p.text)
         == (dto.authorId, dto.postTypeId, dto.moodTypeId, dto.title, dto.text)
  {
    Post(id, dto.authorId, None, dto.postTypeId, None, dto.moodTypeId, None, dto.title, dto.text,
         now, if dto.isPublished then Some(now) else None, dto.isPublished, None, None)
  }

  /** The post after `UpdatePost`: six fields take the DTO's values; the publish
      date is set to `now` only when the post becomes published without a date,
      and an existing date is never cleared or moved. */
  function UpdatedPost(p: Post, dto: PostUpdateDTO, now: int): (q: Post)
    ensures (q.authorId, q.postTypeId, q.moodTypeId, q.title, q.text, q.isPublished)
         == (dto.authorId, dto.postTypeId, dto.moodTypeId, dto.title, dto.text, dto.isPublished)
    ensures p.publishDate.Some? ==> q.publishDate == p.publishDate
    ensures p.publishDate.None? ==> (q.publishDate.Some? <==> dto.isPublished)
    ensures q.publishDate.Some? && p.publishDate.None? ==> q.publishDate.value == now
    ensures q.(authorId := p.authorId, postTypeId := p.postTypeId, moodTypeId := p.moodTypeId,
               title := p.title, text := p.text, isPublished := p.isPublished, publishDate := p.publishDate) == p
  {
    p.(authorId := dto.authorId, postTypeId := dto.postTypeId, moodTypeId := dto.moodTypeId,
       title := dto.title, text := dto.text, isPublished := dto.isPublished,
       publishDate := if dto.isPublished && p.publishDate.None? then Some(now) else p.publishDate)
  }

  function Count<E>(c: Option<seq<E>>): (n: nat)
    ensures c.None? ==> n == 0
    ensures c.Some? ==> n == |c.value|
  {
    match c
    case None => 0
    case Some(s) => |s|
  }

  /** The `PostViewDTO` of a post: names through null navigations are null, and
      a collection that is not loaded counts 0. */
  function ViewOf(p: Post): (v: PostViewDTO)
    ensures v.id == p.id && v.title == p.title && v.text == p.text
    ensures v.author.Some? <==> p.author.Some?
    ensures v.author.Some? ==> v.author.value == p.author.value.userName
    ensures v.postTypeName.Some? <==> p.postType.Some?
    ensures v.postTypeName.Some? ==> v.postTypeName.value == p.postType.value.description
    ensures v.moodTypeName.Some? <==> p.moodType.Some?
    ensures v.moodTypeName.Some? ==> v.moodTypeName.value == p.moodType.value.mood
    ensures v.creationDate == p.creationDate
    ensures v.voteCount == Count(p.votes) && v.commentCount == Count(p.comments)
    ensures v.publishDate == p.publishDate && v.isPublished == p.isPublished
  {
    PostViewDTO(
      p.id, p.title, p.text,
      if p.author.Some? then Some(p.author.value.userName) else None,
      if p.postType.Some? then Some(p.postType.value.description) else None,
      if p.moodType.Some? then Some(p.moodType.value.mood) else None,
      p.creationDate, p.publishDate, p.isPublished,
      Count(p.votes), Count(p.comments))
  }

  /** `GetPostById`: the first post with that identity, with its navigations,
      as a view; `None` (null) when there is none. */
  function PostById(rows: seq<Post>, lk: Lookups, id: int): (r: Option<PostViewDTO>)
    ensures r.None? <==> !HasKey(rows, PostId, id)
    ensures r.Some? ==> exists i | 0 <= i < |rows| ::
              rows[i].id == id && r.value == ViewOf(Included(lk, rows[i]))
              && forall j | 0 <= j < i :: rows[j].id != id
  {
    match IndexOfKey(rows, PostId, id)
    case None => None
    case Some(i) => Some(ViewOf(Included(lk, rows[i])))
  }

  predicate HasNavigations(p: Post)
  {
    p.author.Some? && p.postType.Some? && p.moodType.Some?
  }

  /** One row of `ConvertToDto`: reading through a null navigation faults. */
  function ToListDto(p: Post): (r: Result<PostListDTO, Fault>)
    ensures r.Success? <==> HasNavigations(p)
    ensures r.Failure? ==> r.error == NullReference
    ensures r.Success? ==>
              (r.value.id, r.value.authorId, r.value.postTypeId, r.value.moodTypeId, r.value.isPublished, r.value.title)
              == (p.id, p.authorId, p.postTypeId, p.moodTypeId, p.isPublished, p.title)
    ensures r.Success? ==> r.value.author == p.author.value.userName
    ensures r.Success? ==> r.value.postTypeName == p.postType.value.description
    ensures r.Success? ==> r.value.moodTypeName == p.moodType.value.mood
    ensures r.Success? ==> r.value.creationDate == p.creationDate
  {
    if !HasNavigations(p) then Failure(NullReference)
    else
      Success(PostListDTO(
        p.id, p.title, p.author.value.userName, p.authorId,
        p.postType.value.description, p.postTypeId,
        p.moodType.value.mood, p.moodTypeId,
        p.creationDate, p.isPublished))
  }

  /** `ConvertToDto`: one DTO per post, in order, or a fault if any post lacks a navigation. */
  function ConvertToDto(posts: seq<Post>): (r: Result<seq<PostListDTO>, Fault>)
    ensures r.Success? <==> forall p | p in posts :: HasNavigations(p)
    ensures r.Failure? ==> r.error == NullReference
    ensures r.Success? ==>
              |r.value| == |posts| && forall i | 0 <= i < |posts| :: ToListDto(posts[i]) == Success(r.value[i])
  {
    if posts == [] then Success([])
    else
      var rest := ConvertToDto(posts[1..]);
      assert forall p | p in posts :: p == posts[0] || p in posts[1..];
      match ToListDto(posts[0])
      case Failure(e) => Failure(e)
      case Success(d) =>
        match rest
        case Failure(e) => Failure(e)
        case Success(ds) =>
          assert forall i | 1 <= i < |posts| :: posts[i] == posts[1..][i - 1];
          Success([d] + ds)
  }

  /** What a list operation returns and leaves in the builder: the stack's
      filters added in order, then paging, then `Build` over the table's rows,
      then `ConvertToDto`. */
  function ListResult(b: BuilderState<Post>, stack: seq<PostFilter>, currentPage: int32, pageSize: int32, rows: seq<Post>)
    : (r: (BuilderState<Post>, Result<seq<PostListDTO>, Fault>))
  {
    var (b1, found) := Request(b, QueryFilters(stack), Some(WithPaging(currentPage, pageSize)), rows);
    match found
    case Failure(e) => (b1, Failure(e))
    case Success(posts) => (b1, ConvertToDto(posts))
  }

  /** The tail of a list operation once its filters are in: `AddPaging`, then
      `Build`, then `ConvertToDto`. A builder whose paging is already set refuses. */
  function Finish(b: BuilderState<Post>, currentPage: int32, pageSize: int32, rows: seq<Post>)
    : (r: (BuilderState<Post>, Result<seq<PostListDTO>, Fault>))
    ensures b.paging.Some? <==> r.1.Failure? && r.1.error != NullReference
    ensures b.paging.Some? ==> r.0 == b
    ensures b.paging.None? ==> r.0.paging == Some(WithPaging(currentPage, pageSize)) && r.0.filters == b.filters
  {
    var (b2, o) := b.AddPaging(currentPage, pageSize);
    if o.Fail? then (b2, Failure(o.error))
    else
      var (b3, found) := b2.Build(rows);
      (b3, ConvertToDto(found))
  }

  /** One filter call of a list operation: once the first `k` filters of the
      stack are in, the call yields the state after `k + 1`, and a refusal there
      is the whole operation's outcome. */
  lemma ListStep(b: BuilderState<Post>, stack: seq<PostFilter>, k: nat, current: BuilderState<Post>,
                  currentPage: int32, pageSize: int32, rows: seq<Post>)
    requires k < |stack| && AddFilters(b, QueryFilters(stack)[..k]) == (current, Pass)
    ensures var r := current.AddFilter(stack[k].AsQueryFilter());
            AddFilters(b, QueryFilters(stack)[..k + 1]) == r
            && (r.1.Fail? ==> ListResult(b, stack, currentPage, pageSize, rows) == (r.0, Failure(r.1.error)))
  {
    AddFiltersStep(b, QueryFilters(stack), k);
  }

  /** Once the whole stack is in, the list operation is `Finish` on the builder. */
  lemma ListDone(b: BuilderState<Post>, stack: seq<PostFilter>, current: BuilderState<Post>, currentPage: int32, pageSize: int32, rows: seq<Post>)
    requires AddFilters(b, QueryFilters(stack)[..|stack|]) == (current, Pass)
    ensures ListResult(b, stack, currentPage, pageSize, rows) == Finish(current, currentPage, pageSize, rows)
  {
    assert QueryFilters(stack)[..|stack|] == QueryFilters(stack);
  }

  /** The first list call on a service's builder: every DTO comes from a post of
      the table that, with its navigations loaded, passes every filter of the
      stack; there are at most `pageSize` of them; the only possible fault is a
      missing navigation; and the builder keeps the stack and the paging. */
  lemma {:induction false} FirstListCall(lk: Lookups, stack: seq<PostFilter>, currentPage: int32, pageSize: int32, rows: seq<Post>)
    requires forall i | 0 <= i < |stack| :: stack[i].IsWhere()
    requires forall i, j | 0 <= i < j < |stack| :: stack[i].Name() != stack[j].Name()
    ensures var (b, r) := ListResult(Fresh(BaseQuery(lk)), stack, currentPage, pageSize, rows);
            && b.filters == QueryFilters(stack)
            && b.paging == Some(WithPaging(currentPage, pageSize))
            && (r.Failure? ==> r.error == NullReference)
            && (r.Success? ==> |r.value| <= Max(0, pageSize))
            && (r.Success? ==> forall d | d in r.value :: exists p | p in rows ::
                  ToListDto(Included(lk, p)) == Success(d) && forall i | 0 <= i < |stack| :: stack[i].Selects(Included(lk, p)))
  {
    var fs := QueryFilters(stack);
    var page := WithPaging(currentPage, pageSize);
    var loaded := Select(rows, IncludeNavigations(lk));
    var matches := ApplyAll(fs, loaded);
    assert NamesDistinct(fs) by {
      forall i, j | 0 <= i < j < |fs| ensures fs[i].name != fs[j].name {
        assert fs[i].name == stack[i].Name() && fs[j].name == stack[j].Name();
      }
    }
    RequestOnFreshBuilder(BaseQuery(lk), fs, Some(page), rows);
    assert Request(Fresh(BaseQuery(lk)), fs, Some(page), rows).1 == Success(page.GetPaged(matches));
    PageBounded(page, matches);
    var (b, r) := ListResult(Fresh(BaseQuery(lk)), stack, currentPage, pageSize, rows);
    assert r == ConvertToDto(page.GetPaged(matches));
    if r.Success? {
      var shown := page.GetPaged(matches);
      forall d | d in r.value
        ensures exists p | p in rows ::
                  ToListDto(Included(lk, p)) == Success(d) && forall i | 0 <= i < |stack| :: stack[i].Selects(Included(lk, p))
      {
        var k :| 0 <= k < |r.value| && r.value[k] == d;
        assert shown[k] in matches;
        MatchComesFromTable(lk, stack, rows, shown[k]);
      }
    }
  }

  /** A post the filters keep is a post of the table with its navigations
      loaded, and it passes every filter. */
  lemma MatchComesFromTable(lk: Lookups, stack: seq<PostFilter>, rows: seq<Post>, x: Post)
    requires forall i | 0 <= i < |stack| :: stack[i].IsWhere()
    requires x in ApplyAll(QueryFilters(stack), Select(rows, IncludeNavigations(lk)))
    ensures exists p | p in rows :: x == Included(lk, p) && forall i | 0 <= i < |stack| :: stack[i].Selects(x)
  {
    var loaded := Select(rows, IncludeNavigations(lk));
    StackedWhereFilters(stack, loaded, x);
    var m :| 0 <= m < |loaded| && loaded[m] == x;
    assert rows[m] in rows && loaded[m] == Included(lk, rows[m]);
  }

  /** With the related tables consistent, the by-author listing yields only
      published posts by that author. */
  lemma PublishedByAuthorIsTheAuthors(lk: Lookups, authorId: int, currentPage: int32, pageSize: int32, rows: seq<Post>)
    requires lk.Valid()
    ensures var r := ListResult(Fresh(BaseQuery(lk)), [FilterByIsPublished(true), FilterByAuthor(authorId)], currentPage, pageSize, rows).1;
            r.Success? ==> forall d | d in r.value :: d.authorId == authorId && d.isPublished
  {
    var stack := [FilterByIsPublished(true), FilterByAuthor(authorId)];
    FirstListCall(lk, stack, currentPage, pageSize, rows);
    var r := ListResult(Fresh(BaseQuery(lk)), stack, currentPage, pageSize, rows).1;
    if r.Success? {
      forall d | d in r.value ensures d.authorId == authorId && d.isPublished {
        var p :| p in rows && ToListDto(Included(lk, p)) == Success(d)
                 && forall i | 0 <= i < |stack| :: stack[i].Selects(Included(lk, p));
        assert stack[0].Selects(Included(lk, p)) && stack[1].Selects(Included(lk, p));
      }
    }
  }

  /** When every match fits on the first page, a first list call returns all of
      them, in table order. */
  lemma FirstPageListsAllMatches(lk: Lookups, stack: seq<PostFilter>, pageSize: int32, rows: seq<Post>)
    requires forall i, j | 0 <= i < j < |stack| :: stack[i].Name() != stack[j].Name()
    requires pageSize as int >= |ApplyAll(QueryFilters(stack), Select(rows, IncludeNavigations(lk)))|
    ensures ListResult(Fresh(BaseQuery(lk)), stack, 1, pageSize, rows).1
         == ConvertToDto(ApplyAll(QueryFilters(stack), Select(rows, IncludeNavigations(lk))))
  {
    var fs := QueryFilters(stack);
    assert NamesDistinct(fs) by {
      forall i, j | 0 <= i < j < |fs| ensures fs[i].name != fs[j].name {
        assert fs[i].name == stack[i].Name() && fs[j].name == stack[j].Name();
      }
    }
    RequestOnFreshBuilder(BaseQuery(lk), fs, Some(WithPaging(1, pageSize)), rows);
    FirstPageCoversAll(pageSize, ApplyAll(fs, Select(rows, IncludeNavigations(lk))));
  }

  /** Once a list call has set the builder's paging, every later list call on
      that builder fails: the builder is meant for one query. */
  lemma SecondListCallFails(b: BuilderState<Post>, first: seq<PostFilter>, second: seq<PostFilter>,
                            cp1: int32, ps1: int32, cp2: int32, ps2: int32, rows1: seq<Post>, rows2: seq<Post>)
    requires ListResult(b, first, cp1, ps1, rows1).0.paging.Some?
    ensures ListResult(ListResult(b, first, cp1, ps1, rows1).0, second, cp2, ps2, rows2).1.Failure?
  {
    var b1 := ListResult(b, first, cp1, ps1, rows1).0;
    var (b2, o) := AddFilters(b1, QueryFilters(second));
    assert b2.paging.Some?;
  }

  /** A post just created is what `GetPostById` finds under its new identity:
      it has no votes or comments, and it has a publish date exactly when it
      was created published. */
  lemma CreatedPostIsFound(rows: seq<Post>, lk: Lookups, dto: PostCreateDTO, now: int)
    requires KeysIncreasing(rows, PostId)
    ensures var id := NextKey(rows, PostId);
            var v := PostById(rows + [NewPost(dto, id, now)], lk, id);
            && v == Some(ViewOf(Included(lk, NewPost(dto, id, now))))
            && v.value.voteCount == 0 && v.value.commentCount == 0
            && (v.value.publishDate.Some? <==> dto.isPublished)
  {
    var id := NextKey(rows, PostId);
    var post := NewPost(dto, id, now);
    AppendNextKeepsIncreasing(rows, PostId, post);
  }

  /** The service: the posts table, the related tables, and the shared builder. */
  class PostService
  {
    var posts: seq<Post>
    const lookups: Lookups
    const queryBuilder: QueryBuilder<Post>

    ghost predicate Valid()
      reads this
    {
      KeysIncreasing(posts, PostId) && lookups.Valid()
    }

    constructor (posts: seq<Post>, lookups: Lookups)
      requires KeysIncreasing(posts, PostId) && lookups.Valid()
      ensures Valid() && this.posts == posts && this.lookups == lookups
      ensures fresh(queryBuilder) && queryBuilder.State() == Fresh(BaseQuery(lookups))
    {
      this.posts := posts;
      this.lookups := lookups;
      this.queryBuilder := new QueryBuilder(BaseQuery(lookups));
    }

    /** `CreatePost`: appends the new post under the next identity. */
    method CreatePost(dto: PostCreateDTO, now: int)
      requires Valid()
      modifies this
      ensures Valid()
      ensures posts == old(posts) + [NewPost(dto, NextKey(old(posts), PostId), now)]
      ensures Find(posts, PostId, NextKey(old(posts), PostId)).Some?
    {
      var post := NewPost(dto, NextKey(posts, PostId), now);
      AppendNextKeepsIncreasing(posts, PostId, post);
      posts := posts + [post];
    }

    /** `UpdatePost`: a missing identity changes nothing; otherwise the stored
        post is replaced by its updated form and every other post stays. */
    method UpdatePost(dto: PostUpdateDTO, now: int)
      requires Valid()
      modifies this
      ensures Valid()
      ensures match IndexOfKey(old(posts), PostId, dto.id)
              case None => posts == old(posts)
              case Some(i) => posts == old(posts)[i := UpdatedPost(old(posts)[i], dto, now)]
      ensures forall id | id != dto.id :: Find(posts, PostId, id) == Find(old(posts), PostId, id)
    {
      match IndexOfKey(posts, PostId, dto.id)
      case None =>
      case Some(i) =>
        var updated := UpdatedPost(posts[i], dto, now);
        ReplaceKeepsIncreasing(posts, PostId, i, updated);
        posts := posts[i := updated];
    }

    /** `DeletePost`: removes the post; a missing identity makes `Remove(null)` fault. */
    method DeletePost(id: int) returns (r: Outcome<Fault>)
      requires Valid()
      modifies this
      ensures Valid()
      ensures r.Fail? <==> !HasKey(old(posts), PostId, id)
      ensures r.Fail? ==> r.error == ArgumentNull("entity") && posts == old(posts)
      ensures r.Pass? ==> posts == RemoveKey(old(posts), PostId, id)
      ensures !HasKey(posts, PostId, id)
    {
      RemoveKeepsIncreasing(posts, PostId, id);
      if IndexOfKey(posts, PostId, id).None? {
        return Fail(ArgumentNull("entity"));
      }
      posts := RemoveKey(posts, PostId, id);
      return Pass;
    }

    function GetPostById(id: int): (r: Option<PostViewDTO>)
      reads this
      ensures r == PostById(posts, lookups, id)
    {
      PostById(posts, lookups, id)
    }

    method GetAllPaged(currentPage: int32, pageSize: int32)
      returns (r: Result<seq<PostListDTO>, Fault>)
      modifies queryBuilder
      ensures (queryBuilder.State(), r) == ListResult(old(queryBuilder.State()), [], currentPage, pageSize, posts)
    {
      ghost var b0 := queryBuilder.State();
      var stack: seq<PostFilter> := [];
      assert QueryFilters(stack)[..0] == [];
      ListDone(b0, stack, queryBuilder.State(), currentPage, pageSize, posts);
      r := PageAndConvert(currentPage, pageSize);
    }

    method GetPublishedPaged(currentPage: int32, pageSize: int32)
      returns (r: Result<seq<PostListDTO>, Fault>)
      modifies queryBuilder
      ensures (queryBuilder.State(), r) == ListResult(old(queryBuilder.State()), [FilterByIsPublished(true)], currentPage, pageSize, posts)
    {
      ghost var b0 := queryBuilder.State();
      var stack: seq<PostFilter> := [FilterByIsPublished(true)];
      assert QueryFilters(stack)[..0] == [];
      :- AddStackFilter(b0, stack, 0, currentPage, pageSize);
      ListDone(b0, stack, queryBuilder.State(), currentPage, pageSize, posts);
      r := PageAndConvert(currentPage, pageSize);
    }

    method GetPublishedPagedByAuthor(authorId: int, currentPage: int32, pageSize: int32)
      returns (r: Result<seq<PostListDTO>, Fault>)
      modifies queryBuilder
      ensures (queryBuilder.State(), r) == ListResult(old(queryBuilder.State()), [FilterByIsPublished(true), FilterByAuthor(authorId)], currentPage, pageSize, posts)
    {
      ghost var b0 := queryBuilder.State();
      var stack: seq<PostFilter> := [FilterByIsPublished(true), FilterByAuthor(authorId)];
      assert QueryFilters(stack)[..0] == [];
      :- AddStackFilter(b0, stack, 0, currentPage, pageSize);
      :- AddStackFilter(b0, stack, 1, currentPage, pageSize);
      ListDone(b0, stack, queryBuilder.State(), currentPage, pageSize, posts);
      r := PageAndConvert(currentPage, pageSize);
    }

    method SearchPublishedPaged(keyword: string, currentPage: int32, pageSize: int32)
      returns (r: Result<seq<PostListDTO>, Fault>)
      modifies queryBuilder
      ensures (queryBuilder.State(), r) == ListResult(old(queryBuilder.State()), [FilterByIsPublished(true), FilterByKeyWord(keyword)], currentPage, pageSize, posts)
    {
      ghost var b0 := queryBuilder.State();
      var stack: seq<PostFilter> := [FilterByIsPublished(true), FilterByKeyWord(keyword)];
      assert QueryFilters(stack)[..0] == [];
      :- AddStackFilter(b0, stack, 0, currentPage, pageSize);
      :- AddStackFilter(b0, stack, 1, currentPage, pageSize);
      ListDone(b0, stack, queryBuilder.State(), currentPage, pageSize, posts);
      r := PageAndConvert(currentPage, pageSize);
    }

    method SearchPublishedPagedByAuthor(keyword: string, authorId: int, currentPage: int32, pageSize: int32)
      returns (r: Result<seq<PostListDTO>, Fault>)
      modifies queryBuilder
      ensures (queryBuilder.State(), r) == ListResult(old(queryBuilder.State()), [FilterByIsPublished(true), FilterByAuthor(authorId), FilterByKeyWord(keyword)], currentPage, pageSize, posts)
    {
      ghost var b0 := queryBuilder.State();
      var stack: seq<PostFilter> := [FilterByIsPublished(true), FilterByAuthor(authorId), FilterByKeyWord(keyword)];
      assert QueryFilters(stack)[..0] == [];
      :- AddStackFilter(b0, stack, 0, currentPage, pageSize);
      :- AddStackFilter(b0, stack, 1, currentPage, pageSize);
      :- AddStackFilter(b0, stack, 2, currentPage, pageSize);
      ListDone(b0, stack, queryBuilder.State(), currentPage, pageSize, posts);
      r := PageAndConvert(currentPage, pageSize);
    }

    method GetPublishedPagedByAuthorAndMoodTypeAndPostType(authorId: int, moodType: int, postType: int, currentPage: int32, pageSize: int32)
      returns (r: Result<seq<PostListDTO>, Fault>)
      modifies queryBuilder
      ensures (queryBuilder.State(), r) == ListResult(old(queryBuilder.State()), [FilterByIsPublished(true), FilterByAuthor(authorId), FilterByMoodType(moodType), FilterByPostType(postType)], currentPage, pageSize, posts)
    {
      ghost var b0 := queryBuilder.State();
      var stack: seq<PostFilter> := [FilterByIsPublished(true), FilterByAuthor(authorId), FilterByMoodType(moodType), FilterByPostType(postType)];
      assert QueryFilters(stack)[..0] == [];
      :- AddStackFilter(b0, stack, 0, currentPage, pageSize);
      :- AddStackFilter(b0, stack, 1, currentPage, pageSize);
      :- AddStackFilter(b0, stack, 2, currentPage, pageSize);
      :- AddStackFilter(b0, stack, 3, currentPage, pageSize);
      ListDone(b0, stack, queryBuilder.State(), currentPage, pageSize, posts);
      r := PageAndConvert(currentPage, pageSize);
    }

    method GetPublishedPagedByAuthorPostType(authorId: int, postType: int, currentPage: int32, pageSize: int32)
      returns (r: Result<seq<PostListDTO>, Fault>)
      modifies queryBuilder
      ensures (queryBuilder.State(), r) == ListResult(old(queryBuilder.State()), [FilterByIsPublished(true), FilterByAuthor(authorId), FilterByPostType(postType)], currentPage, pageSize, posts)
    {
      ghost var b0 := queryBuilder.State();
      var stack: seq<PostFilter> := [FilterByIsPublished(true), FilterByAuthor(authorId), FilterByPostType(postType)];
      assert QueryFilters(stack)[..0] == [];
      :- AddStackFilter(b0, stack, 0, currentPage, pageSize);
      :- AddStackFilter(b0, stack, 1, currentPage, pageSize);
      :- AddStackFilter(b0, stack, 2, currentPage, pageSize);
      ListDone(b0, stack, queryBuilder.State(), currentPage, pageSize, posts);
      r := PageAndConvert(currentPage, pageSize);
    }

    method GetPublishedPagedByAuthorAndMood(authorId: int, moodType: int, currentPage: int32, pageSize: int32)
      returns (r: Result<seq<PostListDTO>, Fault>)
      modifies queryBuilder
      ensures (queryBuilder.State(), r) == ListResult(old(queryBuilder.State()), [FilterByIsPublished(true), FilterByAuthor(authorId), FilterByMoodType(moodType)], currentPage, pageSize, posts)
    {
      ghost var b0 := queryBuilder.State();
      var stack: seq<PostFilter> := [FilterByIsPublished(true), FilterByAuthor(authorId), FilterByMoodType(moodType)];
      assert QueryFilters(stack)[..0] == [];
      :- AddStackFilter(b0, stack, 0, currentPage, pageSize);
      :- AddStackFilter(b0, stack, 1, currentPage, pageSize);
      :- AddStackFilter(b0, stack, 2, currentPage, pageSize);
      ListDone(b0, stack, queryBuilder.State(), currentPage, pageSize, posts);
      r := PageAndConvert(currentPage, pageSize);
    }

    method SearchPublishedPagedByAuthorAndMoodTypeAndPostType(keyword: string, authorId: int, moodType: int, postType: int, currentPage: int32, pageSize: int32)
      returns (r: Result<seq<PostListDTO>, Fault>)
      modifies queryBuilder
      ensures (queryBuilder.State(), r) == ListResult(old(queryBuilder.State()), [FilterByIsPublished(true), FilterByAuthor(authorId), FilterByMoodType(moodType), FilterByPostType(postType), FilterByKeyWord(keyword)], currentPage, pageSize, posts)
    {
      ghost var b0 := queryBuilder.State();
      var stack: seq<PostFilter> := [FilterByIsPublished(true), FilterByAuthor(authorId), FilterByMoodType(moodType), FilterByPostType(postType), FilterByKeyWord(keyword)];
      assert QueryFilters(stack)[..0] == [];
      :- AddStackFilter(b0, stack, 0, currentPage, pageSize);
      :- AddStackFilter(b0, stack, 1, currentPage, pageSize);
      :- AddStackFilter(b0, stack, 2, currentPage, pageSize);
      :- AddStackFilter(b0, stack, 3, currentPage, pageSize);
      :- AddStackFilter(b0, stack, 4, currentPage, pageSize);
      ListDone(b0, stack, queryBuilder.State(), currentPage, pageSize, posts);
      r := PageAndConvert(currentPage, pageSize);
    }

    method SearchPublishedPagedByDateRangeAndKeyword(startDate: int, endDate: int, keyword: string, currentPage: int32, pageSize: int32)
      returns (r: Result<seq<PostListDTO>, Fault>)
      modifies queryBuilder
      ensures (queryBuilder.State(), r) == ListResult(old(queryBuilder.State()), [FilterByIsPublished(true), FilterByDateRange(startDate, endDate), FilterByKeyWord(keyword)], currentPage, pageSize, posts)
    {
      ghost var b0 := queryBuilder.State();
      var stack: seq<PostFilter> := [FilterByIsPublished(true), FilterByDateRange(startDate, endDate), FilterByKeyWord(keyword)];
      assert QueryFilters(stack)[..0] == [];
      :- AddStackFilter(b0, stack, 0, currentPage, pageSize);
      :- AddStackFilter(b0, stack, 1, currentPage, pageSize);
      :- AddStackFilter(b0, stack, 2, currentPage, pageSize);
      ListDone(b0, stack, queryBuilder.State(), currentPage, pageSize, posts);
      r := PageAndConvert(currentPage, pageSize);
    }
    /** One `AddFilter` call of a list operation, with what it means for the
        whole operation: a refusal is the operation's outcome. */
    method AddStackFilter(ghost b0: BuilderState<Post>, stack: seq<PostFilter>, k: nat,
                          ghost currentPage: int32, ghost pageSize: int32) returns (o: Outcome<Fault>)
      requires k < |stack|
      requires AddFilters(b0, QueryFilters(stack)[..k]) == (queryBuilder.State(), Pass)
      modifies queryBuilder
      ensures AddFilters(b0, QueryFilters(stack)[..k + 1]) == (queryBuilder.State(), o)
      ensures o.Fail? ==> ListResult(b0, stack, currentPage, pageSize, posts) == (queryBuilder.State(), Failure(o.error))
    {
      ListStep(b0, stack, k, queryBuilder.State(), currentPage, pageSize, posts);
      o := queryBuilder.AddFilter(stack[k].AsQueryFilter());
    }

    /** The end every list operation shares: `AddPaging`, `Build` over the
        current table, `ConvertToDto`. */
    method PageAndConvert(currentPage: int32, pageSize: int32) returns (r: Result<seq<PostListDTO>, Fault>)
      modifies queryBuilder
      ensures (queryBuilder.State(), r) == Finish(old(queryBuilder.State()), currentPage, pageSize, posts)
    {
      var paged := queryBuilder.AddPaging(currentPage, pageSize);
      if paged.Fail? {
        return Failure(paged.error);
      }
      var result := queryBuilder.Build(posts);
      r := ConvertToDto(result);
    }
  }
}
