/** The `IQueryFilter<Post>` classes. Each but `FilterTopMostVoted` is one
    `Where` over the posts; `FilterTopMostVoted` orders by "has a vote" and takes
    a prefix. */
module PostFilters {
  import opened Wrappers
  import opened Linq
  import opened Text
  import opened Domain
  import opened QueryBuilding

  /** `post.Votes.Count >= 1`; a collection that is not there has no votes. */
  predicate HasVotes(p: Post)
  {
    p.votes.Some? && |p.votes.value| >= 1
  }

  datatype PostFilter =
    | FilterByIsPublished(isPublished: bool)
    | FilterByAuthor(authorId: int)
    | FilterByMoodType(moodTypeId: int)
    | FilterByPostType(postTypeId: int)
    | FilterByDateRange(startDate: int, endDate: int)
    | FilterByKeyWord(keyword: string)
    | FilterTopMostVoted(topCount: int)
  {
    /** Every kind but `FilterTopMostVoted` is a single `Where`. */
    predicate IsWhere()
    {
      !FilterTopMostVoted?
    }

    /** The row test of a `Where` filter. `Author.Id` of a post without an
        author is a failed join, so such a post never matches; the lifted
        comparisons on a null `PublishDate` are false. */
    predicate Selects(p: Post)
    {
      match this
      case FilterByIsPublished(b) => p.isPublished == b
      case FilterByAuthor(a) => p.author.Some? && p.author.value.id == a
      case FilterByMoodType(m) => p.moodTypeId == m
      case FilterByPostType(t) => p.postTypeId == t
      case FilterByDateRange(start, end) =>
        p.publishDate.Some? && start <= p.publishDate.value && p.publishDate.value <= end
      case FilterByKeyWord(k) => Contains(p.title, k)
      case FilterTopMostVoted(_) => true
    }

    function Predicate(): Post -> bool
    {
      p => Selects(p)
    }

    /** `ApplyFilter`. A `Where` filter keeps exactly the input posts its row
        test accepts; `FilterTopMostVoted` keeps at most `topCount` input posts. */
    function Apply(posts: seq<Post>): (r: seq<Post>)
      ensures IsWhere() ==> forall p | p in r :: p in posts && Selects(p)
      ensures IsWhere() ==> forall p | p in posts && Selects(p) :: p in r
      ensures FilterTopMostVoted? ==> |r| <= Max(0, topCount) && multiset(r) <= multiset(posts)
    {
      if FilterTopMostVoted? then
        var ordered := OrderByDescending(posts, HasVotes);
        OrderByDescendingIsStableSort(posts, HasVotes);
        TakeIsPrefix(ordered, topCount);
        Take(ordered, topCount)
      else
        var r := Where(posts, Predicate());
        forall p ensures p in r <==> p in posts && Selects(p) {
          WhereMembership(posts, Predicate(), p);
        }
        r
    }

    /** The class name, by which the builder tells filter kinds apart. */
    function Name(): (n: string)
      ensures |n| > 0
    {
      match this
      case FilterByIsPublished(_) => "FilterByIsPublished"
      case FilterByAuthor(_) => "FilterByAuthor"
      case FilterByMoodType(_) => "FilterByMoodType"
      case FilterByPostType(_) => "FilterByPostType"
      case FilterByDateRange(_, _) => "FilterByDateRange"
      case FilterByKeyWord(_) => "FilterByKeyWord"
      case FilterTopMostVoted(_) => "FilterTopMostVoted"
    }

    function AsQueryFilter(): (f: QueryFilter<Post>)
      ensures f.name == Name()
    {
      QueryFilter(Name(), posts => Apply(posts))
    }
  }

  /** Two filters have the same class name exactly when they are of the same
      kind, whatever their parameters. */
  lemma NameIsKind(f: PostFilter, g: PostFilter)
    ensures f.Name() == g.Name() <==>
      ((f.FilterByIsPublished? && g.FilterByIsPublished?) || (f.FilterByAuthor? && g.FilterByAuthor?) ||
       (f.FilterByMoodType? && g.FilterByMoodType?) || (f.FilterByPostType? && g.FilterByPostType?) ||
       (f.FilterByDateRange? && g.FilterByDateRange?) || (f.FilterByKeyWord? && g.FilterByKeyWord?) ||
       (f.FilterTopMostVoted? && g.FilterTopMostVoted?))
  {
  }

  /** A `Where` filter keeps its survivors in input order. */
  lemma WhereFilterKeepsOrder(f: PostFilter, posts: seq<Post>)
    requires f.IsWhere()
    ensures IsSubsequence(f.Apply(posts), posts)
  {
    WhereIsSubsequence(posts, f.Predicate());
  }

  /** A `Where` filter never duplicates a post: each survivor occurs as often as in the input. */
  lemma WhereFilterKeepsMultiplicity(f: PostFilter, posts: seq<Post>, p: Post)
    requires f.IsWhere()
    ensures multiset(f.Apply(posts))[p] == if f.Selects(p) then multiset(posts)[p] else 0
  {
    WhereCount(posts, f.Predicate(), p);
  }

  /** Applying a `Where` filter twice is applying it once. */
  lemma WhereFilterIdempotent(f: PostFilter, posts: seq<Post>)
    requires f.IsWhere()
    ensures f.Apply(f.Apply(posts)) == f.Apply(posts)
  {
    WhereWhere(posts, f.Predicate(), f.Predicate());
  }

  /** Published posts filtered again for unpublished ones leave nothing. */
  lemma PublishedThenUnpublishedIsEmpty(posts: seq<Post>)
    ensures FilterByIsPublished(false).Apply(FilterByIsPublished(true).Apply(posts)) == []
  {
    var pub := FilterByIsPublished(true).Apply(posts);
    WhereNone(pub, FilterByIsPublished(false).Predicate());
  }

  /** A post without a publish date is never in a date range. */
  lemma UndatedPostIsOutsideEveryRange(start: int, end: int, posts: seq<Post>, p: Post)
    requires p.publishDate.None?
    ensures p !in FilterByDateRange(start, end).Apply(posts)
  {
  }

  /** The range is inclusive at both ends. */
  lemma RangeIsInclusive(start: int, end: int, posts: seq<Post>, p: Post)
    requires p in posts && start <= end
    requires p.publishDate == Some(start) || p.publishDate == Some(end)
    ensures p in FilterByDateRange(start, end).Apply(posts)
  {
  }

  /** A range whose start is after its end selects nothing. */
  lemma InvertedRangeIsEmpty(start: int, end: int, posts: seq<Post>)
    requires start > end
    ensures FilterByDateRange(start, end).Apply(posts) == []
  {
    WhereNone(posts, FilterByDateRange(start, end).Predicate());
  }

  /** The empty keyword is in every title, so every post is kept. */
  lemma EmptyKeywordKeepsAll(posts: seq<Post>)
    ensures FilterByKeyWord("").Apply(posts) == posts
  {
    forall p | p in posts ensures FilterByKeyWord("").Selects(p) {
      ContainsEmpty(p.title);
    }
    WhereAll(posts, FilterByKeyWord("").Predicate());
  }

  /** A keyword with a character no title has matches nothing. */
  lemma KeywordMissingFromTitlesMatchesNothing(keyword: string, c: char, posts: seq<Post>)
    requires c in keyword && forall p | p in posts :: c !in p.title
    ensures FilterByKeyWord(keyword).Apply(posts) == []
  {
    forall p | p in posts ensures !FilterByKeyWord(keyword).Selects(p) {
      NotContainedMissingChar(p.title, keyword, c);
    }
    WhereNone(posts, FilterByKeyWord(keyword).Predicate());
  }

  function SamplePost(id: int, title: string, text: string): Post
  {
    Post(id, 0, None, 0, None, 0, None, title, text, 0, None, false, None, None)
  }

  /** The five posts of the keyword tests. */
  function SamplePosts(): seq<Post>
  {
    [ SamplePost(1, "Hello World", "This is a test post."),
      SamplePost(2, "Keyword Match", "Contains the keyword in the text."),
      SamplePost(3, "Another Post", "Nothing special here."),
      SamplePost(4, "HELLO again", "Case insensitive test."),
      SamplePost(5, "No match", "No keyword here.") ]
  }

  /** Only titles are searched: "This" begins a text but is in no title. */
  lemma TextIsNotSearched()
    ensures FilterByKeyWord("This").Apply(SamplePosts()) == []
  {
    var posts := SamplePosts();
    assert 'T' in "This";
    NoSampleTitleHas('T');
    SampleTitlesLack('T');
    KeywordMissingFromTitlesMatchesNothing("This", 'T', posts);
  }

  /** The word is there to be found in the first post's text. */
  lemma SampleTextHasThis()
    ensures Contains(SamplePosts()[0].text, "This")
  {
    var text := SamplePosts()[0].text;
    assert text[0..4] == "This";
    assert OccursAt(text, "This", 0);
  }

  /** A character missing from the five sample titles is in no sample post's title. */
  lemma SampleTitlesLack(c: char)
    requires c !in "Hello World" && c !in "Keyword Match" && c !in "Another Post"
    requires c !in "HELLO again" && c !in "No match"
    ensures forall p | p in SamplePosts() :: c !in p.title
  {
    var posts := SamplePosts();
    forall p | p in posts ensures c !in p.title {
      var i :| 0 <= i < |posts| && posts[i] == p;
      assert i == 0 || i == 1 || i == 2 || i == 3 || i == 4;
    }
  }

  lemma NoSampleTitleHas(c: char)
    requires c == 'f' || c == 'T'
    ensures c !in "Hello World" && c !in "Keyword Match" && c !in "Another Post"
    ensures c !in "HELLO again" && c !in "No match"
  {
  }

  /** "notfound" is in no title. */
  lemma UnknownKeywordMatchesNothing()
    ensures FilterByKeyWord("notfound").Apply(SamplePosts()) == []
  {
    assert 'f' in "notfound";
    NoSampleTitleHas('f');
    SampleTitlesLack('f');
    KeywordMissingFromTitlesMatchesNothing("notfound", 'f', SamplePosts());
  }

  /** `FilterTopMostVoted`: at most `topCount` posts, none for a non-positive
      count; every post with a vote comes before every post without; the order
      of the input is kept within each group; and the result is a prefix of the
      input reordered, so no post is invented or repeated. */
  lemma TopMostVotedOrder(n: int, posts: seq<Post>)
    ensures var r := FilterTopMostVoted(n).Apply(posts);
            && |r| == Min(Max(0, n), |posts|)
            && (n <= 0 ==> r == [])
            && (forall i, j | 0 <= i < j < |r| :: HasVotes(r[j]) ==> HasVotes(r[i]))
            && r == OrderByDescending(posts, HasVotes)[..|r|]
            && multiset(r) <= multiset(posts)
  {
    var ordered := OrderByDescending(posts, HasVotes);
    OrderByDescendingIsStableSort(posts, HasVotes);
    assert |ordered| == |posts| by {
      assert |multiset(ordered)| == |multiset(posts)|;
    }
    TakeIsPrefix(ordered, n);
    var r := Take(ordered, n);
    forall i, j | 0 <= i < j < |r| ensures HasVotes(r[j]) ==> HasVotes(r[i]) {
      assert r[i] == ordered[i] && r[j] == ordered[j];
    }
  }

  /** With enough room, the posts with votes come first, in input order, then the rest in input order. */
  lemma TopMostVotedIsStable(n: int, posts: seq<Post>)
    requires n >= |posts|
    ensures FilterTopMostVoted(n).Apply(posts) == Where(posts, HasVotes) + Where(posts, Not(HasVotes))
  {
    OrderByDescendingIsStableSort(posts, HasVotes);
    assert |OrderByDescending(posts, HasVotes)| == |posts| by {
      assert |multiset(OrderByDescending(posts, HasVotes))| == |multiset(posts)|;
    }
  }

  /** The query filters of a stack of post filters, in order. Its twin over
      mood filters is `MoodTypeServices.MoodQueryFilters`: the two filter
      families are separate datatypes with no common supertype, and the
      `IQueryFilter<T>` each yields has a different `T`, so each family keeps
      its own conversion. */
  function QueryFilters(fs: seq<PostFilter>): (r: seq<QueryFilter<Post>>)
    ensures |r| == |fs| && forall i | 0 <= i < |fs| :: r[i] == fs[i].AsQueryFilter()
  {
    seq(|fs|, i requires 0 <= i < |fs| => fs[i].AsQueryFilter())
  }

  /** Stacked `Where` filters keep exactly the input posts every filter of the stack accepts. */
  lemma {:induction false} StackedWhereFilters(fs: seq<PostFilter>, posts: seq<Post>, p: Post)
    requires forall i | 0 <= i < |fs| :: fs[i].IsWhere()
    ensures p in ApplyAll(QueryFilters(fs), posts)
            <==> p in posts && forall i | 0 <= i < |fs| :: fs[i].Selects(p)
    decreases |fs|
  {
    if fs != [] {
      var once := fs[0].Apply(posts);
      assert QueryFilters(fs)[1..] == QueryFilters(fs[1..]);
      assert QueryFilters(fs)[0].apply(posts) == once;
      StackedWhereFilters(fs[1..], once, p);
      assert forall i | 1 <= i < |fs| :: fs[1..][i - 1] == fs[i];
      if p in posts && forall i | 0 <= i < |fs| :: fs[i].Selects(p) {
        assert forall i | 0 <= i < |fs[1..]| :: fs[1..][i].Selects(p) by {
          forall i | 0 <= i < |fs[1..]| ensures fs[1..][i].Selects(p) {
            assert fs[1..][i] == fs[i + 1];
          }
        }
      }
    }
  }

  /** Stacked `Where` filters keep their survivors in input order. */
  lemma {:induction false} StackedWhereFiltersKeepOrder(fs: seq<PostFilter>, posts: seq<Post>)
    requires forall i | 0 <= i < |fs| :: fs[i].IsWhere()
    ensures IsSubsequence(ApplyAll(QueryFilters(fs), posts), posts)
    decreases |fs|
  {
    if fs == [] {
      SubsequenceReflexive(posts);
    } else {
      var once := fs[0].Apply(posts);
      assert QueryFilters(fs)[1..] == QueryFilters(fs[1..]);
      assert forall i | 0 <= i < |fs[1..]| :: fs[1..][i] == fs[i + 1];
      assert QueryFilters(fs)[0].apply(posts) == once;
      assert ApplyAll(QueryFilters(fs), posts) == ApplyAll(QueryFilters(fs[1..]), once);
      StackedWhereFiltersKeepOrder(fs[1..], once);
      WhereFilterKeepsOrder(fs[0], posts);
      SubsequenceTransitive(ApplyAll(QueryFilters(fs[1..]), once), once, posts);
    }
  }
}
