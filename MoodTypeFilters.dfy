/** The `IQueryFilter<MoodType>` classes, each one `Where` over the moods. */
module MoodTypeFilters {
  import opened Linq
  import opened Text
  import opened Domain
  import opened QueryBuilding

  datatype MoodTypeFilter =
    | FilterByIsAvailable(isAvailable: bool)
    | FilterBySearchTerm(keyword: string)
    | FilterByOnlyWithPosts
  {
    /** The row test. `Mood.Contains(keyword, OrdinalIgnoreCase)` for the search;
        `Posts.Any()` for moods with posts. */
    predicate Selects(m: MoodType)
    {
      match this
      case FilterByIsAvailable(b) => m.isAvailable == b
      case FilterBySearchTerm(k) => ContainsIgnoreCase(m.mood, k)
      case FilterByOnlyWithPosts => |m.posts| > 0
    }

    function Predicate(): MoodType -> bool
    {
      m => Selects(m)
    }

    /** `ApplyFilter`: exactly the input moods the row test accepts. */
    function Apply(moods: seq<MoodType>): (r: seq<MoodType>)
      ensures forall m | m in r :: m in moods && Selects(m)
      ensures forall m | m in moods && Selects(m) :: m in r
    {
      var r := Where(moods, Predicate());
      forall m ensures m in r <==> m in moods && Selects(m) {
        WhereMembership(moods, Predicate(), m);
      }
      r
    }

    /** The class name, by which the builder tells filter kinds apart. */
    function Name(): (n: string)
      ensures |n| > 0
    {
      match this
      case FilterByIsAvailable(_) => "FilterByIsAvailable"
      case FilterBySearchTerm(_) => "FilterBySearchTerm"
      case FilterByOnlyWithPosts => "FilterByOnlyWithPosts"
    }

    function AsQueryFilter(): (f: QueryFilter<MoodType>)
      ensures f.name == Name()
    {
      QueryFilter(Name(), moods => Apply(moods))
    }
  }

  /** Each filter keeps its survivors in input order. */
  lemma MoodFilterKeepsOrder(f: MoodTypeFilter, moods: seq<MoodType>)
    ensures IsSubsequence(f.Apply(moods), moods)
  {
    WhereIsSubsequence(moods, f.Predicate());
  }

  /** Applying a filter twice is applying it once. */
  lemma MoodFilterIdempotent(f: MoodTypeFilter, moods: seq<MoodType>)
    ensures f.Apply(f.Apply(moods)) == f.Apply(moods)
  {
    WhereWhere(moods, f.Predicate(), f.Predicate());
  }

  /** The search does not care about case: a term and its upper- or lower-cased
      form select the same moods, in the same order. */
  lemma SearchIsCaseBlind(term: string, moods: seq<MoodType>)
    ensures FilterBySearchTerm(Upper(term)).Apply(moods) == FilterBySearchTerm(term).Apply(moods)
    ensures FilterBySearchTerm(Lower(term)).Apply(moods) == FilterBySearchTerm(term).Apply(moods)
  {
    forall m | m in moods
      ensures FilterBySearchTerm(Upper(term)).Selects(m) == FilterBySearchTerm(term).Selects(m)
      ensures FilterBySearchTerm(Lower(term)).Selects(m) == FilterBySearchTerm(term).Selects(m)
    {
      IgnoreCaseIsCaseBlind(m.mood, term);
    }
    WhereCongruent(moods, FilterBySearchTerm(Upper(term)).Predicate(), FilterBySearchTerm(term).Predicate());
    WhereCongruent(moods, FilterBySearchTerm(Lower(term)).Predicate(), FilterBySearchTerm(term).Predicate());
  }

  /** A mood that gains a post passes `FilterByOnlyWithPosts`. */
  lemma MoodWithNewPostIsIncluded(moods: seq<MoodType>, i: nat, postId: int)
    requires i < |moods|
    ensures var gained := moods[i].(posts := moods[i].posts + [postId]);
            gained in FilterByOnlyWithPosts.Apply(moods[i := gained])
  {
    var gained := moods[i].(posts := moods[i].posts + [postId]);
    assert moods[i := gained][i] == gained;
  }

  /** The four moods the service tests seed, all available and without posts. */
  function SeededMoods(): seq<MoodType>
  {
    [ MoodType(1, "Happy", true, []), MoodType(2, "Sad", true, []),
      MoodType(3, "Angry", true, []), MoodType(4, "Excited", true, []) ]
  }

  /** Searching "Happy" over Happy, Sad, Angry and Excited yields exactly "Happy". */
  lemma SearchHappy()
    ensures FilterBySearchTerm("Happy").Apply(SeededMoods()) == [SeededMoods()[0]]
  {
    var moods := SeededMoods();
    var p := FilterBySearchTerm("Happy").Predicate();
    HappyFindsHappy();
    HappyFindsNoOther();
    assert moods[1..] == [moods[1], moods[2], moods[3]];
    WhereNone(moods[1..], p);
  }

  lemma HappyFindsHappy()
    ensures ContainsIgnoreCase("Happy", "Happy")
  {
    assert Upper("Happy") == "HAPPY";
    assert OccursAt("HAPPY", "HAPPY", 0);
  }

  lemma HappyFindsNoOther()
    ensures !ContainsIgnoreCase("Sad", "Happy")
    ensures !ContainsIgnoreCase("Angry", "Happy")
    ensures !ContainsIgnoreCase("Excited", "Happy")
  {
    assert Upper("Happy") == "HAPPY";
    assert Upper("Sad") == "SAD";
    assert Upper("Angry") == "ANGRY";
    assert Upper("Excited") == "EXCITED";
    NotContainedMissingChar("ANGRY", "HAPPY", 'H');
    NotContainedMissingChar("EXCITED", "HAPPY", 'H');
  }
}
