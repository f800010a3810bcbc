/** `MoodTypeService`: creating, updating, deleting and reading mood types, and
    `Get`, which turns a filter configuration into filters and paging on the
    one query builder the service holds. */
module MoodTypeServices {
  import opened Wrappers
  import opened Faults
  import opened Linq
  import opened Paging
  import opened Domain
  import opened Store
  import opened QueryBuilding
  import opened MoodTypeFilters

  datatype MoodTypeCreateDTO = MoodTypeCreateDTO(mood: string, isAvailable: bool)

  datatype MoodTypeEdit = MoodTypeEdit(id: int, mood: string, isAvailable: bool)

  datatype MoodTypeDTO = MoodTypeDTO(id: int, mood: string, isAvailable: bool)

  datatype MoodTypeListDTO = MoodTypeListDTO(id: int, mood: string, isAvailable: bool)

  /** What `Get` is asked for; every field has the source's default. */
  datatype MoodTypeFilterConfig = MoodTypeFilterConfig(
    isAvailable: Option<bool> := None,
    searchTerm: string := "",
    onlyWithPosts: bool := false,
    paged: bool := false,
    pageNumber: int32 := 1,
    pageSize: int32 := 10)

  function MoodId(m: MoodType): int
  {
    m.id
  }

  function Indicator(b: bool): nat
  {
    if b then 1 else 0
  }

  /** The filters `Get` adds, in its order: availability when it is given, the
      search term when it is not empty, posts when asked. */
  function ConfigFilters(c: MoodTypeFilterConfig): (fs: seq<MoodTypeFilter>)
    ensures var a := Indicator(c.isAvailable.Some?);
            var s := Indicator(c.searchTerm != "");
            && |fs| == a + s + Indicator(c.onlyWithPosts)
            && (c.isAvailable.Some? ==> fs[0] == FilterByIsAvailable(c.isAvailable.value))
            && (c.searchTerm != "" ==> fs[a] == FilterBySearchTerm(c.searchTerm))
            && (c.onlyWithPosts ==> fs[a + s] == FilterByOnlyWithPosts)
    ensures forall i, j | 0 <= i < j < |fs| :: fs[i].Name() != fs[j].Name()
  {
    (if c.isAvailable.Some? then [FilterByIsAvailable(c.isAvailable.value)] else [])
    + (if c.searchTerm != "" then [FilterBySearchTerm(c.searchTerm)] else [])
    + (if c.onlyWithPosts then [FilterByOnlyWithPosts] else [])
  }

  /** The query filters of a stack of mood filters, in order; the mood-type
      counterpart of `PostFilters.QueryFilters`. */
  function MoodQueryFilters(fs: seq<MoodTypeFilter>): (r: seq<QueryFilter<MoodType>>)
    ensures |r| == |fs| && forall i | 0 <= i < |fs| :: r[i] == fs[i].AsQueryFilter()
  {
    seq(|fs|, i requires 0 <= i < |fs| => fs[i].AsQueryFilter())
  }

  function ConfigPaging(c: MoodTypeFilterConfig): (p: Option<WithPaging>)
    ensures p.Some? <==> c.paged
    ensures p.Some? ==> p.value.pageNumber == c.pageNumber && p.value.pageSize == c.pageSize
  {
    if c.paged then Some(WithPaging(c.pageNumber, c.pageSize)) else None
  }

  function ListDtoOf(m: MoodType): (d: MoodTypeListDTO)
    ensures d.id == m.id && d.mood == m.mood && d.isAvailable == m.isAvailable
  {
    MoodTypeListDTO(m.id, m.mood, m.isAvailable)
  }

  /** What `Get` returns and leaves in the builder: the configured filters, the
      paging when asked, `Build` over the table, and one DTO per mood. */
  function GetResult(b: BuilderState<MoodType>, c: MoodTypeFilterConfig, rows: seq<MoodType>)
    : (r: (BuilderState<MoodType>, Result<seq<MoodTypeListDTO>, Fault>))
    ensures r.0 == Request(b, MoodQueryFilters(ConfigFilters(c)), ConfigPaging(c), rows).0
    ensures r.1.Success? <==> Request(b, MoodQueryFilters(ConfigFilters(c)), ConfigPaging(c), rows).1.Success?
  {
    var (b1, found) := Request(b, MoodQueryFilters(ConfigFilters(c)), ConfigPaging(c), rows);
    match found
    case Failure(e) => (b1, Failure(e))
    case Success(moods) => (b1, Success(Select(moods, ListDtoOf)))
  }

  /** The tail of `Get` once its filters are in. */
  function GetTail(b: BuilderState<MoodType>, c: MoodTypeFilterConfig, rows: seq<MoodType>)
    : (r: (BuilderState<MoodType>, Result<seq<MoodTypeListDTO>, Fault>))
    ensures r.1.Failure? <==> c.paged && b.paging.Some?
    ensures r.0.filters == b.filters
  {
    var (b2, o) := if c.paged then b.AddPaging(c.pageNumber, c.pageSize) else (b, Pass);
    if o.Fail? then (b2, Failure(o.error))
    else
      var (b3, moods) := b2.Build(rows);
      (b3, Success(Select(moods, ListDtoOf)))
  }

  /** Once the configured filters are in, `Get` is `GetTail` on the builder. */
  lemma GetDone(b: BuilderState<MoodType>, c: MoodTypeFilterConfig, current: BuilderState<MoodType>, rows: seq<MoodType>)
    requires AddFilters(b, MoodQueryFilters(ConfigFilters(c))) == (current, Pass)
    ensures GetResult(b, c, rows) == GetTail(current, c, rows)
  {
  }

  /** `Get` on a fresh builder: each DTO is a mood of the table that passes every
      configured filter, at most a page of them when paged, all of them in
      table order when nothing is configured. */
  lemma {:induction false} FirstGet(c: MoodTypeFilterConfig, rows: seq<MoodType>)
    ensures var (b, r) := GetResult(Fresh(Query([])), c, rows);
            && r.Success?
            && b.paging == ConfigPaging(c)
            && (c.paged ==> |r.value| <= Max(0, c.pageSize))
            && (forall d | d in r.value :: exists m | m in rows ::
                  d == ListDtoOf(m) && forall i | 0 <= i < |ConfigFilters(c)| :: ConfigFilters(c)[i].Selects(m))
            && (c == MoodTypeFilterConfig() ==> r.value == Select(rows, ListDtoOf))
  {
    var fs := ConfigFilters(c);
    var qs := MoodQueryFilters(fs);
    var q: Query<MoodType> := Query([]);
    assert NamesDistinct(qs) by {
      forall i, j | 0 <= i < j < |qs| ensures qs[i].name != qs[j].name {
        assert qs[i].name == fs[i].Name() && qs[j].name == fs[j].Name();
      }
    }
    RequestOnFreshBuilder(q, qs, ConfigPaging(c), rows);
    assert q.Run(rows) == rows;
    var matches := ApplyAll(qs, rows);
    var shown := Paged(ConfigPaging(c), matches);
    var (b, r) := GetResult(Fresh(q), c, rows);
    assert r == Success(Select(shown, ListDtoOf));
    if c.paged {
      PageBounded(ConfigPaging(c).value, matches);
    }
    assert forall x | x in shown :: x in matches by {
      if c.paged {
        PageBounded(ConfigPaging(c).value, matches);
      }
    }
    forall d | d in r.value
      ensures exists m | m in rows :: d == ListDtoOf(m) && forall i | 0 <= i < |fs| :: fs[i].Selects(m)
    {
      var k :| 0 <= k < |r.value| && r.value[k] == d;
      assert shown[k] in matches;
      StackedMoodFilters(fs, rows, shown[k]);
    }
  }

  /** Stacked mood filters keep exactly the moods every filter accepts. */
  lemma {:induction false} StackedMoodFilters(fs: seq<MoodTypeFilter>, moods: seq<MoodType>, m: MoodType)
    ensures m in ApplyAll(MoodQueryFilters(fs), moods) <==> m in moods && forall i | 0 <= i < |fs| :: fs[i].Selects(m)
    decreases |fs|
  {
    if fs != [] {
      var once := fs[0].Apply(moods);
      assert MoodQueryFilters(fs)[1..] == MoodQueryFilters(fs[1..]);
      assert MoodQueryFilters(fs)[0].apply(moods) == once;
      StackedMoodFilters(fs[1..], once, m);
      assert forall i | 1 <= i < |fs| :: fs[1..][i - 1] == fs[i];
      if m in moods && forall i | 0 <= i < |fs| :: fs[i].Selects(m) {
        assert forall i | 0 <= i < |fs[1..]| :: fs[1..][i].Selects(m) by {
          forall i | 0 <= i < |fs[1..]| ensures fs[1..][i].Selects(m) {
            assert fs[1..][i] == fs[i + 1];
          }
        }
      }
    }
  }

  /** Asking for available moods yields only available moods. */
  lemma OnlyAvailableWhenAsked(c: MoodTypeFilterConfig, rows: seq<MoodType>)
    requires c.isAvailable == Some(true)
    ensures var r := GetResult(Fresh(Query([])), c, rows).1;
            r.Success? && forall d | d in r.value :: d.isAvailable
  {
    FirstGet(c, rows);
    var r := GetResult(Fresh(Query([])), c, rows).1;
    forall d | d in r.value ensures d.isAvailable {
      var m :| m in rows && d == ListDtoOf(m) && forall i | 0 <= i < |ConfigFilters(c)| :: ConfigFilters(c)[i].Selects(m);
      assert ConfigFilters(c)[0].Selects(m);
    }
  }

  /** The default configuration over the four seeded moods lists all four. */
  lemma DefaultGetListsSeededMoods()
    ensures |GetResult(Fresh(Query([])), MoodTypeFilterConfig(), SeededMoods()).1.value| == 4
  {
    FirstGet(MoodTypeFilterConfig(), SeededMoods());
  }

  /** Unpaged `Get` on a fresh builder lists every mood that passes the configured filters, in order. */
  lemma UnpagedFirstGet(c: MoodTypeFilterConfig, rows: seq<MoodType>)
    requires !c.paged
    ensures GetResult(Fresh(Query([])), c, rows).1 == Success(Select(ApplyAll(MoodQueryFilters(ConfigFilters(c)), rows), ListDtoOf))
  {
    var q: Query<MoodType> := Query([]);
    var fs := ConfigFilters(c);
    var qs := MoodQueryFilters(fs);
    assert NamesDistinct(qs) by {
      forall i, j | 0 <= i < j < |qs| ensures qs[i].name != qs[j].name {
        assert qs[i].name == fs[i].Name() && qs[j].name == fs[j].Name();
      }
    }
    RequestOnFreshBuilder(q, qs, None, rows);
    assert q.Run(rows) == rows;
  }

  /** Searching "Happy" over the seeded moods yields the single "Happy". */
  lemma SearchHappyListsHappy()
    ensures GetResult(Fresh(Query([])), MoodTypeFilterConfig(searchTerm := "Happy"), SeededMoods()).1
         == Success([MoodTypeListDTO(1, "Happy", true)])
  {
    var c := MoodTypeFilterConfig(searchTerm := "Happy");
    assert ConfigFilters(c) == [FilterBySearchTerm("Happy")];
    UnpagedFirstGet(c, SeededMoods());
    HappyStack();
    assert Select([SeededMoods()[0]], ListDtoOf) == [MoodTypeListDTO(1, "Happy", true)];
  }

  lemma HappyStack()
    ensures ApplyAll(MoodQueryFilters([FilterBySearchTerm("Happy")]), SeededMoods()) == [SeededMoods()[0]]
  {
    var qs := MoodQueryFilters([FilterBySearchTerm("Happy")]);
    assert |qs| == 1 && qs[1..] == [];
    assert ApplyAll(qs, SeededMoods()) == qs[0].apply(SeededMoods());
    SearchHappy();
  }

  /** Page 2 of size 5 over fourteen moods lists five, as the paging test expects. */
  lemma SecondPageOfFourteenMoods(rows: seq<MoodType>)
    requires |rows| == 14
    ensures |GetResult(Fresh(Query([])), MoodTypeFilterConfig(paged := true, pageNumber := 2, pageSize := 5), rows).1.value| == 5
  {
    var c := MoodTypeFilterConfig(paged := true, pageNumber := 2, pageSize := 5);
    var q: Query<MoodType> := Query([]);
    var qs := MoodQueryFilters(ConfigFilters(c));
    assert ConfigFilters(c) == [] && qs == [];
    RequestOnFreshBuilder(q, qs, ConfigPaging(c), rows);
    assert q.Run(rows) == rows;
    SecondPageOfFourteen(rows);
  }

  /** A second paged `Get`, or a second `Get` with a filter kind already added,
      on the same builder fails. */
  lemma SecondGetFails(b: BuilderState<MoodType>, c1: MoodTypeFilterConfig, c2: MoodTypeFilterConfig,
                       rows1: seq<MoodType>, rows2: seq<MoodType>)
    requires GetResult(b, c1, rows1).1.Success?
    requires (c1.paged && c2.paged) || (c1.searchTerm != "" && c2.searchTerm != "")
             || (c1.isAvailable.Some? && c2.isAvailable.Some?) || (c1.onlyWithPosts && c2.onlyWithPosts)
    ensures GetResult(GetResult(b, c1, rows1).0, c2, rows2).1.Failure?
  {
    var fs1 := ConfigFilters(c1);
    var fs2 := ConfigFilters(c2);
    var qs1 := MoodQueryFilters(fs1);
    var qs2 := MoodQueryFilters(fs2);
    if c1.paged && c2.paged {
      SecondPagedRequestFails(b, qs1, qs2, ConfigPaging(c1).value, ConfigPaging(c2).value, rows1, rows2);
    } else {
      var a1 := Indicator(c1.isAvailable.Some?);
      var a2 := Indicator(c2.isAvailable.Some?);
      var s1 := Indicator(c1.searchTerm != "");
      var s2 := Indicator(c2.searchTerm != "");
      var k, j;
      if c1.isAvailable.Some? && c2.isAvailable.Some? {
        k, j := 0, 0;
      } else if c1.searchTerm != "" && c2.searchTerm != "" {
        k, j := a1, a2;
      } else {
        k, j := a1 + s1, a2 + s2;
      }
      assert qs2[j].name == qs1[k].name;
      RepeatedKindFails(b, qs1, qs2, ConfigPaging(c1), ConfigPaging(c2), rows1, rows2, k);
    }
  }

  /** The mood type `UpdateMoodType` stores: the mood and the availability
      change, the identity and the posts stay. */
  function UpdatedMood(m: MoodType, update: MoodTypeEdit): (u: MoodType)
    ensures u.mood == update.mood && u.isAvailable == update.isAvailable
    ensures u.id == m.id && u.posts == m.posts
  {
    m.(mood := update.mood, isAvailable := update.isAvailable)
  }

  /** `GetMoodTypeById`: a missing mood reads as identity 0, empty mood and unavailable. */
  function MoodById(rows: seq<MoodType>, id: int): (d: MoodTypeDTO)
    ensures !HasKey(rows, MoodId, id) ==> d == MoodTypeDTO(0, "", false)
    ensures HasKey(rows, MoodId, id) ==> exists m | m in rows ::
              m.id == id && d == MoodTypeDTO(m.id, m.mood, m.isAvailable)
  {
    match Find(rows, MoodId, id)
    case None => MoodTypeDTO(0, "", false)
    case Some(m) => MoodTypeDTO(m.id, m.mood, m.isAvailable)
  }

  class MoodTypeService
  {
    var moodTypes: seq<MoodType>
    const queryBuilder: QueryBuilder<MoodType>

    ghost predicate Valid()
      reads this
    {
      KeysIncreasing(moodTypes, MoodId)
    }

    constructor (moodTypes: seq<MoodType>)
      requires KeysIncreasing(moodTypes, MoodId)
      ensures Valid() && this.moodTypes == moodTypes
      ensures fresh(queryBuilder) && queryBuilder.State() == Fresh(Query([]))
    {
      this.moodTypes := moodTypes;
      this.queryBuilder := new QueryBuilder(Query([]));
    }

    /** `CreateMoodType`: appends a mood without posts under the next identity. */
    method CreateMoodType(create: MoodTypeCreateDTO)
      requires Valid()
      modifies this
      ensures Valid()
      ensures moodTypes == old(moodTypes) + [MoodType(NextKey(old(moodTypes), MoodId), create.mood, create.isAvailable, [])]
      ensures MoodById(moodTypes, NextKey(old(moodTypes), MoodId))
           == MoodTypeDTO(NextKey(old(moodTypes), MoodId), create.mood, create.isAvailable)
    {
      var mood := MoodType(NextKey(moodTypes, MoodId), create.mood, create.isAvailable, []);
      AppendNextKeepsIncreasing(moodTypes, MoodId, mood);
      moodTypes := moodTypes + [mood];
    }

    /** `UpdateMoodType`: writing through the missing mood faults; otherwise the
        stored mood is replaced by its updated form and every other mood stays. */
    method UpdateMoodType(update: MoodTypeEdit) returns (r: Outcome<Fault>)
      requires Valid()
      modifies this
      ensures Valid()
      ensures r.Fail? <==> !HasKey(old(moodTypes), MoodId, update.id)
      ensures r.Fail? ==> r.error == NullReference && moodTypes == old(moodTypes)
      ensures r.Pass? ==> var i := IndexOfKey(old(moodTypes), MoodId, update.id).value;
                          moodTypes == old(moodTypes)[i := UpdatedMood(old(moodTypes)[i], update)]
      ensures forall id | id != update.id :: Find(moodTypes, MoodId, id) == Find(old(moodTypes), MoodId, id)
    {
      match IndexOfKey(moodTypes, MoodId, update.id)
      case None =>
        return Fail(NullReference);
      case Some(i) =>
        var updated := UpdatedMood(moodTypes[i], update);
        ReplaceKeepsIncreasing(moodTypes, MoodId, i, updated);
        moodTypes := moodTypes[i := updated];
        return Pass;
    }

    /** `DeleteMoodType`: removes the mood; a missing identity makes `Remove(null)` fault. */
    method DeleteMoodType(id: int) returns (r: Outcome<Fault>)
      requires Valid()
      modifies this
      ensures Valid()
      ensures r.Fail? <==> !HasKey(old(moodTypes), MoodId, id)
      ensures r.Fail? ==> r.error == ArgumentNull("entity") && moodTypes == old(moodTypes)
      ensures r.Pass? ==> moodTypes == RemoveKey(old(moodTypes), MoodId, id)
      ensures !HasKey(moodTypes, MoodId, id)
    {
      RemoveKeepsIncreasing(moodTypes, MoodId, id);
      if IndexOfKey(moodTypes, MoodId, id).None? {
        return Fail(ArgumentNull("entity"));
      }
      moodTypes := RemoveKey(moodTypes, MoodId, id);
      return Pass;
    }

    function GetMoodTypeById(id: int): (d: MoodTypeDTO)
      reads this
      ensures d == MoodById(moodTypes, id)
    {
      MoodById(moodTypes, id)
    }

    /** `Get`: each configured filter, then the paging when asked, then `Build`
        over the table and the DTO projection. */
    method Get(config: MoodTypeFilterConfig) returns (r: Result<seq<MoodTypeListDTO>, Fault>)
      modifies queryBuilder
      ensures (queryBuilder.State(), r) == GetResult(old(queryBuilder.State()), config, moodTypes)
    {
      ghost var b0 := queryBuilder.State();
      var added := AddConfiguredFilters(config);
      if added.Fail? {
        return Failure(added.error);
      }
      GetDone(b0, config, queryBuilder.State(), moodTypes);
      if config.paged {
        :- queryBuilder.AddPaging(config.pageNumber, config.pageSize);
      }
      var result := queryBuilder.Build(moodTypes);
      r := Success(Select(result, ListDtoOf));
    }

    /** The three conditional `AddFilter` calls at the head of `Get`. */
    method AddConfiguredFilters(config: MoodTypeFilterConfig) returns (o: Outcome<Fault>)
      modifies queryBuilder
      ensures (queryBuilder.State(), o) == AddFilters(old(queryBuilder.State()), MoodQueryFilters(ConfigFilters(config)))
    {
      ghost var b0 := queryBuilder.State();
      ghost var fs := MoodQueryFilters(ConfigFilters(config));
      ghost var k: nat := 0;
      assert fs[..0] == [];
      if config.isAvailable.Some? {
        o := AddConfiguredFilter(b0, config, k, FilterByIsAvailable(config.isAvailable.value));
        if o.Fail? {
          return;
        }
        k := k + 1;
      }
      assert k == Indicator(config.isAvailable.Some?) && AddFilters(b0, fs[..k]) == (queryBuilder.State(), Pass);
      if config.searchTerm != "" {
        o := AddConfiguredFilter(b0, config, k, FilterBySearchTerm(config.searchTerm));
        if o.Fail? {
          return;
        }
        k := k + 1;
      }
      assert k == Indicator(config.isAvailable.Some?) + Indicator(config.searchTerm != "");
      assert AddFilters(b0, fs[..k]) == (queryBuilder.State(), Pass);
      if config.onlyWithPosts {
        o := AddConfiguredFilter(b0, config, k, FilterByOnlyWithPosts);
        if o.Fail? {
          return;
        }
        k := k + 1;
      }
      assert k == |fs| && fs[..k] == fs;
      o := Pass;
    }

    /** One `AddFilter` call of `Get`, the `k`-th of the configured filters;
        a refusal there ends the filter calls. */
    method AddConfiguredFilter(ghost b0: BuilderState<MoodType>, config: MoodTypeFilterConfig, ghost k: nat, f: MoodTypeFilter)
      returns (o: Outcome<Fault>)
      requires k < |ConfigFilters(config)| && ConfigFilters(config)[k] == f
      requires AddFilters(b0, MoodQueryFilters(ConfigFilters(config))[..k]) == (queryBuilder.State(), Pass)
      modifies queryBuilder
      ensures AddFilters(b0, MoodQueryFilters(ConfigFilters(config))[..k + 1]) == (queryBuilder.State(), o)
      ensures o.Fail? ==> AddFilters(b0, MoodQueryFilters(ConfigFilters(config))) == (queryBuilder.State(), o)
    {
      AddFiltersStep(b0, MoodQueryFilters(ConfigFilters(config)), k);
      o := queryBuilder.AddFilter(f.AsQueryFilter());
    }
  }
}
