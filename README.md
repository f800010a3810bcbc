# MadLab.QueryFilter in Dafny

MadLab.QueryFilter is a small blog back end: posts, their authors, post types
and mood types, over Entity Framework. Its one real piece of logic is a
composable query pipeline:

- **Filter classes.** Each `IQueryFilter<T>` class wraps one LINQ `Where`, or
  for `FilterTopMostVoted` an `OrderByDescending`/`Take`.
- **`WithPaging<T>`.** An offset/limit pager.
- **`QueryBuilder<T>`.** A stateful builder. It collects at most one filter of
  each kind and at most one paging, then composes them onto a base query in
  `Build`.
- **The two services.** `PostService` and `MoodTypeService` each hold one
  builder in a field. Their list operations stack filters and paging on it.

This project models that pipeline, the services' create/update/delete/read
rules, and the console's `Truncate` helper, and proves what they promise.

Modules, by source file:

| module | models |
|---|---|
| `Wrappers`, `Faults` | `Option`, `Result`, `Outcome`; the exceptions the code raises, as values |
| `Linq` | `Where`, `Skip`, `Take`, `Select` and the stable `OrderByDescending` on a `bool` key, over `seq` |
| `Text` | ordinal `Contains` and ASCII `OrdinalIgnoreCase` containment |
| `Paging` | `WithPaging<T>`, with C#'s unchecked 32-bit `int` arithmetic written out |
| `Domain` | the entities `User`, `PostType`, `MoodType`, `PostVote`, `PostComment`, `Post` |
| `Store` | a repository table: rows in ascending identity, `Find`, the next identity, `Remove` |
| `QueryBuilding` | `IQueryFilter<T>`, a deferred `IQueryable<T>`, the builder as a value (`BuilderState`) and as a class (`QueryBuilder`) |
| `PostFilters`, `MoodTypeFilters` | the filter classes as datatypes with `Apply` |
| `PostServices`, `MoodTypeServices` | the services as classes over their tables and their shared builder |
| `DemoConsole` | `Truncate`, over UTF-16 code units |

Design in brief:

- **Deferred queries.** An `IQueryable<T>` is the datatype `Query<T>`, a list of
  stages. It is run against the table's current rows only when `Build`
  enumerates it.
- **What `Build` stores.** `Build` stores the composed query back in the
  builder, so a second `Build` reapplies every stage. `BuildTwice` proves this.
- **Builder.** Each method of `QueryBuilder` is specified by a function over
  its state, `BuilderState`. Mutation and the loop in `Build` are proved
  against those functions.
- **Services.** Each list method specifies its result and the builder's new
  state through the function `ListResult` (posts) or `GetResult` (mood types).
  The lemmas about those functions state what a list call returns, and that a
  second call on the same service fails.
- **Exceptions.** Each becomes a `Failure`/`Fail` value. Each returned error
  is exactly the exception the source raises:
  - `InvalidOperationException`, with the source's message;
  - `ArgumentNullException` from `Remove(null)`;
  - `NullReferenceException` from a null navigation or a missing entity;
  - `ArgumentOutOfRangeException` from `Substring`.
- **Clock.** `DateTime.UtcNow` is the parameter `now`.

## Model

Paths are relative to the repository root.

| member | source | states |
|---|---|---|
| `Paging.OffsetWithoutOverflow` | MadLab.QueryFilter.Services/Helpers/WithPaging.cs:15-17 | when the product does not overflow, the skip count is exactly `(PageNumber - 1) * PageSize` |
| `Paging.PageIsSlice` | MadLab.QueryFilter.Services/Helpers/WithPaging.cs:13-18 | for every input and every page and size, the page is the contiguous slice starting at the clamped offset, at most `PageSize` long, in input order |
| `Paging.PageLength` | MadLab.QueryFilter.Services/Helpers/WithPaging.cs:17 | the page length is `min(PageSize, max(0, n - (PageNumber - 1) * PageSize))`, never more than `PageSize` |
| `Paging.PageBounded` | MadLab.QueryFilter.Services/Helpers/WithPaging.cs:17 | any page, even with negative numbers, has at most `max(0, PageSize)` elements, all from the input |
| `Paging.PagePastEndIsEmpty` | MadLab.QueryFilter.Services/Helpers/WithPaging.cs:17 | a page starting past the end is empty, not an error |
| `Paging.NonPositivePageIsFirstPage` | MadLab.QueryFilter.Services/Helpers/WithPaging.cs:17 | a page number of 1 or less skips nothing (`Skip` of a negative count skips none) |
| `Paging.NonPositiveSizeIsEmpty` | MadLab.QueryFilter.Services/Helpers/WithPaging.cs:17 | a size of 0 or less yields no rows |
| `Paging.PagesTile` | MadLab.QueryFilter.Services/Helpers/WithPaging.cs:15-17 | with a fixed positive size, pages 1..k concatenated are exactly the first `k * size` elements: no gap, no overlap |
| `Paging.PageK` | MadLab.QueryFilter.Services/Helpers/WithPaging.cs:15-17 | page k is the slice between the ends of pages k-1 and k |
| `Paging.SecondPageOfFourteen` | MadLab.QueryFilter.Services.Test/Services/MoodTypeServiceTests.cs:84-97 | page 2 of size 5 over 14 rows is rows 5..9, exactly 5 rows |
| `Paging.OffsetWrapsAround` | MadLab.QueryFilter.Services/Helpers/WithPaging.cs:15-17 | the offset is unchecked `int` arithmetic: page 0x40000001 of size 4 wraps round to page 1 |
| `Paging.DefaultPageIsFirstTen` | MadLab.QueryFilter.Services/Helpers/WithPaging.cs:6-12 | the defaults are page 1, size 10, which is the first ten rows |
| `Paging.FirstPageCoversAll` | MadLab.QueryFilter.Services/Helpers/WithPaging.cs:17 | page 1 at least as large as the input yields the whole input |
| `Linq.OrderByDescendingIsStableSort` | MadLab.QueryFilter.Services/Services/Post/PostFilters/FilterTopMostVoted.cs:15 | ordering by a `bool` key descending is a permutation; every `true` precedes every `false`; each group keeps input order |
| `Linq.TakeIsPrefix` | MadLab.QueryFilter.Services/Services/Post/PostFilters/FilterTopMostVoted.cs:15 | `Take(n)` is a prefix of at most `max(0, n)` elements and repeats nothing |
| `Text.ContainsEmpty` | MadLab.QueryFilter.Services/Services/Post/PostFilters/FilterByKeyWord.cs:15 | every string contains the empty string |
| `Text.IgnoreCaseIsCaseBlind` | MadLab.QueryFilter.Services/Services/MoodType/MoodTypeFilters/FilterBySearchTerm.cs:17 | ignore-case containment gives the same answer for a key and for its upper- or lower-cased form |
| `Store.IndexOfKey` | MadLab.QueryFilter.Domain/Repository/RepositoryBase.cs:41-44 | gives the position of the first row with the identity, and none exactly when no row has it |
| `Store.Find` | MadLab.QueryFilter.Domain/Repository/RepositoryBase.cs:41-44 | `FindAsync` gives a row of the table with that identity, and null exactly when there is none |
| `Store.NextKey` | MadLab.QueryFilter.Domain/Repository/RepositoryBase.cs:17-21 | the identity a new row receives is above every existing one (1 for an empty table) |
| `Store.RemoveKey` | MadLab.QueryFilter.Domain/Repository/RepositoryBase.cs:34-39 | after `Remove`, exactly the other rows are left; removing an absent identity changes nothing |
| `Store.RemoveKeepsIncreasing` | MadLab.QueryFilter.Domain/Repository/RepositoryBase.cs:34-39 | removing keeps identities unique and increasing, and the identity is then absent |
| `Store.AppendNextKeepsIncreasing` | MadLab.QueryFilter.Domain/Repository/RepositoryBase.cs:17-21 | adding the row with the next identity keeps identities unique, and `Find` then returns that row |
| `Store.ReplaceKeepsIncreasing` | MadLab.QueryFilter.Domain/Repository/RepositoryBase.cs:28-32 | overwriting a row by one with the same identity keeps identities unique, and every other identity finds what it found before |
| `Store.FindUnique` | MadLab.QueryFilter.Domain/Repository/RepositoryBase.cs:41-44 | with unique identities, `Find` returns the one row holding the identity |
| `QueryBuilding.BuilderState.AddFilter` | MadLab.QueryFilter.Services/Helpers/QueryBuilder.cs:18-29 | a filter whose class name is not yet present is appended at the end and succeeds; one already present (whatever its parameters) raises `InvalidOperationException` with the source's message and changes nothing |
| `QueryBuilding.BuilderState.AddPaging` | MadLab.QueryFilter.Services/Helpers/QueryBuilder.cs:47-57 | sets the paging exactly when none is set; otherwise raises with the source's message and keeps the existing paging |
| `QueryBuilding.BuilderState.Build` | MadLab.QueryFilter.Services/Helpers/QueryBuilder.cs:31-45 | the stored query becomes the old one followed by every filter in order and then the paging; the result is that query run against the table; the filters and paging stay |
| `QueryBuilding.Fresh` | MadLab.QueryFilter.Services/Helpers/QueryBuilder.cs:9-16 | a new builder has no filters and no paging |
| `QueryBuilding.AddFilters` | MadLab.QueryFilter.Services/Helpers/QueryBuilder.cs:18-29 | adding filters never touches the query or the paging |
| `QueryBuilding.AddFiltersStep` | MadLab.QueryFilter.Services/Helpers/QueryBuilder.cs:18-29 | adding one more filter of a stack extends the prefix; a refusal there is the outcome of the whole stack |
| `QueryBuilding.BuildAppliesFiltersThenPaging` | MadLab.QueryFilter.Services/Helpers/QueryBuilder.cs:34-42 | `Build` yields the base rows narrowed by each filter in insertion order (first added applied first), then paged if paging is set |
| `QueryBuilding.BuildWithoutFiltersOrPaging` | MadLab.QueryFilter.Services/Helpers/QueryBuilder.cs:34-44 | with no filters and no paging, `Build` yields the base query's rows unchanged and leaves the builder as it was |
| `QueryBuilding.BuildTwice` | MadLab.QueryFilter.Services/Helpers/QueryBuilder.cs:36-41 | because `_query` is overwritten, a second `Build` reapplies every filter and the paging to the first result |
| `QueryBuilding.AddFilterKeepsKindsDistinct` | MadLab.QueryFilter.Services/Helpers/QueryBuilder.cs:21-26 | the filter list never holds two filters of one kind; once a kind is in, adding it again fails |
| `QueryBuilding.PagingAtMostOnce` | MadLab.QueryFilter.Services/Helpers/QueryBuilder.cs:49-54 | after a successful `AddPaging`, every further one fails and the first paging stays |
| `QueryBuilding.AddFiltersOnEmpty` | MadLab.QueryFilter.Services/Helpers/QueryBuilder.cs:21-26 | a stack of distinct kinds, none already present, is accepted whole and appended in order |
| `QueryBuilding.RequestOnFreshBuilder` | MadLab.QueryFilter.Services/Helpers/QueryBuilder.cs:13-45 | on a new builder, filters then paging then `Build` succeeds and yields the base rows through the filters in order, then paged |
| `QueryBuilding.SecondPagedRequestFails` | MadLab.QueryFilter.Services/Helpers/QueryBuilder.cs:49-52 | after a successful request that set paging, any request that sets paging fails |
| `QueryBuilding.RepeatedKindFails` | MadLab.QueryFilter.Services/Helpers/QueryBuilder.cs:21-24 | after a successful request, any request repeating one of its filter kinds fails |
| `QueryBuilding.AddFiltersRecordsStack` | MadLab.QueryFilter.Services/Helpers/QueryBuilder.cs:26 | after a stack is accepted, every kind of it is in the list |
| `QueryBuilding.FiltersOnlyGrow` | MadLab.QueryFilter.Services/Helpers/QueryBuilder.cs:26 | the filter list only grows: a kind present stays present |
| `QueryBuilding.AddFiltersFailsOnPresentKind` | MadLab.QueryFilter.Services/Helpers/QueryBuilder.cs:21-24 | a stack with any kind already present fails |
| `QueryBuilding.QueryBuilder.constructor` | MadLab.QueryFilter.Services/Helpers/QueryBuilder.cs:13-16 | a builder over the query, with no filters and no paging |
| `QueryBuilding.QueryBuilder.Create` | MadLab.QueryFilter.Services/Helpers/QueryBuilder.cs:13-16 | a null query is refused with `ArgumentNullException("query")`; otherwise a new builder over it |
| `QueryBuilding.QueryBuilder.AddFilter` | MadLab.QueryFilter.Services/Helpers/QueryBuilder.cs:18-29 | the fields become exactly what `BuilderState.AddFilter` gives, and the outcome is its outcome |
| `QueryBuilding.QueryBuilder.AddPaging` | MadLab.QueryFilter.Services/Helpers/QueryBuilder.cs:47-57 | the fields become exactly what `BuilderState.AddPaging` gives, and the outcome is its outcome |
| `QueryBuilding.QueryBuilder.Build` | MadLab.QueryFilter.Services/Helpers/QueryBuilder.cs:31-45 | the loop over the filters and the paging step leave exactly the state and rows `BuilderState.Build` gives |
| `PostFilters.PostFilter.Apply` | MadLab.QueryFilter.Services/Services/Post/PostFilters/FilterByIsPublished.cs:14-17 | a `Where` filter keeps exactly the input posts its row test accepts; `FilterTopMostVoted` keeps at most `max(0, topCount)` input posts, none twice |
| `PostFilters.NameIsKind` | MadLab.QueryFilter.Services/Helpers/QueryBuilder.cs:21 | two filters have the same class name exactly when they are of the same kind, whatever their parameters |
| `PostFilters.WhereFilterKeepsOrder` | MadLab.QueryFilter.Services/Services/Post/PostFilters/FilterByAuthor.cs:17 | every `Where` filter's output is an order-preserving subsequence of its input |
| `PostFilters.WhereFilterKeepsMultiplicity` | MadLab.QueryFilter.Services/Services/Post/PostFilters/FilterByMoodType.cs:14 | a `Where` filter keeps each accepted post as often as it occurs, and drops each rejected one entirely |
| `PostFilters.WhereFilterIdempotent` | MadLab.QueryFilter.Services/Services/Post/PostFilters/FilterByPostType.cs:15 | applying a `Where` filter twice equals applying it once |
| `PostFilters.PublishedThenUnpublishedIsEmpty` | MadLab.QueryFilter.Services/Services/Post/PostFilters/FilterByIsPublished.cs:16 | published posts filtered again for unpublished ones leave nothing |
| `PostFilters.UndatedPostIsOutsideEveryRange` | MadLab.QueryFilter.Services/Services/Post/PostFilters/FilterByDateRange.cs:18 | a post with a null `PublishDate` is never in a date range result |
| `PostFilters.RangeIsInclusive` | MadLab.QueryFilter.Services/Services/Post/PostFilters/FilterByDateRange.cs:18 | posts dated exactly at the start or the end are kept |
| `PostFilters.InvertedRangeIsEmpty` | MadLab.QueryFilter.Services/Services/Post/PostFilters/FilterByDateRange.cs:18 | a range with start after end yields nothing |
| `PostFilters.EmptyKeywordKeepsAll` | MadLab.QueryFilter.Services.Test/Services/PostFiltersTest.cs:65-73 | the empty keyword keeps every post |
| `PostFilters.KeywordMissingFromTitlesMatchesNothing` | MadLab.QueryFilter.Services/Services/Post/PostFilters/FilterByKeyWord.cs:15 | a keyword holding a character no title holds matches nothing |
| `PostFilters.SampleTextHasThis` | MadLab.QueryFilter.Services.Test/Services/PostFiltersTest.cs:13 | the first sample post's text contains "This" |
| `PostFilters.TextIsNotSearched` | MadLab.QueryFilter.Services.Test/Services/PostFiltersTest.cs:45-53 | only titles are searched: "This", present in a text, finds no sample post |
| `PostFilters.UnknownKeywordMatchesNothing` | MadLab.QueryFilter.Services.Test/Services/PostFiltersTest.cs:55-63 | "notfound" finds no sample post |
| `PostFilters.TopMostVotedOrder` | MadLab.QueryFilter.Services/Services/Post/PostFilters/FilterTopMostVoted.cs:15 | the result has `min(max(0, n), |posts|)` posts; every post with a vote precedes every post without; it is a prefix of the stable reordering, with no post invented or repeated |
| `PostFilters.TopMostVotedIsStable` | MadLab.QueryFilter.Services/Services/Post/PostFilters/FilterTopMostVoted.cs:15 | the key is "has a vote", not the count: with room for all, posts with votes come first in input order, then the rest in input order |
| `PostFilters.StackedWhereFilters` | MadLab.QueryFilter.Services/Helpers/QueryBuilder.cs:34-37 | stacked `Where` filters keep exactly the posts every filter of the stack accepts |
| `PostFilters.StackedWhereFiltersKeepOrder` | MadLab.QueryFilter.Services/Helpers/QueryBuilder.cs:34-37 | stacked `Where` filters keep their survivors in input order |
| `MoodTypeFilters.MoodTypeFilter.Apply` | MadLab.QueryFilter.Services/Services/MoodType/MoodTypeFilters/FilterByIsAvailable.cs:16-19 | each mood filter keeps exactly the input moods its row test accepts (availability equal, term contained ignoring case, posts non-empty) |
| `MoodTypeFilters.MoodFilterKeepsOrder` | MadLab.QueryFilter.Services/Services/MoodType/MoodTypeFilters/FilterBySearchTerm.cs:17 | each mood filter's output is an order-preserving subsequence of its input |
| `MoodTypeFilters.MoodFilterIdempotent` | MadLab.QueryFilter.Services/Services/MoodType/MoodTypeFilters/FilterByOnlyWithPosts.cs:10 | applying a mood filter twice equals applying it once |
| `MoodTypeFilters.SearchIsCaseBlind` | MadLab.QueryFilter.Services/Services/MoodType/MoodTypeFilters/FilterBySearchTerm.cs:17 | a term and its upper- or lower-cased form select the same moods |
| `MoodTypeFilters.MoodWithNewPostIsIncluded` | MadLab.QueryFilter.Services.Test/Services/MoodTypeServiceTests.cs:62-82 | a mood that gains a post passes `FilterByOnlyWithPosts` |
| `MoodTypeFilters.SearchHappy` | MadLab.QueryFilter.Services.Test/Services/MoodTypeServiceTests.cs:53-60 | "Happy" over Happy, Sad, Angry, Excited keeps exactly Happy |
| `PostServices.Included` | MadLab.QueryFilter.Services/Services/Post/PostService.cs:32-38 | `Include` keeps every column; each navigation is loaded exactly when its foreign key names a row of the related table; with consistent related tables, each loaded author, post type and mood type has the post's key |
| `PostServices.BaseQuery` | MadLab.QueryFilter.Services/Services/Post/PostService.cs:32-38 | the builder's base query yields each table row with its navigations loaded |
| `PostServices.NewPost` | MadLab.QueryFilter.Services/Services/Post/PostService.cs:41-53 | the five DTO fields are copied; creation is at `now`; `PublishDate` is `now` exactly when published, null otherwise |
| `PostServices.UpdatedPost` | MadLab.QueryFilter.Services/Services/Post/PostService.cs:62-69 | six fields take the DTO's values; `PublishDate` is set to `now` only when published with none yet; an existing date is never cleared or moved, even on unpublish; nothing else changes |
| `PostServices.Count` | MadLab.QueryFilter.Services/Services/Post/PostService.cs:100-101 | a null collection counts 0 |
| `PostServices.ViewOf` | MadLab.QueryFilter.Services/Services/Post/PostService.cs:89-102 | the view copies identity, title, text, creation and publish dates and state; the author name, post type description and mood name are each null exactly when that navigation is, and otherwise read through it; counts of null collections are 0 |
| `PostServices.PostById` | MadLab.QueryFilter.Services/Services/Post/PostService.cs:79-103 | null exactly when no post has the identity; otherwise the view of the first post with it, navigations loaded |
| `PostServices.ToListDto` | MadLab.QueryFilter.Services/Services/Post/PostService.cs:129-141 | a post converts exactly when its three navigations are loaded, keeping its identity, keys, title, state and creation date, and taking the author's user name, the post type's description and the mood type's mood through the navigations; otherwise it faults with a null reference |
| `PostServices.ConvertToDto` | MadLab.QueryFilter.Services/Services/Post/PostService.cs:125-142 | one DTO per post in order, exactly when every post has its navigations; otherwise a null reference fault |
| `PostServices.Finish` | MadLab.QueryFilter.Services/Services/Post/PostService.cs:148-158 | `AddPaging`, `Build`, `ConvertToDto`: a builder whose paging is set refuses and stays as it was; otherwise the paging is set and the filters stay |
| `PostServices.FirstListCall` | MadLab.QueryFilter.Services/Services/Post/PostService.cs:144-315 | the first list call on a service, for any stack of distinct `Where` kinds, keeps the stack and the paging in the builder; it returns at most `pageSize` DTOs, each from a table post that with its navigations passes every filter; its only fault is a missing navigation |
| `PostServices.PublishedByAuthorIsTheAuthors` | MadLab.QueryFilter.Services/Services/Post/PostService.cs:179-194 | with consistent related tables, the by-author listing returns only published posts whose `AuthorId` is the requested one |
| `PostServices.FirstPageListsAllMatches` | MadLab.QueryFilter.Services/Services/Post/PostService.cs:144-315 | when all matches fit on page 1, a first list call returns every match, in table order |
| `PostServices.SecondListCallFails` | MadLab.QueryFilter.Services/Services/Post/PostService.cs:24-39 | the builder is created once; after a list call has set its paging, every later list call on it fails |
| `PostServices.CreatedPostIsFound` | MadLab.QueryFilter.Services/Services/Post/PostService.cs:41-55 | a post just created is what `GetPostById` returns for the new identity: no votes, no comments, and a publish date exactly when created published |
| `PostServices.PostService.constructor` | MadLab.QueryFilter.Services/Services/Post/PostService.cs:26-39 | a new builder over the base query with the three `Include`s |
| `PostServices.PostService.CreatePost` | MadLab.QueryFilter.Services/Services/Post/PostService.cs:41-55 | the table gains exactly the new post, under the next identity, and keeps identities unique |
| `PostServices.PostService.UpdatePost` | MadLab.QueryFilter.Services/Services/Post/PostService.cs:57-72 | a missing identity changes nothing; otherwise that post is replaced by its updated form and every other post stays |
| `PostServices.PostService.DeletePost` | MadLab.QueryFilter.Services/Services/Post/PostService.cs:74-77 | the post is removed; a missing identity faults with `ArgumentNullException("entity")` and changes nothing |
| `PostServices.PostService.GetPostById` | MadLab.QueryFilter.Services/Services/Post/PostService.cs:79-103 | reads the current table through `PostById` |
| `PostServices.PostService.GetAllPaged` | MadLab.QueryFilter.Services/Services/Post/PostService.cs:144-159 | no filter, then paging on the shared builder; result and new builder are `ListResult` of that stack |
| `PostServices.PostService.GetPublishedPaged` | MadLab.QueryFilter.Services/Services/Post/PostService.cs:161-177 | stacks published, then paging |
| `PostServices.PostService.GetPublishedPagedByAuthor` | MadLab.QueryFilter.Services/Services/Post/PostService.cs:179-194 | stacks published and author, then paging |
| `PostServices.PostService.SearchPublishedPaged` | MadLab.QueryFilter.Services/Services/Post/PostService.cs:196-206 | stacks published and keyword, then paging |
| `PostServices.PostService.SearchPublishedPagedByAuthor` | MadLab.QueryFilter.Services/Services/Post/PostService.cs:208-219 | stacks published, author and keyword, then paging |
| `PostServices.PostService.GetPublishedPagedByAuthorAndMoodTypeAndPostType` | MadLab.QueryFilter.Services/Services/Post/PostService.cs:221-233 | stacks published, author, mood type and post type, then paging |
| `PostServices.PostService.GetPublishedPagedByAuthorPostType` | MadLab.QueryFilter.Services/Services/Post/PostService.cs:235-246 | stacks published, author and post type, then paging |
| `PostServices.PostService.GetPublishedPagedByAuthorAndMood` | MadLab.QueryFilter.Services/Services/Post/PostService.cs:248-259 | stacks published, author and mood type, then paging |
| `PostServices.PostService.SearchPublishedPagedByAuthorAndMoodTypeAndPostType` | MadLab.QueryFilter.Services/Services/Post/PostService.cs:261-280 | stacks published, author, mood type, post type and keyword, then paging |
| `PostServices.PostService.SearchPublishedPagedByDateRangeAndKeyword` | MadLab.QueryFilter.Services/Services/Post/PostService.cs:283-315 | stacks published, date range and keyword, then paging |
| `MoodTypeServices.ConfigFilters` | MadLab.QueryFilter.Services/Services/MoodType/MoodTypeService.cs:91-106 | availability is added only when given, the search term only when not empty, posts only when asked, in that order, all of distinct kinds |
| `MoodTypeServices.ConfigPaging` | MadLab.QueryFilter.Services/Services/MoodType/MoodTypeService.cs:109-112 | paging exactly when `Paged`, with the configured number and size |
| `MoodTypeServices.ListDtoOf` | MadLab.QueryFilter.Services/Services/MoodType/MoodTypeService.cs:118-123 | the DTO carries the mood's identity, name and availability |
| `MoodTypeServices.GetResult` | MadLab.QueryFilter.Services/Services/MoodType/MoodTypeService.cs:87-125 | the builder ends as the configured request leaves it, and `Get` succeeds exactly when that request does |
| `MoodTypeServices.GetTail` | MadLab.QueryFilter.Services/Services/MoodType/MoodTypeService.cs:109-123 | once the filters are in, `Get` fails exactly when it asks for paging on a builder that already has it |
| `MoodTypeServices.FirstGet` | MadLab.QueryFilter.Services/Services/MoodType/MoodTypeService.cs:87-125 | on a new builder `Get` succeeds; paging is set exactly when asked; a paged result has at most `PageSize` moods; each DTO is of a table mood passing every configured filter; the default configuration lists every mood in order |
| `MoodTypeServices.StackedMoodFilters` | MadLab.QueryFilter.Services/Helpers/QueryBuilder.cs:34-37 | stacked mood filters keep exactly the moods every filter accepts |
| `MoodTypeServices.OnlyAvailableWhenAsked` | MadLab.QueryFilter.Services.Test/Services/MoodTypeServiceTests.cs:45-51 | asking for available moods returns only available ones |
| `MoodTypeServices.DefaultGetListsSeededMoods` | MadLab.QueryFilter.Services.Test/Services/MoodTypeServiceTests.cs:37-43 | the default configuration over the four seeded moods lists four |
| `MoodTypeServices.UnpagedFirstGet` | MadLab.QueryFilter.Services/Services/MoodType/MoodTypeService.cs:91-116 | unpaged, a first `Get` lists every mood passing the configured filters, in table order |
| `MoodTypeServices.SearchHappyListsHappy` | MadLab.QueryFilter.Services.Test/Services/MoodTypeServiceTests.cs:53-60 | searching "Happy" over the seeded moods lists exactly the one "Happy" |
| `MoodTypeServices.SecondPageOfFourteenMoods` | MadLab.QueryFilter.Services.Test/Services/MoodTypeServiceTests.cs:84-97 | page 2 of size 5 over 14 moods lists five |
| `MoodTypeServices.SecondGetFails` | MadLab.QueryFilter.Services/Services/MoodType/MoodTypeService.cs:87-112 | after a successful `Get`, a second one on the same builder fails when both are paged or both add the same kind of filter |
| `MoodTypeServices.UpdatedMood` | MadLab.QueryFilter.Services/Services/MoodType/MoodTypeService.cs:54-56 | exactly `Mood` and `IsAvailable` are overwritten; identity and posts stay |
| `MoodTypeServices.MoodById` | MadLab.QueryFilter.Services/Services/MoodType/MoodTypeService.cs:68-78 | a missing mood reads as identity 0, empty mood, unavailable; a present one as its own fields |
| `MoodTypeServices.MoodTypeService.constructor` | MadLab.QueryFilter.Services/Services/MoodType/MoodTypeService.cs:29-38 | a new builder over the mood table |
| `MoodTypeServices.MoodTypeService.CreateMoodType` | MadLab.QueryFilter.Services/Services/MoodType/MoodTypeService.cs:40-50 | the table gains exactly a mood without posts under the next identity, which `GetMoodTypeById` then reads back |
| `MoodTypeServices.MoodTypeService.UpdateMoodType` | MadLab.QueryFilter.Services/Services/MoodType/MoodTypeService.cs:52-60 | a missing identity faults with a null reference and changes nothing; otherwise that mood is replaced by its updated form and every other mood stays |
| `MoodTypeServices.MoodTypeService.DeleteMoodType` | MadLab.QueryFilter.Services/Services/MoodType/MoodTypeService.cs:62-67 | the mood is removed; a missing identity faults with `ArgumentNullException("entity")` and changes nothing |
| `MoodTypeServices.MoodTypeService.GetMoodTypeById` | MadLab.QueryFilter.Services/Services/MoodType/MoodTypeService.cs:68-78 | reads the current table through `MoodById` |
| `MoodTypeServices.MoodTypeService.Get` | MadLab.QueryFilter.Services/Services/MoodType/MoodTypeService.cs:87-125 | the result and new builder are `GetResult` of the configuration over the current table |
| `MoodTypeServices.MoodTypeService.AddConfiguredFilters` | MadLab.QueryFilter.Services/Services/MoodType/MoodTypeService.cs:91-106 | the three conditional `AddFilter` calls leave the builder and outcome of adding `ConfigFilters` in order, stopping at the first refusal |
| `DemoConsole.Truncate` | MadLab.QueryFilter.Demo.Console/Program.cs:49-53 | on a string of UTF-16 code units, as `Length` and `Substring` count them: null or "" gives ""; a value that fits is kept; a longer one gives its first `maxLength - 3` code units and "...", exactly `maxLength` code units long; below 3, `Substring` throws `ArgumentOutOfRangeException` |
| `DemoConsole.EncodeBmp` | MadLab.QueryFilter.Demo.Console/Program.cs:52 | text inside the Basic Multilingual Plane has one code unit per character, so `Length` is its character count |
| `DemoConsole.WideTextIsCutByCodeUnits` | MadLab.QueryFilter.Demo.Console/Program.cs:52 | two characters outside the Basic Multilingual Plane are four code units, so at width 3 only "..." is printed |
| `DemoConsole.CutCanSplitSurrogatePair` | MadLab.QueryFilter.Demo.Console/Program.cs:52 | "\U{1F600}abcd" at width 4 keeps a lone high surrogate followed by "...", as `Substring` cuts it |
| `DemoConsole.TruncateFits` | MadLab.QueryFilter.Demo.Console/Program.cs:52 | for columns at least 3 wide, truncation always succeeds and never exceeds the column |
| `DemoConsole.TruncateIdempotent` | MadLab.QueryFilter.Demo.Console/Program.cs:49-53 | truncating a truncated value changes nothing |
| `DemoConsole.TruncateKeepsPrefix` | MadLab.QueryFilter.Demo.Console/Program.cs:52 | what a long value keeps is a prefix of it, followed by "..." |

## Left out

- Entity Framework is not modelled: `AsNoTracking`, `SaveChangesAsync`, `ToListAsync`/`FirstOrDefaultAsync`, and change tracking. Calls are synchronous and the tables are sequences.
- `DataBaseContext.cs`, `IRepository.cs` and `DbInitilizer.cs` are not modelled; the last only seeds data from `System.Random` and the clock.
- Provider translation of queries is not modelled. `Contains` is ordinal. `OrdinalIgnoreCase` folds ASCII letters only.
- Table order. No query has an `OrderBy`, so row order is the table's order, taken to be ascending identity.
- New identities. The next identity is the last one plus 1. A database identity column never reuses a deleted identity; the model can.
- Clock. `CreatePost` reads `DateTime.UtcNow` twice, for the creation and publish dates. The model uses one `now` for both.
- Related tables. The `Include` calls read users, post types and mood types from fixed lookup maps. Those tables do not change while the services run.
- Votes and comments. `GetPostById` includes neither. Whether they are loaded (`Some`) or null (`None`) is taken from the stored row; the model does not decide it.
- `MoodType.Posts` is a list of post identities. The mood service's `Include(t => t.Posts)` is taken as already applied to the table rows.
- PostFilters.HasVotes: reads a `Votes` collection that is not loaded (`None`) as having no votes. The source, `post.Votes.Count >= 1` at `FilterTopMostVoted.cs:15`, has no null guard. In memory it would throw `NullReferenceException`. A database would count the vote rows whether or not the collection is loaded. So for a post whose vote rows exist but whose `votes` is `None`, `FilterTopMostVoted`'s ordering differs from the source's.
- `FilterByAuthor` tests `Author.Id`. A post whose author is not loaded never matches, which is the database semantics of the join.
- Null strings are not modelled: a null keyword, search term, title or mood. `MoodTypeFilterConfig.SearchTerm` being null is the same as it being empty.
- `ConvertToDto` is lazy in the source: a missing navigation faults only when the caller enumerates. The model converts eagerly and returns the fault as the result.
- `FilterTopMostVoted` is used by no service. It is modelled and proved on its own.
- The DTO classes `PostCreateDTO`, `PostUpdateDTO`, `MoodTypeCreateDTO`, `MoodTypeEdit`, `MoodTypeDTO` and `MoodTypeListDTO` are not part of this model's sources. Their fields come from how the services use them.
- Validation annotations (`Required`, `MaxLength`) are not modelled. Nothing in the code enforces them.
- Console output in `Program.cs` is not modelled, apart from `Truncate`.
- Strings other than `Truncate`'s are Dafny strings of Unicode scalar values, not UTF-16 code units: the filters only test equality and containment on them, never a length or a cut point, and lone surrogates are not represented.
- Two keyword tests are not modelled. `PostFiltersTest.cs:21-43` expects case-insensitive matching and a `filterAlsoByText` argument, but `FilterByKeyWord` has neither. The model follows the code: title only, ordinal.
- Paging.PageLength, Paging.PagePastEndIsEmpty and Paging.PagesTile: stated only when `(PageNumber - 1) * PageSize` does not overflow 32 bits. With overflow, the wrapped offset applies, as `PageIsSlice` and `OffsetWrapsAround` state.
- PostServices.FirstListCall: states the page bound and where each DTO comes from, not which page of the matches is shown. RequestOnFreshBuilder states the exact page; FirstPageListsAllMatches covers page 1.
- MoodTypeServices.SecondGetFails: covers a repeated paging or a repeated filter kind. A second `Get` with neither succeeds, but it narrows the filters and the paging already stored, and it reapplies them to an already composed query (BuildTwice). That second result is not stated.
- Store.RemoveKey: states which rows remain, not that they keep their order.
