/** The persisted entities the core reads and writes, and the repository as a
    keyed table. `DateTime` is an `int` tick count; a navigation property or
    collection that has not been loaded is `None`. */
module Domain {
  import opened Wrappers

  datatype User = User(
    id: int,
    userName: string,
    profilePicture: Option<string>,
    firstName: string,
    lastName: string,
    dateOfBirth: Option<int>,
    isActive: bool)

  datatype PostType = PostType(id: int, description: string, isAvailable: bool)

  /** `posts` is the `Posts` collection, given by the ids of the posts that refer to the mood. */
  datatype MoodType = MoodType(id: int, mood: string, isAvailable: bool, posts: seq<int>)

  datatype PostVote = PostVote(id: int, postId: int, userId: int, iLikedThis: bool, voteDate: int)

  datatype PostComment = PostComment(
    id: int, postId: int, applicationUserInfoId: int, commentDate: int, commentText: string)

  datatype Post = Post(
    id: int,
    authorId: int,
    author: Option<User>,
    postTypeId: int,
    postType: Option<PostType>,
    moodTypeId: int,
    moodType: Option<MoodType>,
    title: string,
    text: string,
    creationDate: int,
    publishDate: Option<int>,
    isPublished: bool,
    votes: Option<seq<PostVote>>,
    comments: Option<seq<PostComment>>)
}
