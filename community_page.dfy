/** The community hub (src/pages/CommunityPage.tsx): a new post is built from
    the current user and the typed content, then put at the head of the
    students' or the mentors' list. */
module CommunityPage {
  import opened Types

  datatype Tab = StudentsTab | MentorsTab

  /** Placeholder target every new student post carries. */
  const NewTarget := "Newly Specified Target"

  /** The post `handleNewPostSubmit` builds; `id` stands for `Date.now()`. */
  function NewPost(user: User, content: string, id: int): (p: Post)
    ensures p.id == id && p.userId == user.id && p.name == user.name
    ensures p.avatar == user.avatar && p.verified == user.verified
    ensures user.StudentUser? ==>
              && p.needs == Some(content) && p.target == Some(NewTarget)
              && p.background == user.studentProfile.background
              && p.university.None? && p.major.None? && p.services.None?
    ensures user.MentorUser? ==>
              && p.services == Some(content)
              && p.university == Some(user.mentorProfile.university)
              && p.major == Some(user.mentorProfile.major)
              && p.background == user.mentorProfile.background
              && p.target.None? && p.needs.None?
  {
    match user
    case StudentUser(_, _, _, _, profile, _) =>
      Post(id, user.id, user.name, user.avatar, user.verified,
           None, None, profile.background, None, Some(NewTarget), Some(content))
    case MentorUser(_, _, _, _, profile) =>
      Post(id, user.id, user.name, user.avatar, user.verified,
           Some(profile.university), Some(profile.major), profile.background,
           Some(content), None, None)
  }

  /** The tab a user's new post is shown under. */
  function TabFor(user: User): (t: Tab)
    ensures t == StudentsTab <==> user.StudentUser?
  {
    if user.StudentUser? then StudentsTab else MentorsTab
  }

  class CommunityBoard {
    const currentUser: User
    var activeTab: Tab
    var isModalOpen: bool
    var studentPosts: seq<Post>
    var mentorPosts: seq<Post>

    /** The sample posts the page starts from are parameters. */
    constructor (currentUser: User, studentPosts: seq<Post>, mentorPosts: seq<Post>)
      ensures this.currentUser == currentUser && activeTab == StudentsTab && !isModalOpen
      ensures this.studentPosts == studentPosts && this.mentorPosts == mentorPosts
    {
      this.currentUser := currentUser;
      activeTab := StudentsTab;
      isModalOpen := false;
      this.studentPosts := studentPosts;
      this.mentorPosts := mentorPosts;
    }

    /** `handleNewPostSubmit`: exactly one list grows by the new post at its
        head, the older posts follow in their order, the other list is kept,
        and the tab switches to the list that grew. */
    method HandleNewPostSubmit(content: string, id: int)
      modifies this
      ensures activeTab == TabFor(currentUser) && isModalOpen == old(isModalOpen)
      ensures currentUser.StudentUser? ==>
                && studentPosts == [NewPost(currentUser, content, id)] + old(studentPosts)
                && mentorPosts == old(mentorPosts)
      ensures currentUser.MentorUser? ==>
                && mentorPosts == [NewPost(currentUser, content, id)] + old(mentorPosts)
                && studentPosts == old(studentPosts)
      ensures |studentPosts| + |mentorPosts| == old(|studentPosts| + |mentorPosts|) + 1
    {
      var post := NewPost(currentUser, content, id);
      if currentUser.StudentUser? {
        studentPosts := [post] + studentPosts;
        activeTab := StudentsTab;
      } else {
        mentorPosts := [post] + mentorPosts;
        activeTab := MentorsTab;
      }
    }
  }
}
