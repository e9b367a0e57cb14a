/**
 * The records of the application, as declared in src/types/index.ts.
 * An optional property is an Option; `any[]` lists of members and
 * collaborators hold either bare user ids or `{userId, role}` objects,
 * so they are lists of Member; `comments` is a count or an inline list.
 */
module Types {
  import opened Wrappers

  datatype User = User(
    id: string,
    name: string,
    email: string,
    bio: string,
    role: string,
    avatar: Option<string>,
    createdAt: string,
    password: Option<string>,
    skills: Option<seq<string>>)

  /** An entry of `collaborators` or `members`: a bare user id, or a `{userId, role}` object. */
  datatype Member = PlainId(id: string) | WithRole(userId: string, role: string)

  datatype Visibility = Public | Private

  datatype Comment = Comment(id: string, userId: string, content: string, createdAt: string)

  /** `comments: number | any[]`; NoComments is a run-time value that is neither (such as `undefined`). */
  datatype Comments = CommentCount(count: int) | CommentList(items: seq<Comment>) | NoComments

  datatype Idea = Idea(
    id: string,
    title: string,
    description: string,
    userId: Option<string>,
    creatorId: Option<string>,
    category: string,
    tags: seq<string>,
    visibility: Option<Visibility>,
    status: Option<string>,
    collaborators: seq<Member>,
    likes: int,
    views: int,
    comments: Comments,
    createdAt: string,
    updatedAt: string)

  datatype TaskStatus = Planned | InProgress | Completed | NotStarted

  datatype Task = Task(
    id: string,
    title: string,
    status: TaskStatus,
    assigneeId: string,
    description: Option<string>,
    createdAt: Option<string>,
    dueDate: Option<string>)

  datatype Project = Project(
    id: string,
    title: string,
    description: string,
    creatorId: string,
    category: string,
    status: string,
    progress: int,
    startDate: Option<string>,
    endDate: Option<string>,
    ideaId: Option<string>,
    members: seq<Member>,
    tags: seq<string>,
    tasks: seq<Task>,
    createdAt: string,
    updatedAt: string)

  datatype Message = Message(
    id: string,
    conversationId: Option<string>,
    sender: Option<string>,
    senderId: Option<string>,
    receiverId: Option<string>,
    content: string,
    createdAt: string,
    read: Option<bool>,
    isRead: Option<bool>)

  datatype LastMessage = LastMessage(content: string, timestamp: string)

  datatype Conversation = Conversation(
    id: string,
    participants: seq<User>,
    lastMessage: Option<LastMessage>,
    unreadCount: int,
    online: bool)

  datatype NotificationType =
    | NewCollaborator | CommentPosted | TaskAssigned | Like | MessageReceived
    | ProjectInvite | IdeaComment | MilestoneCompleted | ProjectUpdate

  datatype Notification = Notification(
    id: string,
    userId: string,
    kind: NotificationType,
    content: string,
    relatedId: Option<string>,
    link: Option<string>,
    createdAt: string,
    read: Option<bool>,
    isRead: Option<bool>)

  /** `Partial<User>`: each field present or absent. */
  datatype UserDraft = UserDraft(
    id: Option<string>,
    name: Option<string>,
    email: Option<string>,
    bio: Option<string>,
    role: Option<string>,
    avatar: Option<string>,
    createdAt: Option<string>,
    password: Option<string>,
    skills: Option<seq<string>>)

  const NoUserFields := UserDraft(None, None, None, None, None, None, None, None, None)

  /** `{...u, ...d}`: the fields present in d replace those of u. */
  function Overlay(u: User, d: UserDraft): User {
    User(
      d.id.GetOr(u.id),
      d.name.GetOr(u.name),
      d.email.GetOr(u.email),
      d.bio.GetOr(u.bio),
      d.role.GetOr(u.role),
      if d.avatar.Some? then d.avatar else u.avatar,
      d.createdAt.GetOr(u.createdAt),
      if d.password.Some? then d.password else u.password,
      if d.skills.Some? then d.skills else u.skills)
  }

  /** `Partial<Idea>`, for the fields that the create call or the new-idea form use. */
  datatype IdeaDraft = IdeaDraft(
    title: Option<string>,
    description: Option<string>,
    userId: Option<string>,
    category: Option<string>,
    tags: Option<seq<string>>,
    visibility: Option<Visibility>,
    collaborators: Option<seq<Member>>,
    likes: Option<int>,
    views: Option<int>,
    comments: Option<Comments>,
    createdAt: Option<string>,
    updatedAt: Option<string>)

  /** `Partial<Project>`, for the fields that the create call or the new-project form use. */
  datatype ProjectDraft = ProjectDraft(
    title: Option<string>,
    description: Option<string>,
    creatorId: Option<string>,
    category: Option<string>,
    status: Option<string>,
    progress: Option<int>,
    startDate: Option<string>,
    endDate: Option<string>,
    ideaId: Option<string>,
    members: Option<seq<Member>>,
    tags: Option<seq<string>>,
    tasks: Option<seq<Task>>,
    createdAt: Option<string>,
    updatedAt: Option<string>)

  /** `Partial<Message>`, for the fields that the send call uses. */
  datatype MessageDraft = MessageDraft(
    conversationId: Option<string>,
    sender: Option<string>,
    content: Option<string>)

  /** `user?.id || ''`: the signed-in user's id, or the empty string. */
  function UserIdOf(user: Option<User>): string {
    if user.Some? then user.value.id else ""
  }

  /** `x || d` for an optional string: absent and empty are both falsy. */
  function OrElse(x: Option<string>, d: string): string {
    if x.Some? && x.value != "" then x.value else d
  }
}
