/**
 * The mock query service of src/services/test-api.ts: read, filter and
 * "create" operations over seed collections that are never mutated.
 * Every `{...x}` copy is the record itself here, since records are values.
 * The create operations build a fresh record and do not add it to the store,
 * so their ids come from the unchanged store length.
 */
module TestApi {
  import opened Wrappers
  import opened Types
  import opened Js
  import opened Seqs

  // ---------------------------------------------------------------- seed data

  function SeedUser(id: string, name: string, email: string, bio: string, role: string, avatar: string, createdAt: string): User {
    User(id, name, email, bio, role, Some(avatar), createdAt, None, None)
  }

  function TestUsers(): seq<User> {
    [ SeedUser("user1", "李明", "test@example.com", "创意设计师和产品经理，热爱创新和解决问题。",
        "DESIGNER", "/avatars/user1.jpg", "2023-01-15T08:30:00Z"),
      SeedUser("user2", "张伟", "zhang@example.com", "资深软件工程师，专注于Web开发和人工智能应用。",
        "DEVELOPER", "/avatars/user2.jpg", "2023-02-20T10:15:00Z"),
      SeedUser("user3", "王芳", "wang@example.com", "市场营销专家，擅长品牌策略和用户增长。",
        "MARKETER", "/avatars/user3.jpg", "2023-03-10T14:45:00Z"),
      SeedUser("user4", "赵静", "zhao@example.com", "内容创作者，专注于讲述引人入胜的故事和视频制作。",
        "CONTENT_CREATOR", "/avatars/user4.jpg", "2023-04-05T09:20:00Z"),
      SeedUser("user5", "陈强", "chen@example.com", "项目管理专家，擅长团队协作和资源优化。",
        "PROJECT_MANAGER", "/avatars/user5.jpg", "2023-05-12T11:30:00Z") ]
  }

  function SeedIdea(id: string, title: string, description: string, userId: string, category: string,
                    tags: seq<string>, visibility: Visibility, collaborators: seq<Member>,
                    likes: int, views: int, comments: int, createdAt: string, updatedAt: string): Idea {
    Idea(id, title, description, Some(userId), None, category, tags, Some(visibility), None,
         collaborators, likes, views, CommentCount(comments), createdAt, updatedAt)
  }

  function TestIdeas(): seq<Idea> {
    [ SeedIdea("idea1", "智能家居控制中心",
        "开发一个集成所有智能家居设备的控制中心，通过AI助手实现语音和自动化控制，提高生活便利性。",
        "user1", "科技", ["智能家居", "AI", "自动化"], Public, [PlainId("user2"), PlainId("user3")],
        42, 156, 15, "2023-06-15T08:30:00Z", "2023-06-15T08:30:00Z"),
      SeedIdea("idea2", "可持续时尚电商平台",
        "创建一个专注于可持续和道德时尚的电商平台，连接环保品牌与意识消费者，并提供透明的供应链信息。",
        "user3", "时尚", ["可持续发展", "电商", "道德消费"], Public, [PlainId("user4")],
        35, 128, 9, "2023-06-18T10:15:00Z", "2023-06-18T10:15:00Z"),
      SeedIdea("idea3", "社区农业连接应用",
        "开发一个应用，连接本地农民与消费者，促进农产品直销，减少食物里程，支持社区农业发展。",
        "user2", "农业", ["本地农业", "可持续发展", "社区支持"], Public, [PlainId("user5")],
        28, 112, 14, "2023-06-20T14:45:00Z", "2023-06-21T09:30:00Z"),
      SeedIdea("idea4", "学习技能交换平台",
        "创建一个平台，让用户可以交换技能学习时间，例如语言交换、音乐课程交换等，促进社区学习和文化交流。",
        "user5", "教育", ["技能交换", "社区学习", "知识共享"], Public, [],
        22, 95, 7, "2023-06-22T09:20:00Z", "2023-06-22T09:20:00Z"),
      SeedIdea("idea5", "心理健康追踪和支持应用",
        "开发一个应用，帮助用户追踪情绪变化，提供个性化的心理健康建议，并在需要时连接专业咨询师。",
        "user4", "健康", ["心理健康", "自我照顾", "健康科技"], Private, [PlainId("user1")],
        19, 82, 5, "2023-06-25T11:30:00Z", "2023-06-26T15:45:00Z"),
      SeedIdea("idea6", "城市绿化众筹平台",
        "创建一个平台，让市民可以为当地的城市绿化项目众筹，并参与规划和实施过程，增加城市绿地和可持续性。",
        "user1", "环境", ["城市绿化", "众筹", "社区参与"], Public, [PlainId("user2"), PlainId("user5")],
        31, 118, 12, "2023-06-28T16:20:00Z", "2023-06-29T10:10:00Z") ]
  }

  function SeedTask(id: string, title: string, status: TaskStatus, assigneeId: string): Task {
    Task(id, title, status, assigneeId, None, None, None)
  }

  function SeedProject(id: string, title: string, description: string, creatorId: string, category: string,
                       status: string, progress: int, startDate: string, endDate: string, ideaId: string,
                       members: seq<Member>, tags: seq<string>, tasks: seq<Task>,
                       createdAt: string, updatedAt: string): Project {
    Project(id, title, description, creatorId, category, status, progress, Some(startDate), Some(endDate),
            Some(ideaId), members, tags, tasks, createdAt, updatedAt)
  }

  function TestProjects(): seq<Project> {
    [ SeedProject("project1", "智能家居控制系统开发",
        "基于创意\"智能家居控制中心\"，我们正在开发一个集成所有智能家居设备的控制系统，通过AI助手实现语音和自动化控制。",
        "user1", "科技开发", "进行中", 65, "2023-07-01T00:00:00Z", "2023-10-30T00:00:00Z", "idea1",
        [PlainId("user1"), PlainId("user2"), PlainId("user3")], ["智能家居", "AI", "软件开发"],
        [ SeedTask("task1", "系统架构设计", Completed, "user2"),
          SeedTask("task2", "前端界面开发", InProgress, "user1"),
          SeedTask("task3", "AI语音识别集成", Planned, "user3") ],
        "2023-07-01T09:00:00Z", "2023-08-15T14:30:00Z"),
      SeedProject("project2", "可持续时尚品牌孵化",
        "基于创意\"可持续时尚电商平台\"，我们正在孵化3个可持续时尚品牌，并开发线上销售渠道，推广环保理念。",
        "user3", "时尚创业", "规划中", 25, "2023-08-01T00:00:00Z", "2024-02-28T00:00:00Z", "idea2",
        [PlainId("user3"), PlainId("user4"), PlainId("user5")], ["可持续时尚", "品牌建设", "电商"],
        [ SeedTask("task4", "市场调研", Completed, "user3"),
          SeedTask("task5", "品牌策略制定", InProgress, "user4"),
          SeedTask("task6", "供应商筛选", Planned, "user5") ],
        "2023-08-01T10:15:00Z", "2023-08-20T16:45:00Z"),
      SeedProject("project3", "社区农业网络构建",
        "基于创意\"社区农业连接应用\"，我们正在建立一个连接当地农民与消费者的网络，促进有机农产品直销。",
        "user2", "农业创新", "进行中", 45, "2023-07-15T00:00:00Z", "2023-12-15T00:00:00Z", "idea3",
        [PlainId("user2"), PlainId("user5"), PlainId("user1")], ["社区农业", "本地食品", "可持续发展"],
        [ SeedTask("task7", "农民需求调研", Completed, "user5"),
          SeedTask("task8", "平台原型设计", Completed, "user1"),
          SeedTask("task9", "初步农民网络建设", InProgress, "user2") ],
        "2023-07-15T08:30:00Z", "2023-08-10T11:20:00Z"),
      SeedProject("project4", "心理健康应用开发",
        "基于创意\"心理健康追踪和支持应用\"，我们正在开发一款情绪追踪应用，帮助用户了解和改善心理健康状态。",
        "user4", "健康科技", "已完成", 100, "2023-06-01T00:00:00Z", "2023-08-31T00:00:00Z", "idea5",
        [PlainId("user4"), PlainId("user1"), PlainId("user2")], ["心理健康", "应用开发", "健康科技"],
        [ SeedTask("task10", "用户研究", Completed, "user4"),
          SeedTask("task11", "应用设计和开发", Completed, "user2"),
          SeedTask("task12", "心理健康专家咨询", Completed, "user1") ],
        "2023-06-01T14:00:00Z", "2023-08-31T09:45:00Z"),
      SeedProject("project5", "技能交换平台测试",
        "基于创意\"学习技能交换平台\"，我们正在测试一个允许用户交换技能学习时间的平台原型，收集用户反馈。",
        "user5", "教育创新", "进行中", 80, "2023-08-15T00:00:00Z", "2023-09-30T00:00:00Z", "idea4",
        [PlainId("user5"), PlainId("user3")], ["技能交换", "平台测试", "教育科技"],
        [ SeedTask("task13", "平台设计", Completed, "user5"),
          SeedTask("task14", "原型开发", Completed, "user3"),
          SeedTask("task15", "用户测试", InProgress, "user5") ],
        "2023-08-15T11:30:00Z", "2023-09-10T15:20:00Z") ]
  }

  function SeedMessage(id: string, conversationId: string, sender: string, content: string,
                       createdAt: string, read: bool): Message {
    Message(id, Some(conversationId), Some(sender), None, None, content, createdAt, Some(read), None)
  }

  function TestMessages(): seq<Message> {
    [ SeedMessage("msg1", "conv1", "user2", "你好，关于智能家居项目，我们需要讨论一下接口设计问题。",
        "2023-08-20T09:15:00Z", true),
      SeedMessage("msg2", "conv1", "user1", "没问题，我已经准备了一些想法。你什么时候有空？",
        "2023-08-20T09:20:00Z", true),
      SeedMessage("msg3", "conv1", "user2", "今天下午3点如何？我们可以线上会议讨论。",
        "2023-08-20T09:25:00Z", true),
      SeedMessage("msg4", "conv1", "user1", "3点可以，我会发会议链接给你。",
        "2023-08-20T09:30:00Z", true),
      SeedMessage("msg5", "conv2", "user3", "嗨，关于可持续时尚品牌的市场定位，你有什么建议？",
        "2023-08-21T10:15:00Z", false),
      SeedMessage("msg6", "conv2", "user4", "我认为我们应该定位于25-35岁的环保意识较强的年轻专业人士。",
        "2023-08-21T10:20:00Z", false),
      SeedMessage("msg7", "conv3", "user5", "社区农业项目的调研报告已经完成，你要看一下吗？",
        "2023-08-22T14:30:00Z", false),
      SeedMessage("msg8", "conv3", "user2", "当然，请分享给我。我们需要基于这个报告调整我们的策略。",
        "2023-08-22T14:35:00Z", true) ]
  }

  /** The participants are the seed users found by id (user1 is TestUsers()[0], and so on). */
  function TestConversations(): seq<Conversation> {
    var u := TestUsers();
    [ Conversation("conv1", [u[0], u[1]],
        Some(LastMessage("3点可以，我会发会议链接给你。", "2023-08-20T09:30:00Z")), 0, true),
      Conversation("conv2", [u[2], u[3]],
        Some(LastMessage("我认为我们应该定位于25-35岁的环保意识较强的年轻专业人士。", "2023-08-21T10:20:00Z")), 2, false),
      Conversation("conv3", [u[1], u[4]],
        Some(LastMessage("当然，请分享给我。我们需要基于这个报告调整我们的策略。", "2023-08-22T14:35:00Z")), 1, true) ]
  }

  function SeedNotification(id: string, userId: string, kind: NotificationType, content: string,
                            relatedId: string, createdAt: string, read: bool): Notification {
    Notification(id, userId, kind, content, Some(relatedId), None, createdAt, Some(read), None)
  }

  function TestNotifications(): seq<Notification> {
    [ SeedNotification("notif1", "user1", NewCollaborator, "张伟加入了您的项目\"智能家居控制系统开发\"",
        "project1", "2023-08-15T09:00:00Z", false),
      SeedNotification("notif2", "user1", CommentPosted, "张伟在您的创意\"智能家居控制中心\"上发表了评论",
        "idea1", "2023-08-16T10:30:00Z", true),
      SeedNotification("notif3", "user1", TaskAssigned, "您被分配了任务\"前端界面开发\"",
        "task2", "2023-08-17T11:15:00Z", false),
      SeedNotification("notif4", "user1", Like, "王芳赞了您的创意\"智能家居控制中心\"",
        "idea1", "2023-08-18T14:20:00Z", false) ]
  }

  /** The module-level arrays the service reads; the queries take them as a parameter. */
  datatype Store = Store(
    users: seq<User>,
    ideas: seq<Idea>,
    projects: seq<Project>,
    messages: seq<Message>,
    conversations: seq<Conversation>,
    notifications: seq<Notification>)

  /** The seed arrays of the service. */
  function Seed(): Store {
    Store(TestUsers(), TestIdeas(), TestProjects(), TestMessages(), TestConversations(), TestNotifications())
  }

  // -------------------------------------------------------------------- users

  /** UsersTestApi.getById: the user with that id, or null. */
  function UsersGetById(db: Store, id: string): (r: Option<User>)
    ensures r.None? <==> forall i :: 0 <= i < |db.users| ==> db.users[i].id != id
    ensures r.Some? ==> r.value in db.users && r.value.id == id
    ensures r.Some? ==>
      exists i :: 0 <= i < |db.users| && db.users[i] == r.value
        && forall j :: 0 <= j < i ==> db.users[j].id != id
  {
    Find(db.users, (u: User) => u.id == id)
  }

  /** The password every account accepts in UsersTestApi.login. */
  const TestPassword := "password"

  /** UsersTestApi.login: any password but the test password fails; otherwise the user with that email, or null. */
  function Login(db: Store, email: string, password: string): (r: Option<User>)
    ensures password != TestPassword ==> r.None?
    ensures r.Some? ==> r.value in db.users && r.value.email == email
    ensures password == TestPassword && (exists i :: 0 <= i < |db.users| && db.users[i].email == email) ==> r.Some?
    ensures r.Some? ==>
      exists i :: 0 <= i < |db.users| && db.users[i] == r.value
        && forall j :: 0 <= j < i ==> db.users[j].email != email
  {
    if password != TestPassword then None
    else Find(db.users, (u: User) => u.email == email)
  }

  /** UsersTestApi.register: a fresh user numbered after the store, with defaults for the missing fields; not stored. */
  function Register(db: Store, d: UserDraft, now: string): (r: User)
    ensures r.id == "user" + NatToString(|db.users| + 1)
    ensures r.name == OrElse(d.name, "New User") && r.email == OrElse(d.email, r.id + "@example.com")
    ensures r.bio == OrElse(d.bio, "") && r.role == OrElse(d.role, "USER") && r.avatar == Some(OrElse(d.avatar, ""))
    ensures r.createdAt == now && r.password.None?
  {
    var n := NatToString(|db.users| + 1);
    User("user" + n, OrElse(d.name, "New User"), OrElse(d.email, "user" + n + "@example.com"),
         OrElse(d.bio, ""), OrElse(d.role, "USER"), Some(OrElse(d.avatar, "")), now, None, None)
  }

  // -------------------------------------------------------------------- ideas

  function IdeasGetAll(db: Store): seq<Idea> {
    db.ideas
  }

  /** IdeasTestApi.getById: the idea with that id, or null. */
  function IdeasGetById(db: Store, id: string): (r: Option<Idea>)
    ensures r.None? <==> forall i :: 0 <= i < |db.ideas| ==> db.ideas[i].id != id
    ensures r.Some? ==> r.value in db.ideas && r.value.id == id
    ensures r.Some? ==>
      exists i :: 0 <= i < |db.ideas| && db.ideas[i] == r.value
        && forall j :: 0 <= j < i ==> db.ideas[j].id != id
  {
    Find(db.ideas, (i: Idea) => i.id == id)
  }

  /** The user owns the idea or is listed (by bare id) among its collaborators. */
  predicate OwnsOrCollaborates(i: Idea, userId: string) {
    i.userId == Some(userId) || PlainId(userId) in i.collaborators
  }

  /** IdeasTestApi.getByUser: exactly the ideas the user owns or collaborates on, in store order. */
  function IdeasGetByUser(db: Store, userId: string): (r: seq<Idea>)
    ensures forall k :: 0 <= k < |r| ==> r[k] in db.ideas && OwnsOrCollaborates(r[k], userId)
    ensures forall k :: 0 <= k < |db.ideas| && OwnsOrCollaborates(db.ideas[k], userId) ==> db.ideas[k] in r
    ensures multiset(r) <= multiset(db.ideas)
  {
    Filter(db.ideas, (i: Idea) => OwnsOrCollaborates(i, userId))
  }

  /** IdeasTestApi.create: a fresh idea numbered after the store, counters zero, defaults for the rest; not stored. */
  function IdeasCreate(db: Store, d: IdeaDraft, now: string): (r: Idea)
    ensures r.id == "idea" + NatToString(|db.ideas| + 1)
    ensures r.likes == 0 && r.views == 0 && r.comments == CommentCount(0)
    ensures r.visibility == Some(d.visibility.GetOr(Private))
    ensures r.collaborators == d.collaborators.GetOr([])
    ensures r.createdAt == now && r.updatedAt == now
  {
    Idea("idea" + NatToString(|db.ideas| + 1),
         OrElse(d.title, "New Idea"),
         OrElse(d.description, ""),
         Some(OrElse(d.userId, "user1")),
         None,
         OrElse(d.category, "Other"),
         d.tags.GetOr([]),
         Some(d.visibility.GetOr(Private)),
         None,
         d.collaborators.GetOr([]),
         0, 0, CommentCount(0), now, now)
  }

  // ----------------------------------------------------------------- projects

  function ProjectsGetAll(db: Store): seq<Project> {
    db.projects
  }

  /** ProjectsTestApi.getById: the project with that id, or null. */
  function ProjectsGetById(db: Store, id: string): (r: Option<Project>)
    ensures r.None? <==> forall i :: 0 <= i < |db.projects| ==> db.projects[i].id != id
    ensures r.Some? ==> r.value in db.projects && r.value.id == id
    ensures r.Some? ==>
      exists i :: 0 <= i < |db.projects| && db.projects[i] == r.value
        && forall j :: 0 <= j < i ==> db.projects[j].id != id
  {
    Find(db.projects, (p: Project) => p.id == id)
  }

  /** The user created the project or is listed (by bare id) among its members. */
  predicate CreatesOrMembers(p: Project, userId: string) {
    p.creatorId == userId || PlainId(userId) in p.members
  }

  /** ProjectsTestApi.getByUser: exactly the projects the user created or is a member of, in store order. */
  function ProjectsGetByUser(db: Store, userId: string): (r: seq<Project>)
    ensures forall k :: 0 <= k < |r| ==> r[k] in db.projects && CreatesOrMembers(r[k], userId)
    ensures forall k :: 0 <= k < |db.projects| && CreatesOrMembers(db.projects[k], userId) ==> db.projects[k] in r
    ensures multiset(r) <= multiset(db.projects)
  {
    Filter(db.projects, (p: Project) => CreatesOrMembers(p, userId))
  }

  /** `x || 0` on an optional number. */
  function OrZero(x: Option<int>): int {
    if x.Some? then x.value else 0
  }

  /**
   * ProjectsTestApi.create: a fresh project numbered after the store, with defaults
   * for the missing fields; `now` and `in90Days` are the clock readings it stamps. Not stored.
   */
  function ProjectsCreate(db: Store, d: ProjectDraft, now: string, in90Days: string): (r: Project)
    ensures r.id == "project" + NatToString(|db.projects| + 1)
    ensures r.status == OrElse(d.status, "规划中") && r.progress == OrZero(d.progress)
    ensures r.members == d.members.GetOr([]) && r.tasks == d.tasks.GetOr([])
    ensures r.createdAt == now && r.updatedAt == now
  {
    Project("project" + NatToString(|db.projects| + 1),
            OrElse(d.title, "New Project"),
            OrElse(d.description, ""),
            OrElse(d.creatorId, "user1"),
            OrElse(d.category, "Other"),
            OrElse(d.status, "规划中"),
            OrZero(d.progress),
            Some(OrElse(d.startDate, now)),
            Some(OrElse(d.endDate, in90Days)),
            Some(OrElse(d.ideaId, "")),
            d.members.GetOr([]),
            d.tags.GetOr([]),
            d.tasks.GetOr([]),
            now, now)
  }

  // ----------------------------------------------------------------- messages

  /** Some seed conversation has the message's conversation id and the user among its participants. */
  predicate InConversationWith(db: Store, m: Message, userId: string) {
    var convs := db.conversations;
    exists c :: 0 <= c < |convs| && m.conversationId == Some(convs[c].id)
      && exists p :: 0 <= p < |convs[c].participants| && convs[c].participants[p].id == userId
  }

  /** The message was sent by the user or belongs to one of the user's conversations. */
  predicate VisibleTo(db: Store, m: Message, userId: string) {
    m.sender == Some(userId) || InConversationWith(db, m, userId)
  }

  /** `!msg.read`: a missing flag counts as unread. */
  predicate Unread(m: Message) {
    m.read != Some(true)
  }

  /** Unread, sent by someone else, in one of the user's conversations. */
  predicate UnreadFor(db: Store, m: Message, userId: string) {
    m.sender != Some(userId) && Unread(m) && InConversationWith(db, m, userId)
  }

  /** MessagesTestApi.getMessages: the messages the user sent or that are in the user's conversations. */
  function GetMessages(db: Store, userId: string): (r: seq<Message>)
    ensures forall k :: 0 <= k < |r| ==> r[k] in db.messages && VisibleTo(db, r[k], userId)
    ensures forall k :: 0 <= k < |db.messages| && VisibleTo(db, db.messages[k], userId) ==> db.messages[k] in r
  {
    Filter(db.messages, (m: Message) => VisibleTo(db, m, userId))
  }

  /** MessagesTestApi.getUnreadCount. */
  function MessagesUnreadCount(db: Store, userId: string): nat {
    |Filter(db.messages, (m: Message) => UnreadFor(db, m, userId))|
  }

  /** The unread count is the number of the user's messages that are unread and sent by someone else, so at most their number. */
  lemma MessagesUnreadCountOfMessages(db: Store, userId: string)
    ensures MessagesUnreadCount(db, userId)
      == |Filter(GetMessages(db, userId), (m: Message) => m.sender != Some(userId) && Unread(m))|
    ensures MessagesUnreadCount(db, userId) <= |GetMessages(db, userId)|
  {
    FilterFilter(db.messages, (m: Message) => VisibleTo(db, m, userId),
                 (m: Message) => m.sender != Some(userId) && Unread(m),
                 (m: Message) => UnreadFor(db, m, userId));
  }

  /** MessagesTestApi.sendMessage: a fresh message numbered after the store, unread; not stored. */
  function SendMessage(db: Store, d: MessageDraft, now: string): (r: Message)
    ensures r.id == "msg" + NatToString(|db.messages| + 1)
    ensures r.conversationId == Some(OrElse(d.conversationId, "conv1"))
    ensures r.sender == Some(OrElse(d.sender, "user1")) && r.content == OrElse(d.content, "")
    ensures r.read == Some(false)
  {
    Message("msg" + NatToString(|db.messages| + 1),
            Some(OrElse(d.conversationId, "conv1")),
            Some(OrElse(d.sender, "user1")),
            None, None,
            OrElse(d.content, ""),
            now, Some(false), None)
  }

  function GetConversations(db: Store): seq<Conversation> {
    db.conversations
  }

  /** MessagesTestApi.getMessagesByConversation: the messages of that conversation, in store order. */
  function GetMessagesByConversation(db: Store, conversationId: string): (r: seq<Message>)
    ensures forall k :: 0 <= k < |r| ==> r[k] in db.messages && r[k].conversationId == Some(conversationId)
    ensures forall k :: 0 <= k < |db.messages| && db.messages[k].conversationId == Some(conversationId) ==>
      db.messages[k] in r
  {
    Filter(db.messages, (m: Message) => m.conversationId == Some(conversationId))
  }

  // ------------------------------------------------------------ notifications

  /** NotificationsTestApi.getByUser: the notifications addressed to the user. */
  function NotificationsGetByUser(db: Store, userId: string): (r: seq<Notification>)
    ensures forall k :: 0 <= k < |r| ==> r[k] in db.notifications && r[k].userId == userId
    ensures forall k :: 0 <= k < |db.notifications| && db.notifications[k].userId == userId ==>
      db.notifications[k] in r
  {
    Filter(db.notifications, (n: Notification) => n.userId == userId)
  }

  /** NotificationsTestApi.getUnreadCount. */
  function NotificationsUnreadCount(db: Store, userId: string): nat {
    |Filter(db.notifications, (n: Notification) => n.userId == userId && n.read != Some(true))|
  }

  /** The unread count is the number of the user's notifications that are unread. */
  lemma NotificationsUnreadCountOfUser(db: Store, userId: string)
    ensures NotificationsUnreadCount(db, userId)
      == |Filter(NotificationsGetByUser(db, userId), (n: Notification) => n.read != Some(true))|
    ensures NotificationsUnreadCount(db, userId) <= |NotificationsGetByUser(db, userId)|
  {
    FilterFilter(db.notifications, (n: Notification) => n.userId == userId,
                 (n: Notification) => n.read != Some(true),
                 (n: Notification) => n.userId == userId && n.read != Some(true));
  }

  // ------------------------------------------------------------ seed behaviour

  /** The test account logs in with the shared password and is user1. */
  lemma SeedLogin(db: Store)
    requires db.users == TestUsers()
    ensures Login(db, "test@example.com", TestPassword) == Some(TestUsers()[0])
    ensures Login(db, "test@example.com", "password123").None?
  {
    assert TestUsers()[0].email == "test@example.com";
  }

  /** Who each seed notification is for and whether it is read. */
  predicate NotificationFlagsOfUser1(ns: seq<Notification>) {
    |ns| == 4
    && (forall k :: 0 <= k < 4 ==> ns[k].userId == "user1")
    && ns[1].read == Some(true)
    && ns[0].read == ns[2].read == ns[3].read == Some(false)
  }

  /** Counting over four notifications of user1, one of which is read. */
  lemma {:induction false} NotificationsOfUser1(db: Store)
    requires NotificationFlagsOfUser1(db.notifications)
    ensures |NotificationsGetByUser(db, "user1")| == 4
    ensures NotificationsUnreadCount(db, "user1") == 3
  {
    var ns := db.notifications;
    var mine := (n: Notification) => n.userId == "user1";
    var unread := (n: Notification) => n.userId == "user1" && n.read != Some(true);
    FilterLengthCons(ns[3..], mine);
    FilterLengthCons(ns[2..], mine);
    FilterLengthCons(ns[1..], mine);
    FilterLengthCons(ns, mine);
    FilterLengthCons(ns[3..], unread);
    FilterLengthCons(ns[2..], unread);
    FilterLengthCons(ns[1..], unread);
    FilterLengthCons(ns, unread);
  }

  /** In the seed, user1 has three unread notifications out of four. */
  lemma SeedNotificationsOfUser1(db: Store)
    requires db.notifications == TestNotifications()
    ensures |NotificationsGetByUser(db, "user1")| == 4
    ensures NotificationsUnreadCount(db, "user1") == 3
  {
    assert NotificationFlagsOfUser1(TestNotifications());
    NotificationsOfUser1(db);
  }

  /** The ids of the ideas, in store order. */
  function IdeaIds(ideas: seq<Idea>): (r: seq<string>)
    ensures |r| == |ideas| && forall k :: 0 <= k < |r| ==> r[k] == ideas[k].id
  {
    seq(|ideas|, k requires 0 <= k < |ideas| => ideas[k].id)
  }

  const SeedIdeaIds := ["idea1", "idea2", "idea3", "idea4", "idea5", "idea6"]

  /** The seed ideas are idea1 to idea6. */
  lemma SeedIdeasNumbered()
    ensures IdeaIds(TestIdeas()) == SeedIdeaIds
  {
  }

  /** Over ideas numbered idea1 to idea6, a created idea is idea7 and, not being stored, is not found. */
  lemma CreatedIdeaNotFound(db: Store, d: IdeaDraft, now: string)
    requires IdeaIds(db.ideas) == SeedIdeaIds
    ensures IdeasCreate(db, d, now).id == "idea7"
    ensures IdeasGetById(db, "idea7").None?
  {
    assert NatToString(7) == "7";
    forall k | 0 <= k < |db.ideas| ensures db.ideas[k].id != "idea7" {
      assert IdeaIds(db.ideas)[k] in SeedIdeaIds;
    }
  }

  /** The ids of the projects, in store order. */
  function ProjectIds(projects: seq<Project>): (r: seq<string>)
    ensures |r| == |projects| && forall k :: 0 <= k < |r| ==> r[k] == projects[k].id
  {
    seq(|projects|, k requires 0 <= k < |projects| => projects[k].id)
  }

  const SeedProjectIds := ["project1", "project2", "project3", "project4", "project5"]

  /** The seed projects are project1 to project5. */
  lemma SeedProjectsNumbered()
    ensures ProjectIds(TestProjects()) == SeedProjectIds
  {
  }

  /** Over projects numbered project1 to project5, a created project is project6 and, not being stored, is not found. */
  lemma CreatedProjectNotFound(db: Store, d: ProjectDraft, now: string, in90Days: string)
    requires ProjectIds(db.projects) == SeedProjectIds
    ensures ProjectsCreate(db, d, now, in90Days).id == "project6"
    ensures ProjectsGetById(db, "project6").None?
  {
    assert NatToString(6) == "6";
    forall k | 0 <= k < |db.projects| ensures db.projects[k].id != "project6" {
      assert ProjectIds(db.projects)[k] in SeedProjectIds;
    }
  }
}
