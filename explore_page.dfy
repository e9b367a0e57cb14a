/**
 * The explore page (src/app/explore/page.tsx): trending ideas, featured
 * projects and the creator list, each computed once when the page loads.
 * Parsing `createdAt` into milliseconds is the `getTime` parameter.
 */
module ExplorePage {
  import opened Wrappers
  import opened Types
  import opened Js
  import opened Sorting
  import TestApi

  const ShownCount := 6

  /** `comments` as a number: a list counts its entries, a number stays, anything else is 0. */
  function NormalizeComments(i: Idea): (r: Idea)
    ensures r.comments.CommentCount?
    ensures i.comments.CommentList? ==> r.comments.count == |i.comments.items|
    ensures i.comments.CommentCount? ==> r == i
    ensures r.(comments := i.comments) == i
  {
    match i.comments
    case CommentList(items) => i.(comments := CommentCount(|items|))
    case CommentCount(_) => i
    case NoComments => i.(comments := CommentCount(0))
  }

  function NormalizeAll(ideas: seq<Idea>): (r: seq<Idea>)
    ensures |r| == |ideas| && forall k :: 0 <= k < |r| ==> r[k] == NormalizeComments(ideas[k])
  {
    seq(|ideas|, k requires 0 <= k < |ideas| => NormalizeComments(ideas[k]))
  }

  function ByLikes(i: Idea): Key {
    (i.likes, 0)
  }

  /** `(a, b) => b.progress === a.progress ? time(b) - time(a) : b.progress - a.progress`. */
  function ByProgressThenNewest(getTime: string -> int): Project -> Key {
    (p: Project) => (p.progress, getTime(p.createdAt))
  }

  /** Ascending by creation time, as a larger-first key. */
  function ByOldest(getTime: string -> int): User -> Key {
    (u: User) => (-getTime(u.createdAt), 0)
  }

  /** The six most liked ideas, most liked first, with their comments counted. */
  function TrendingIdeas(ideas: seq<Idea>): seq<Idea> {
    Slice(SortBy(NormalizeAll(ideas), ByLikes), 0, ShownCount)
  }

  /** At most six ideas; none left out is liked more than one shown, and they are shown most liked first. */
  lemma TrendingAreTop(ideas: seq<Idea>)
    ensures var sorted := SortBy(NormalizeAll(ideas), ByLikes);
      && multiset(sorted) == multiset(NormalizeAll(ideas))
      && TrendingIdeas(ideas) == sorted[..if |ideas| < ShownCount then |ideas| else ShownCount]
      && (forall i, j :: 0 <= i < j < |sorted| ==> sorted[i].likes >= sorted[j].likes)
  {
    var sorted := SortBy(NormalizeAll(ideas), ByLikes);
    RankedDescends(sorted, ByLikes);
  }

  /** The six featured projects: highest progress first, the newest first among equal progress. */
  function FeaturedProjects(projects: seq<Project>, getTime: string -> int): seq<Project> {
    Slice(SortBy(projects, ByProgressThenNewest(getTime)), 0, ShownCount)
  }

  /** Featured projects are ordered by progress, then by creation time, and are drawn from the loaded ones. */
  lemma FeaturedOrder(projects: seq<Project>, getTime: string -> int)
    ensures var sorted := SortBy(projects, ByProgressThenNewest(getTime));
      && multiset(sorted) == multiset(projects)
      && FeaturedProjects(projects, getTime) == sorted[..if |projects| < ShownCount then |projects| else ShownCount]
      && (forall i, j :: 0 <= i < j < |sorted| ==> sorted[i].progress >= sorted[j].progress)
      && (forall i, j :: 0 <= i < j < |sorted| && sorted[i].progress == sorted[j].progress ==>
            getTime(sorted[i].createdAt) >= getTime(sorted[j].createdAt))
  {
    RankedDescends(SortBy(projects, ByProgressThenNewest(getTime)), ByProgressThenNewest(getTime));
  }

  /** An entry of the page's own user list. */
  datatype MockUser = MockUser(
    id: string, name: string, email: string, avatar: string, bio: string,
    role: Option<string>, createdAt: string, updatedAt: string)

  function MockUsers(): seq<MockUser> {
    [ MockUser("user1", "张三", "zhangsan@example.com", "/avatars/avatar1.jpg", "资深UI设计师，热爱创意与创新",
        Some("designer"), "2023-01-15T08:00:00Z", "2023-09-20T15:30:00Z"),
      MockUser("user2", "李四", "lisi@example.com", "/avatars/avatar2.jpg", "前端开发工程师，5年经验",
        Some("developer"), "2023-02-20T10:15:00Z", "2023-10-05T09:45:00Z"),
      MockUser("user3", "王五", "wangwu@example.com", "/avatars/avatar3.jpg", "产品经理，致力于用户体验优化",
        Some("manager"), "2023-03-10T14:30:00Z", "2023-09-28T16:20:00Z"),
      MockUser("user4", "赵六", "zhaoliu@example.com", "/avatars/avatar4.jpg", "UI/UX设计师，喜欢简约风格",
        Some("designer"), "2023-04-05T11:45:00Z", "2023-10-10T13:15:00Z"),
      MockUser("user5", "钱七", "qianqi@example.com", "/avatars/avatar5.jpg", "全栈开发者，热爱开源项目",
        Some("developer"), "2023-05-12T09:30:00Z", "2023-10-15T10:40:00Z"),
      MockUser("user6", "孙八", "sunba@example.com", "/avatars/avatar6.jpg", "创意总监，10年行业经验",
        Some("manager"), "2023-06-18T16:00:00Z", "2023-10-20T14:25:00Z") ]
  }

  /** The User record built from a list entry: `updatedAt` dropped, role defaulting to 'user'. */
  function ToUser(m: MockUser): (u: User)
    ensures u.id == m.id && u.name == m.name && u.email == m.email && u.bio == m.bio
    ensures u.avatar == Some(m.avatar) && u.createdAt == m.createdAt
    ensures u.role == OrElse(m.role, "user") && u.role != ""
  {
    User(m.id, m.name, m.email, m.bio, OrElse(m.role, "user"), Some(m.avatar), m.createdAt, None, None)
  }

  function ToUsers(ms: seq<MockUser>): (r: seq<User>)
    ensures |r| == |ms| && forall k :: 0 <= k < |r| ==> r[k] == ToUser(ms[k])
  {
    seq(|ms|, k requires 0 <= k < |ms| => ToUser(ms[k]))
  }

  /** The creator list: every listed user, earliest registered first. */
  function Creators(ms: seq<MockUser>, getTime: string -> int): seq<User> {
    SortBy(ToUsers(ms), ByOldest(getTime))
  }

  /** The creator list holds each converted user once per entry, in ascending registration time. */
  lemma CreatorsAscending(ms: seq<MockUser>, getTime: string -> int)
    ensures var c := Creators(ms, getTime);
      && multiset(c) == multiset(ToUsers(ms))
      && forall i, j :: 0 <= i < j < |c| ==> getTime(c[i].createdAt) <= getTime(c[j].createdAt)
  {
    RankedDescends(Creators(ms, getTime), ByOldest(getTime));
  }

  /** The trending step of fetchData: normalise, sort a copy in place, keep the first six. */
  method SortTrending(ideas: seq<Idea>) returns (r: seq<Idea>)
    ensures r == TrendingIdeas(ideas)
  {
    var sorted := SortedCopy(NormalizeAll(ideas), ByLikes);
    r := Slice(sorted, 0, ShownCount);
  }

  /** The featured step of fetchData. */
  method SortFeatured(projects: seq<Project>, getTime: string -> int) returns (r: seq<Project>)
    ensures r == FeaturedProjects(projects, getTime)
  {
    var sorted := SortedCopy(projects, ByProgressThenNewest(getTime));
    r := Slice(sorted, 0, ShownCount);
  }

  /** The creator step of fetchData. */
  method SortCreators(ms: seq<MockUser>, getTime: string -> int) returns (r: seq<User>)
    ensures r == Creators(ms, getTime)
  {
    r := SortedCopy(ToUsers(ms), ByOldest(getTime));
  }

  class ExploreView {
    const service: TestApi.Store
    const getTime: string -> int
    /** The page's own user list. */
    const users: seq<MockUser>
    var tabValue: int
    var trendingIdeas: seq<Idea>
    var featuredProjects: seq<Project>
    var popularUsers: seq<User>
    var loading: bool

    /** Before the data arrive: first tab, empty lists, loading. */
    constructor (service: TestApi.Store, getTime: string -> int)
      ensures this.service == service && this.getTime == getTime && users == MockUsers()
      ensures tabValue == 0 && trendingIdeas == [] && featuredProjects == [] && popularUsers == [] && loading
    {
      this.service := service;
      this.getTime := getTime;
      users := MockUsers();
      tabValue := 0;
      trendingIdeas, featuredProjects, popularUsers := [], [], [];
      loading := true;
    }

    /** fetchData: the three lists, each sorted in a copied array and cut to the first six where the page does. */
    method FetchData()
      modifies this`trendingIdeas, this`featuredProjects, this`popularUsers, this`loading
      ensures trendingIdeas == TrendingIdeas(TestApi.IdeasGetAll(service))
      ensures featuredProjects == FeaturedProjects(TestApi.ProjectsGetAll(service), getTime)
      ensures popularUsers == Creators(users, getTime)
      ensures !loading && tabValue == old(tabValue)
    {
      loading := true;
      trendingIdeas := SortTrending(TestApi.IdeasGetAll(service));
      featuredProjects := SortFeatured(TestApi.ProjectsGetAll(service), getTime);
      popularUsers := SortCreators(users, getTime);
      loading := false;
    }

    /** handleTabChange. */
    method TabChange(v: int)
      modifies this`tabValue
      ensures tabValue == v
      ensures trendingIdeas == old(trendingIdeas) && featuredProjects == old(featuredProjects)
      ensures popularUsers == old(popularUsers) && loading == old(loading)
    {
      tabValue := v;
    }
  }
}
