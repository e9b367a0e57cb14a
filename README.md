# SparkMates query and form-state core in Dafny

SparkMates is a web application for sharing creative ideas, forming projects
around them and messaging collaborators. Behind its pages sit a mock query
service and two fixture sets: `src/services/test-api.ts`, `src/lib/test-data.ts`
and `src/lib/test-auth.ts`. The service answers lookups by id, ownership and
membership filters, unread counters and credential checks over seed arrays that
are never mutated. Its "create" calls build a fresh record with defaults and do
not store it.

On top of the service sit the following pieces:
- the authentication context, `src/lib/AuthProvider.tsx`;
- the list pages for ideas and projects: search, category and status filters, a stable sort by a key, fixed-size pages and the distinct-value filter menus;
- the explore page: trending ideas, featured projects and the creator list;
- the messages page: conversation search, the unread tab and sending a message;
- the two creation forms: the tag editor, validation including the date check, and the record they submit;
- the profile page: loading the profile, editing it, saving and cancelling.

This model states all of these in Dafny and proves their properties.

Layout, one module per file:
- Helper modules:
  - `Wrappers`: Option.
  - `Js`: `slice`, `includes`, `toLowerCase`, `trim`, `join`, `String(n)`, and `<` on strings.
  - `Seqs`: `find`, `filter`, and `Array.from(new Set(..))`.
  - `Sorting`: stable `Array.prototype.sort` with a comparator, as a specification function plus an in-place method on an array.
  - `Listing`: search and paging shared by the list pages.
  - `Types`: the records of `src/types/index.ts`.
  - `Dates`: the `YYYY-MM-DD` strings of the date inputs.
  - `TagEditor`: the tag input both forms share.
- Source modules:
  - `TestApi`, `TestData`, `TestAuth` and `Utils` are pure functions and lemmas, as their sources are.
  - `AuthSession`, `NewIdeaPage`, `NewProjectPage`, `ProfilePage`, `MessagesPage`, `ExplorePage`, `IdeasPage` and `ProjectsPage` hold a class per page or provider. Each class has its state fields and one method per handler or effect, and each method is proved against pure functions of the model.

Clock readings, `Math.random` ids and `new Date(s).getTime()` are parameters: `now`, `in90Days`, `today`, `inAMonth`, `id` and `getTime`.

Where the prose description of the system and the code disagree, the model follows the code:
- **Unread messages.** `MessagesTestApi.getUnreadCount` counts unread messages sent by someone else in a conversation that includes the user. It does not count messages "addressed to" the user.
- **Creates.** `create*` never appends to the store, so two creates return the same id.
- **Date check.** The new-project form does check that the end date is not before the start date (src/app/projects/new/page.tsx:102-105). The check lets through an end date on the same day as the start.
- **Member lists.** `members` and `collaborators` are not sets of ids. They hold bare ids in the service and `{userId, role}` objects in the fixture set, and each query matches only its own form. `Types.Member` records which form an entry has.

## Model

| member | source | states |
|---|---|---|
| Utils.GetAvatarUrl | src/lib/utils.ts:7-14 | the avatar itself when it is non-empty and does not contain "placeholder", otherwise the placeholder image; a result other than the placeholder never contains "placeholder" |
| Utils.PlaceholderIsPlaceholder | src/lib/utils.ts:13 | the placeholder path itself contains "placeholder" |
| Utils.GetAvatarUrlIdempotent | src/lib/utils.ts:7-14 | resolving an avatar twice gives what resolving once gives; an avatar mentioning "placeholder" is always replaced |
| Utils.GetInitials | src/lib/utils.ts:19-24 | empty exactly for the empty name, otherwise the single upper-cased first character |
| Utils.GetInitialsIdempotent | src/lib/utils.ts:19-24 | the initials of the initials are the initials |
| Utils.TruncateText | src/lib/utils.ts:54-57 | the text unchanged when it fits; otherwise its first maxLength characters followed by "...", of length maxLength + 3, and a shorter prefix plus "..." for a negative maxLength |
| TestAuth.WithoutPassword | src/lib/test-auth.ts:18 | the record without its password, every other field kept |
| TestAuth.TestLogin | src/lib/test-auth.ts:11-23 | null exactly when no user has both that email and that password; otherwise the first such user, without the password |
| TestAuth.GetUserById | src/lib/test-auth.ts:30-39 | null exactly when no user has that id; otherwise the first user with that id, without the password |
| TestAuth.GetUserByEmail | src/lib/test-auth.ts:46-55 | null exactly when no user has that email; otherwise the first user with that email, without the password |
| TestAuth.LoginAgreesWithLookup | src/lib/test-auth.ts:11-23 | with distinct emails, a successful login returns the same record as the lookup by email |
| TestAuth.EveryUserLogsIn | src/lib/test-auth.ts:11-19 | with distinct emails, each user logs in with their own email and password and gets their own record back |
| TestAuth.SeedUsers | src/lib/test-data.ts:4-60 | the fixture users have distinct emails and all have the password password123 |
| TestAuth.SeedLogin | src/lib/test-auth.ts:11-23 | every fixture user logs in with password123, and with no other password |
| TestApi.UsersGetById | src/services/test-api.ts:410-413 | null exactly when no stored user has the id; otherwise the first stored user with that id |
| TestApi.Login | src/services/test-api.ts:415-420 | null for any password other than "password"; with it, the first stored user with that email, and never null when one exists |
| TestApi.Register | src/services/test-api.ts:422-436 | id "user" + (number of users + 1); name, email, bio, role and avatar defaulting when missing or empty (New User, user<n>@example.com, '', USER, ''); stamped now, no password |
| TestApi.IdeasGetById | src/services/test-api.ts:444-447 | null exactly when no stored idea has the id; otherwise the first stored idea with that id |
| TestApi.IdeasGetByUser | src/services/test-api.ts:449-454 | exactly the stored ideas the user owns or collaborates on (bare id), a sub-multiset of the store |
| TestApi.IdeasCreate | src/services/test-api.ts:456-475 | id "idea" + (number of ideas + 1), likes, views and comments 0, visibility defaulting to PRIVATE, collaborators to empty, stamped now |
| TestApi.CreatedIdeaNotFound | src/services/test-api.ts:456-458 | over ideas numbered idea1 to idea6 a created idea is idea7 and getById("idea7") stays null: create does not store |
| TestApi.SeedIdeasNumbered | src/services/test-api.ts:55-146 | the seed ideas are idea1 to idea6 in order |
| TestApi.ProjectsGetById | src/services/test-api.ts:483-486 | null exactly when no stored project has the id; otherwise the first stored project with that id |
| TestApi.ProjectsGetByUser | src/services/test-api.ts:488-493 | exactly the stored projects the user created or is a member of (bare id), a sub-multiset of the store |
| TestApi.ProjectsCreate | src/services/test-api.ts:495-516 | id "project" + (number of projects + 1), status defaulting to 规划中, progress to 0, members and tasks to empty, stamped now |
| TestApi.CreatedProjectNotFound | src/services/test-api.ts:495-497 | over projects numbered project1 to project5 a created project is project6 and getById("project6") stays null |
| TestApi.SeedProjectsNumbered | src/services/test-api.ts:149-255 | the seed projects are project1 to project5 in order |
| TestApi.GetMessages | src/services/test-api.ts:520-529 | exactly the stored messages the user sent or that belong to a conversation the user takes part in |
| TestApi.MessagesUnreadCountOfMessages | src/services/test-api.ts:531-540 | the unread count is the number of the user's messages that are unread and sent by someone else, so at most the number of the user's messages |
| TestApi.SendMessage | src/services/test-api.ts:542-554 | id "msg" + (number of messages + 1), conversation conv1 and sender user1 by default, content defaulting to empty, unread |
| TestApi.GetMessagesByConversation | src/services/test-api.ts:562-567 | exactly the stored messages of that conversation |
| TestApi.NotificationsGetByUser | src/services/test-api.ts:571-576 | exactly the stored notifications addressed to the user |
| TestApi.NotificationsUnreadCountOfUser | src/services/test-api.ts:578-583 | the unread count is the number of the user's notifications that are unread, so at most their number |
| TestApi.SeedLogin | src/services/test-api.ts:415-420 | test@example.com with "password" logs in as user1; the fixture password password123 does not work here |
| TestApi.NotificationsOfUser1 | src/services/test-api.ts:578-583 | over four notifications of user1 with one read, getByUser returns four and the unread count is 3 |
| TestApi.SeedNotificationsOfUser1 | src/services/test-api.ts:369-406 | in the seed, user1 has four notifications, three of them unread |
| TestData.GetUserData | src/lib/test-data.ts:455-482 | user absent exactly when no user has the id, otherwise the first user with it; ideas, projects, messages and notifications are exactly the records created by, joined by (a `{userId}` member), sent or received by, or addressed to the user |
| TestData.UnreadCountsWithinUserData | src/lib/test-data.ts:467-477 | each unread count is the number of unread records among the user's own messages or notifications, so at most their number |
| TestData.UnreadMessagesOfUser1 | src/lib/test-data.ts:362-403 | over messages shaped like the seed, user 1 has two unread messages |
| TestData.UnreadNotificationsOfUser1 | src/lib/test-data.ts:406-452 | over notifications shaped like the seed, user 1 has three unread notifications |
| TestData.UnreadOfUser1 | src/lib/test-data.ts:467-477 | over such data, the dashboard counts 2 unread messages and 3 unread notifications for user 1 |
| TestData.SeedUnreadOfUser1 | src/lib/test-data.ts:362-452 | in the seed, user 1 has 2 unread messages and 3 unread notifications |
| AuthSession.RegistrationDraft | src/lib/AuthProvider.tsx:64-69 | register passes the name and email, bio '' and role USER, and not the password |
| AuthSession.OverlayNothing | src/lib/AuthProvider.tsx:94-97 | merging no fields leaves the user as it is |
| AuthSession.OverlayIdempotent | src/lib/AuthProvider.tsx:94-97 | merging the same fields twice is merging them once |
| AuthSession.OverlayFields | src/lib/AuthProvider.tsx:94-97 | for each of the nine user fields: absent from the update, it keeps its value; present, it takes the new value |
| AuthSession.Session.constructor | src/lib/AuthProvider.tsx:29-31 | nobody signed in, not loading, no error |
| AuthSession.Session.Login | src/lib/AuthProvider.tsx:34-56 | succeeds exactly when the service accepts the credentials; then user is the returned record, error cleared, route /dashboard; a failure records the error and keeps the user; never loading afterwards |
| AuthSession.Session.Register | src/lib/AuthProvider.tsx:58-81 | the user becomes the service's new record with the given name (New User when empty), bio '', role USER and no password; error cleared, not loading, route /dashboard |
| AuthSession.Session.Logout | src/lib/AuthProvider.tsx:83-86 | nobody signed in and route /, whatever the state before |
| AuthSession.Session.UpdateUser | src/lib/AuthProvider.tsx:88-104 | no change without a user; otherwise the user overlaid with the given fields; loading, error and route kept |
| Js.Slice | src/lib/utils.ts:56 | `slice` with its clamping; an in-range start gives the block up to min(end, length) |
| Js.IncludesIff | src/app/ideas/page.tsx:68 | `includes` holds exactly when the block occurs at some position |
| Js.Trim | src/app/messages/page.tsx:121 | `trim()` is empty exactly when the text is only white space |
| Js.NatToString | src/services/test-api.ts:457 | a non-empty string of decimal digits |
| Js.NatToStringRoundTrip | src/services/test-api.ts:457 | reading back the digits of `${n}` gives n, so different counts give different ids |
| Js.NatToStringInjective | src/services/test-api.ts:457 | different numbers give different strings |
| Js.StringLessTrichotomy | src/app/projects/new/page.tsx:102 | `<` on strings is a strict total order |
| Js.StringLessDigits | src/app/projects/new/page.tsx:102 | on digit strings of equal length, `<` on strings is `<` on the numbers |
| Seqs.Find | src/lib/test-auth.ts:31 | `find`: nothing exactly when no element passes, otherwise the element at the first passing position |
| Seqs.Filter | src/services/test-api.ts:450-452 | `filter`: the passing elements, each from the input, no passing element lost, a sub-multiset |
| Seqs.FilterAppend | src/services/test-api.ts:450-452 | filtering a concatenation is the concatenation of the filtered parts, so the order of the input is kept |
| Seqs.FilterFilter | src/lib/test-data.ts:471-477 | two filters in a row are one filter by the conjunction |
| Seqs.Distinct | src/app/ideas/page.tsx:97 | `Array.from(new Set(s))`: every element of s, only elements of s, none twice |
| Seqs.DistinctFirstOccurrenceOrder | src/app/ideas/page.tsx:97 | the distinct values come in order of first occurrence |
| Sorting.InsertRanked | src/app/ideas/page.tsx:81-85 | inserting into a sequence sorted by the comparator keeps it sorted |
| Sorting.InsertMultiset | src/app/ideas/page.tsx:81 | inserting adds the element and loses none |
| Sorting.SortBy | src/app/ideas/page.tsx:81-85 | the sort: same length, a permutation of its input, and no element has a strictly larger key than one before it |
| Sorting.RankedDescends | src/app/explore/page.tsx:282-287 | in a sorted result the primary key never rises, and the secondary key never rises among equal primary keys |
| Sorting.InsertInPlace | src/app/ideas/page.tsx:81 | one step of the in-place sort: the array prefix becomes the insertion of a[i] into the sorted prefix, the rest untouched |
| Sorting.SortInPlace | src/app/ideas/page.tsx:81 | `result.sort(cmp)` in place: the array ends as the stable sort of its old contents |
| Sorting.SortedCopy | src/app/explore/page.tsx:276 | `[...s].sort(cmp)`: the stable sort of s, s itself untouched |
| Listing.MatchesQueryIgnoresCase | src/app/ideas/page.tsx:66-72 | the search ignores the letter case of the query, and the empty query matches every record |
| Listing.TitleInfixMatches | src/app/ideas/page.tsx:66-72 | a title containing the query, in any case, is a match |
| Listing.PageCount | src/app/ideas/page.tsx:94 | `Math.ceil(n / perPage)`: the smallest count of pages that holds n items |
| Listing.PageStart | src/app/ideas/page.tsx:92 | page p starts at (p - 1) * perPage, never negative for p >= 1 |
| Listing.Page | src/app/ideas/page.tsx:92-93 | at most perPage items; for a page inside the list, the block from its start to min(start + perPage, length); empty past the end |
| Listing.FirstPagesPrefix | src/app/ideas/page.tsx:92-93 | pages 1 to k laid end to end are the first k * perPage items |
| Listing.PagesCoverAll | src/app/ideas/page.tsx:92-94 | pages 1 to the page count laid end to end are the whole filtered list |
| Listing.FilterOptions | src/app/ideas/page.tsx:97 | "all" first, then every loaded value, only loaded values, none twice |
| IdeasPage.Search | src/app/ideas/page.tsx:66-72 | skipped for the empty query; otherwise exactly the ideas whose title, description or a tag contains the query in any case |
| IdeasPage.InCategory | src/app/ideas/page.tsx:75-77 | skipped for "all"; otherwise exactly the ideas of that category |
| IdeasPage.ArrangeSelects | src/app/ideas/page.tsx:63-77 | the list is a sub-multiset of the ideas holding exactly those that pass search and category; a permutation of all ideas for an empty query and "all" |
| IdeasPage.ArrangeOrders | src/app/ideas/page.tsx:79-86 | newest gives non-increasing creation time, popular non-increasing likes, views non-increasing views; another option keeps the filtered order |
| IdeasPage.IdeasView.constructor | src/app/ideas/page.tsx:35-41 | loading, no ideas, empty query, all categories, newest first, page 1 |
| IdeasPage.IdeasView.Refilter | src/app/ideas/page.tsx:61-89 | the filtered list becomes the arrangement of the loaded ideas under the current controls |
| IdeasPage.IdeasView.Fetch | src/app/ideas/page.tsx:45-59 | the ideas are the service's, loading ends, the filtered list is rebuilt, controls kept |
| IdeasPage.IdeasView.SetSearchQuery | src/app/ideas/page.tsx:61-89 | the query changes and the filtered list is rebuilt; ideas and other controls kept |
| IdeasPage.IdeasView.SetCategory | src/app/ideas/page.tsx:61-89 | the category changes and the filtered list is rebuilt; ideas and other controls kept |
| IdeasPage.IdeasView.SetSort | src/app/ideas/page.tsx:61-89 | the sort changes and the filtered list is rebuilt; ideas and other controls kept |
| IdeasPage.IdeasView.SetPage | src/app/ideas/page.tsx:40 | only the page changes; the filter does not re-run |
| ProjectsPage.Search | src/app/projects/page.tsx:69-75 | skipped for the empty query; otherwise exactly the projects whose title, description or a tag contains the query in any case |
| ProjectsPage.InCategory | src/app/projects/page.tsx:78-80 | skipped for "all"; otherwise exactly the projects of that category |
| ProjectsPage.InStatus | src/app/projects/page.tsx:83-85 | skipped for "all"; otherwise exactly the projects with that status |
| ProjectsPage.ArrangeSelects | src/app/projects/page.tsx:66-85 | a sub-multiset holding exactly the projects that pass search, category and status; a permutation of all for an empty query and both "all" |
| ProjectsPage.ArrangeOrders | src/app/projects/page.tsx:88-92 | newest gives non-increasing creation time, progress non-increasing progress; another option keeps the filtered order |
| ProjectsPage.CompletedTasks | src/app/projects/page.tsx:386 | the completed-task count never exceeds the task count |
| ProjectsPage.AllTasksCompleted | src/app/projects/page.tsx:386 | the counter reads n/n exactly when every task is completed |
| ProjectsPage.ProjectsView.constructor | src/app/projects/page.tsx:37-44 | loading, no projects, empty query, all categories and statuses, newest first, page 1 |
| ProjectsPage.ProjectsView.Refilter | src/app/projects/page.tsx:64-95 | the filtered list becomes the arrangement of the loaded projects under the current controls |
| ProjectsPage.ProjectsView.Fetch | src/app/projects/page.tsx:48-62 | the projects are the service's, loading ends, the filtered list is rebuilt |
| ProjectsPage.ProjectsView.SetSearchQuery | src/app/projects/page.tsx:64-95 | the query changes and the filtered list is rebuilt |
| ProjectsPage.ProjectsView.SetCategory | src/app/projects/page.tsx:64-95 | the category changes and the filtered list is rebuilt |
| ProjectsPage.ProjectsView.SetStatus | src/app/projects/page.tsx:64-95 | the status changes and the filtered list is rebuilt |
| ProjectsPage.ProjectsView.SetSort | src/app/projects/page.tsx:64-95 | the sort changes and the filtered list is rebuilt |
| ProjectsPage.ProjectsView.SetPage | src/app/projects/page.tsx:43 | only the page changes; the filter does not re-run |
| TagEditor.AddTag | src/app/ideas/new/page.tsx:49-54 | a non-empty, new input with fewer than five tags is appended and the input cleared; otherwise nothing changes; at most five distinct non-empty tags stay so |
| TagEditor.DeleteTag | src/app/ideas/new/page.tsx:56-58 | the tag is gone, every other tag stays, nothing new appears; the tag-list guarantees are kept (order: TagEditor.DeleteKeepsOrder) |
| TagEditor.DeleteKeepsOrder | src/app/ideas/new/page.tsx:56-58 | deleting a tag from between two lists that do not hold it leaves exactly those two lists joined, in their order |
| TagEditor.AddThenDelete | src/app/ideas/new/page.tsx:49-58 | deleting a tag just added gives back the list from before |
| TagEditor.DeleteAbsent | src/app/ideas/new/page.tsx:56-58 | deleting a tag not in the list changes nothing |
| TagEditor.FullListRefuses | src/app/ideas/new/page.tsx:50 | a list of five refuses every input |
| NewIdeaPage.SubmittedDraft | src/app/ideas/new/page.tsx:93-105 | the sent record carries the form's fields, the user's id or '', and no collaborators |
| NewIdeaPage.SubmittedIdea | src/app/ideas/new/page.tsx:93-108 | the created idea has the form's fields, zero likes, views and comments, no collaborators, owner the user or user1, id idea7, and is not found afterwards |
| NewIdeaPage.NewIdeaForm.constructor | src/app/ideas/new/page.tsx:32-41 | the empty form, PUBLIC, no tags, no error |
| NewIdeaPage.NewIdeaForm.AddTag | src/app/ideas/new/page.tsx:49-54 | the tag editor's add step on the form's tags and input; the tag guarantees are kept |
| NewIdeaPage.NewIdeaForm.DeleteTag | src/app/ideas/new/page.tsx:56-58 | the tag editor's delete step: the tag removed and the other tags kept in their order; the tag guarantees are kept |
| NewIdeaPage.NewIdeaForm.Submit | src/app/ideas/new/page.tsx:80-124 | a missing field shows the error and creates nothing; otherwise the created idea is recorded, success set, error cleared, loading ended, redirect to the idea |
| NewProjectPage.Validate | src/app/projects/new/page.tsx:97-105 | the missing-fields error exactly when a field is empty; the date error exactly when all are filled and end < start as strings; nothing otherwise |
| NewProjectPage.ValidDatesAreOrdered | src/app/projects/new/page.tsx:102-105 | for date strings, validation passes exactly when the end is the start day or later |
| Dates.ToIsoString | src/app/projects/new/page.tsx:118-119 | the ISO stamp of a date string begins with the date |
| Dates.StringOrderIsChronological | src/app/projects/new/page.tsx:102 | on YYYY-MM-DD strings, `<` on strings is chronological order and equality is the same day |
| Dates.RejectsExactlyEarlierEnd | src/app/projects/new/page.tsx:102-105 | `startDate > endDate` rejects exactly the end dates before the start; a same-day end passes |
| NewProjectPage.SubmittedDraft | src/app/projects/new/page.tsx:112-126 | the sent record carries the ISO dates, creator the user's id or '', members just that id, no tasks |
| NewProjectPage.SubmittedProject | src/app/projects/new/page.tsx:112-129 | the created project has the form's fields and dates, status and progress, the submitter as only member, no tasks, id project6, and is not found afterwards |
| NewProjectPage.NewProjectForm.constructor | src/app/projects/new/page.tsx:33-49 | the empty form with start today, end a month later, status 规划中, progress 0 |
| NewProjectPage.NewProjectForm.AddTag | src/app/projects/new/page.tsx:63-68 | the tag editor's add step; the tag guarantees are kept |
| NewProjectPage.NewProjectForm.DeleteTag | src/app/projects/new/page.tsx:70-72 | the tag editor's delete step: the tag removed and the other tags kept in their order; the tag guarantees are kept |
| NewProjectPage.NewProjectForm.Submit | src/app/projects/new/page.tsx:94-145 | a failed check shows its message, missing fields first, and changes nothing else; an unreadable date ends in the catch message with loading ended and no redirect; otherwise the created project is recorded, success set, loading ended, redirect to the project |
| NewProjectPage.NewProjectForm.Create | src/app/projects/new/page.tsx:107-137 | the try block with readable dates: the created project recorded, success, not loading, redirect to it |
| ExplorePage.NormalizeComments | src/app/explore/page.tsx:264-274 | comments become a count: a list's length, a number kept, anything else 0; every other field unchanged |
| ExplorePage.NormalizeAll | src/app/explore/page.tsx:264-274 | every idea normalised, in order |
| ExplorePage.TrendingAreTop | src/app/explore/page.tsx:276-277 | the trending ideas are the first six of a likes-descending permutation of the normalised ideas |
| ExplorePage.FeaturedOrder | src/app/explore/page.tsx:282-288 | the featured projects are the first six of a permutation sorted by progress descending, newest first among equal progress |
| ExplorePage.ToUser | src/app/explore/page.tsx:291-301 | the user built from a list entry keeps its fields, with the role defaulting to 'user' |
| ExplorePage.ToUsers | src/app/explore/page.tsx:291-312 | every list entry converted, in order |
| ExplorePage.CreatorsAscending | src/app/explore/page.tsx:314-318 | the creator list is a permutation of the converted users in ascending registration time |
| ExplorePage.SortTrending | src/app/explore/page.tsx:276-277 | the trending step of fetchData yields the trending ideas |
| ExplorePage.SortFeatured | src/app/explore/page.tsx:282-288 | the featured step of fetchData yields the featured projects |
| ExplorePage.SortCreators | src/app/explore/page.tsx:315-318 | the creator step of fetchData yields the creator list |
| ExplorePage.ExploreView.constructor | src/app/explore/page.tsx:249-254 | first tab, empty lists, loading |
| ExplorePage.ExploreView.FetchData | src/app/explore/page.tsx:256-328 | trending, featured and creator lists set from the service and the page's users; loading ended; tab kept |
| ExplorePage.ExploreView.TabChange | src/app/explore/page.tsx:330-332 | only the tab changes |
| MessagesPage.ToLowerJoin | src/app/messages/page.tsx:109-112 | lower-casing the joined names lower-cases each name |
| MessagesPage.FilteredConversations | src/app/messages/page.tsx:108-117 | exactly the conversations whose joined participant names or last message contain the query, in any case |
| MessagesPage.ParticipantNameMatches | src/app/messages/page.tsx:108-116 | a conversation with a participant whose name contains the query is kept |
| MessagesPage.EmptyQueryKeepsAll | src/app/messages/page.tsx:108-117 | the empty search keeps every conversation |
| MessagesPage.ShownConversations | src/app/messages/page.tsx:393 | tab 0 shows the filtered conversations; another tab only those among them with unread messages |
| MessagesPage.OtherParticipants | src/app/messages/page.tsx:147-149 | exactly the participants other than the signed-in user; all of them with nobody signed in |
| MessagesPage.NameShowsOthers | src/app/messages/page.tsx:146-150 | every other participant's name appears in the conversation title |
| MessagesPage.AllParticipants | src/app/messages/page.tsx:245-246 | `flatMap(c => c.participants)`: exactly the participants of some conversation |
| MessagesPage.SenderOf | src/app/messages/page.tsx:245-247 | none exactly when no participant of any conversation has the sender's id; otherwise the first such participant in `flatMap` order |
| MessagesPage.SentMessageFields | src/app/messages/page.tsx:124-131 | a sent message is in the open conversation, carries the typed text and the user's id or '', and is read |
| MessagesPage.MessagesView.constructor | src/app/messages/page.tsx:50-56 | nothing loaded, loading, empty text and query, first tab, no open conversation |
| MessagesPage.MessagesView.FetchMessages | src/app/messages/page.tsx:80-96 | with an open conversation its messages are loaded; without one nothing changes |
| MessagesPage.MessagesView.FetchConversations | src/app/messages/page.tsx:60-77 | the conversations are loaded, the first one opened and its messages fetched; loading ended |
| MessagesPage.MessagesView.Select | src/app/messages/page.tsx:80-96 | the clicked conversation opens; its messages load only when it was not already open, and re-clicking the open one keeps the messages and loading flag as they are |
| MessagesPage.MessagesView.SetSearchQuery | src/app/messages/page.tsx:349 | only the query changes |
| MessagesPage.MessagesView.SetTab | src/app/messages/page.tsx:361 | only the tab changes |
| MessagesPage.MessagesView.SetMessageText | src/app/messages/page.tsx:508 | only the text changes |
| MessagesPage.MessagesView.Send | src/app/messages/page.tsx:120-135 | blank text or no open conversation changes nothing; otherwise exactly one message is appended after the existing ones and the text is cleared |
| ProfilePage.SetField | src/app/profile/page.tsx:148-154 | the named form field takes the value, every other field keeps its own |
| ProfilePage.SetFieldLaws | src/app/profile/page.tsx:148-154 | typing a field's current value changes nothing; of two edits of one field the later wins |
| ProfilePage.Saved | src/app/profile/page.tsx:165-168 | saving keeps the profile's id, creation time, password and skills |
| ProfilePage.SaveThenCancel | src/app/profile/page.tsx:165-190 | the form refilled from a saved profile is the form that was saved |
| ProfilePage.SaveUnchangedForm | src/app/profile/page.tsx:118-168 | saving the form the profile was loaded into changes no field the form shows |
| ProfilePage.ProfileView.constructor | src/app/profile/page.tsx:80-97 | no profile, not editing, loading, first tab, empty form, dialog closed |
| ProfilePage.ProfileView.Load | src/app/profile/page.tsx:99-146 | waits while the session restores, changing nothing; no user redirects to /login and changes nothing else; an unknown user sets the error and ends loading; otherwise profile, form, projects and ideas are loaded |
| ProfilePage.ProfileView.Populate | src/app/profile/page.tsx:117-135 | the profile, the form filled from it, the user's projects and ideas; loading ended |
| ProfilePage.ProfileView.InputChange | src/app/profile/page.tsx:148-154 | the form changes in the named field only; profile and edit mode kept |
| ProfilePage.ProfileView.Edit | src/app/profile/page.tsx:459 | edit mode on, form and profile kept |
| ProfilePage.ProfileView.SaveProfile | src/app/profile/page.tsx:160-176 | no change without a profile; otherwise the form is merged into the profile and edit mode ends |
| ProfilePage.ProfileView.CancelEdit | src/app/profile/page.tsx:178-192 | no change without a profile; otherwise the form is refilled from the profile and edit mode ends |
| ProfilePage.ProfileView.TabChange | src/app/profile/page.tsx:156-158 | only the tab changes |
| ProfilePage.ProfileView.AskLogout | src/app/profile/page.tsx:194-196 | the logout dialog opens |
| ProfilePage.ProfileView.ConfirmLogout | src/app/profile/page.tsx:198-202 | the session signs out with its route set to "/", its loading and error kept, the dialog closes, the page goes to /login |
| ProfilePage.SaveThenCancelKeepsForm | src/app/profile/page.tsx:160-192 | saving then cancelling leaves the form as typed and edit mode off |

## Left out

- `formatDate` (locale formatting) and `formatNumber` (floating-point division and `toFixed`) are not modelled.
- The clock is a parameter: `new Date().toISOString()`, `Date.now()` and the date inputs' initial values.
- `Math.random` is a parameter or left out: the sent message's id is a parameter, and the explore page's random user statistics are dropped (`UserWithStats` is reduced to `User`).
- `new Date(x).getTime()` in the "newest" and createdAt sorts is the `getTime` parameter.
- Dates.ToIsoString: only `YYYY-MM-DD` strings are read as dates. Other formats that `Date` parses, and calendar validity (a 30 February), are not modelled: any other string takes the catch branch.
- `toLowerCase` and `toUpperCase` map only the ASCII letters. Strings are sequences of characters, not UTF-16 code units.
- Every class takes the service's store as a constructor parameter. The application always uses the fixed seed store (`TestApi.Seed`), and the seed facts are stated over stores that agree with the seed on the part they need.
- Each async handler runs to completion as one method. Interleavings of awaits, unmounting during a fetch, and React's batching of state updates are not modelled.
- The messages page's two effects, which run one after the other, are `FetchConversations` calling `FetchMessages`.
- Catch branches that the service can never reach are not modelled: it never throws. These are:
  - the fetch errors of the list pages and the explore page;
  - the profile's "加载个人信息时出错" and "更新个人资料时出错";
  - the new-idea form's "创建创意时出错";
  - the error branch of `updateUser`.
- Router navigation is recorded as the path that would be pushed. `setTimeout` delays, `alert`, the scroll-into-view effect, the Enter key handler (it calls the same send) and `handleNavigation` are not modelled.
- Image upload and preview (`FileReader`) are not modelled, nor are the new-project form's budget and team-size inputs: the submitted record never uses them.
- `NotificationsTestApi.markAsRead` is not modelled: it returns true and changes nothing.
- Project detail pages, task and milestone progress updates, the dashboard, and all JSX layout and styling are not modelled.
- Sorting.SortBy: states sorted and a permutation; that equal keys keep their input order holds by construction (an element goes after every equal key) but is not stated as a lemma.
- MessagesPage.MessagesView.FetchConversations: keeps the open conversation among the loaded ones only when none was open before, which is the case at mount, where the page runs it.
- JavaScript numbers (`likes`, `views`, `progress`, `unreadCount` and the other counters) are integers; fractional values and floating-point rounding are not modelled.
- MessagesPage.MessagesView.Select: "already open" is value equality of the conversation, where React compares object identity; the two differ only for a list holding two equal conversation records.
