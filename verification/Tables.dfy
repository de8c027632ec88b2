/**
 The tables of one group's file that its content, moderation and AI commands read and write
 (internal/store/schema.go). Each table is a map or a set of rows; a transaction works on a
 copy of the whole and either replaces it or is thrown away.
 */
module Tables {
  import opened Types
  import opened Jobs

  datatype Status = Visible | Flagged | AutoHidden | Held | Removed | Deleted

  /** Not hidden in any way: in the index, in the counters and on the page. */
  predicate Shown(s: Status) { s == Visible || s == Flagged }

  /** Soft-deleted: waiting for the purge. */
  predicate Gone(s: Status) { s == Removed || s == Deleted }

  const DAY := 24 * 60 * 60
  const AUTHOR_DELETE_KEEP := 30 * DAY
  const MOD_REMOVE_KEEP := 90 * DAY
  const REVISION_KEEP := 90 * DAY
  const MEMBER_VOTE_AGE := 30 * DAY
  const MAX_IMAGES := 10
  const MAX_TITLE := 300
  const MAX_BODY := 40000
  const MAX_COMMENT := 10000
  const MAX_NOTE := 1200
  const SUMMARY_MIN := 10

  /** user 0 is an archive author, who has no account. A post with an originRef was imported. */
  datatype Post = Post(
    user: Id, title: string, body: string, status: Status,
    commentCount: int, continues: Option<Id>, digest: Option<string>,
    purgeAfter: Option<int>, version: nat, threadVersion: nat,
    locked: bool, aiCleared: bool, originRef: Option<string>)

  datatype Comment = Comment(
    post: Id, parent: Option<Id>, user: Id, body: string, status: Status,
    purgeAfter: Option<int>, version: nat, aiCleared: bool, originRef: Option<string>)

  /** A link note. ext carries the version of a source in a sister group. */
  datatype NoteRow = NoteRow(host: Id, text: string, stale: bool, active: bool, removedBy: Option<Id>, ext: nat)

  datatype NoteSource = NoteSource(note: Id, group: Id, post: Id)

  datatype Member = Member(active: bool, mod: bool, since: int)

  datatype Kind = APost | AComment

  datatype Item = Item(kind: Kind, id: Id)

  datatype Image = Image(post: Id, comment: Option<Id>)

  datatype Notice = Notice(post: Id, readAt: Option<int>, createdAt: int)

  /** Tables that hang off posts and comments. */
  datatype Side = Side(
    revisions: map<(Item, nat), int>,     // (item, version) -> purge_after
    images: map<Id, Image>,
    follows: set<(Id, Id)>,               // user, post
    reports: set<(Item, Id)>,             // item, user
    flagVotes: map<(Item, Id), bool>,     // item, user -> keep
    votes: set<(Item, Id)>,               // item, user
    nudges: map<Id, Id>,                  // nudge -> post
    postTopics: set<(Id, Id)>,            // post, topic
    faqSources: set<(Id, Id)>,            // entry, post
    sourceLinks: set<(Id, Id, Id)>,       // source, post (or 0), entry
    sisterLinks: set<(Id, Id, Id)>,       // post, other group, other post
    notices: map<Id, Notice>,
    faqComments: map<Id, Option<int>>,    // comment on an entry -> purge_after
    feedback: map<Id, int>)               // -> created_at

  datatype Db = Db(
    group: Id,
    holdFirstPost: bool, voteThreshold: nat,
    members: map<Id, Member>,
    posts: map<Id, Post>,
    comments: map<Id, Comment>,
    jobs: Queue,
    fts: map<Id, Id>,                     // item -> post (0 for a FAQ entry or outside page)
    notes: map<Id, NoteRow>,
    sources: seq<NoteSource>,
    links: map<(Id, Id), bool>,           // (older, newer) -> active
    postRefs: map<string, Id>,            // the unique indexes on origin_ref
    commentRefs: map<string, Id>,
    side: Side)

  /** The comments that count toward a post's comment_count. */
  function ShownComments(comments: map<Id, Comment>, p: Id): set<Id> {
    set c | c in comments && comments[c].post == p && Shown(comments[c].status)
  }

  /** noteVersion: the sum of a note's sources' thread versions, and the version it carries for
      a source elsewhere. A source that is not in this file adds nothing. */
  function SumSources(posts: map<Id, Post>, sources: seq<NoteSource>, n: Id): nat {
    if sources == [] then 0 else
      (if sources[0].note == n && sources[0].post in posts then posts[sources[0].post].threadVersion else 0)
      + SumSources(posts, sources[1..], n)
  }

  function NoteVersion(db: Db, n: Id): nat {
    SumSources(db.posts, db.sources, n) + if n in db.notes then db.notes[n].ext else 0
  }
}
