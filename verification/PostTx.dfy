/**
 The transactions of posts and comments, statement by statement (internal/cmd/posts.go,
 moderation.go): each is proved to do what its function in Commands says.
 */
module PostTx {
  import opened Types
  import opened Jobs
  import opened Tables
  import opened GroupTx
  import C = Commands

  /** saveRevision: count what is stored, and insert under the next number. */
  method SaveRevision(tx: Db, item: Item, at: int) returns (r: Option<Db>)
    ensures r == C.SaveRevision(tx, item, at)
  {
    var n := |set k | k in tx.side.revisions && k.0 == item :: k.1|;
    assert n == |C.Revisions(tx.side, item)|;
    if (item, n + 1) in tx.side.revisions {
      return None; // the primary key
    }
    return Some(tx.(side := tx.side.(revisions := tx.side.revisions[(item, n + 1) := at + REVISION_KEEP])));
  }

  ghost function Placed(rows: map<Id, Image>, image: Image, images: seq<Id>): map<Id, Image> {
    rows + map x | x in images :: image
  }

  lemma PlaceOne(rows: map<Id, Image>, image: Image, images: seq<Id>, i: nat)
    requires i < |images|
    ensures Placed(rows, image, images[..i])[images[i] := image] == Placed(rows, image, images[..i + 1])
    ensures images[i] in Placed(rows, image, images[..i]) <==> images[i] in rows || images[i] in images[..i]
  {
  }

  lemma FreshOne(rows: map<Id, Image>, images: seq<Id>, i: nat)
    requires i < |images| && FreshRows(rows, images[..i])
    ensures if images[i] in rows ||
            images[i] in images[..i] then !FreshRows(rows, images) else FreshRows(rows, images[..i + 1])
  {
  }

  /** insertImages: one placement after another; an id that is taken is an error. */
  method InsertImages(side: Side, post: Id, comment: Option<Id>, images: seq<Id>) returns (r: Option<Side>)
    ensures r == if FreshRows(side.images, images) then Some(C.WithImages(side, post, comment, images)) else None
  {
    var rows, image := side.images, Image(post, comment);
    assert Placed(rows, image, images[..0]) == rows;
    hide FreshRows, Placed;
    FreshNone(side.images, images);
    for i := 0 to |images|
      invariant FreshRows(side.images, images[..i]) && rows == Placed(side.images, image, images[..i])
    {
      PlaceOne(side.images, image, images, i);
      FreshOne(side.images, images, i);
      if images[i] in rows {
        return None;
      }
      rows := rows[images[i] := image];
    }
    assert images[..|images|] == images;
    PlacedIs(side, post, comment, images);
    return Some(side.(images := rows));
  }

  lemma PlacedIs(side: Side, post: Id, comment: Option<Id>, images: seq<Id>)
    ensures C.WithImages(side, post, comment, images) ==
            side.(images := Placed(side.images, Image(post, comment), images))
  {
  }

  lemma FreshNone(rows: map<Id, Image>, images: seq<Id>)
    ensures FreshRows(rows, images[..0])
  {
  }

  ghost predicate FreshRows(rows: map<Id, Image>, images: seq<Id>) {
    (forall i <- images :: i !in rows) && (forall j, k | 0 <= j < k < |images| :: images[j] != images[k])
  }

  lemma FreshRowsAre(db: Db, images: seq<Id>)
    ensures FreshRows(db.side.images, images) <==> C.FreshImages(db, images)
  {
  }

  method CreatePost(tx: Db, id: Id, user: Id, title: string, body: string, images: seq<Id>,
                    at: int) returns (r: Option<Db>)
    ensures r == C.CreatePost(tx, id, user, title, body, images, at)
  {
    if title == "" || |title| > MAX_TITLE || |body| > MAX_BODY || |images| > MAX_IMAGES {
      return None;
    }
    if !C.IsMember(tx, user) {
      return None;
    }
    var status := C.FirstPostStatus(tx, user);
    if id in tx.posts {
      return None; // the primary key
    }
    FreshRowsAre(tx, images);
    hide C.FirstPostStatus, C.IsMember, C.WithImages, C.FreshImages, Jobs.Schedule;
    var db := tx.(posts := tx.posts[id := Post(user, title, body, status, 0, None, None, None, 1, 1, false, false, None)]);
    var side := InsertImages(db.side, id, None, images);
    if side.None? {
      return None;
    }
    db := db.(side := side.value);
    db := db.(side := db.side.(follows := tx.side.follows + {(user, id)}));
    db := ScheduleJob(db, JobKey(Check, id), 1, at, at);
    db := ScheduleJob(db, JobKey(Digest, id), 1, at + QUIET_PERIOD, at);
    if status == Visible {
      db := db.(fts := db.fts[id := id]);
    }
    return Some(db);
  }

  method EditPost(tx: Db, id: Id, title: string, body: string, at: int) returns (r: Option<Db>)
    ensures r == C.EditPost(tx, id, title, body, at)
  {
    hide C.SaveRevision, C.ThreadChanged, Jobs.Schedule;
    if title == "" || |title| > MAX_TITLE || |body| > MAX_BODY {
      return None;
    }
    if id !in tx.posts || Gone(tx.posts[id].status) {
      return None;
    }
    var status := tx.posts[id].status;
    var saved := SaveRevision(tx, Item(APost, id), at);
    if saved.None? || id !in saved.value.posts {
      return None;
    }
    var db := saved.value;
    db := db.(posts := db.posts[id := db.posts[id].(title := title, body := body)]);
    var edited := PostEdited(db, id, at);
    if edited.None? {
      return None;
    }
    db := edited.value;
    if status == Visible || status == Flagged {
      db := db.(fts := db.fts[id := id]);
    }
    return Some(db);
  }

  /** postEdited. */
  method PostEdited(tx: Db, p: Id, at: int) returns (r: Option<Db>)
    ensures r == C.PostEdited(tx, p, at)
  {
    hide C.ThreadChanged, Jobs.Schedule;
    if p !in tx.posts {
      return None;
    }
    var v := tx.posts[p].version + 1;
    var db := tx.(posts := tx.posts[p := tx.posts[p].(version := v)]);
    db := ScheduleJob(db, JobKey(Check, p), v, at, at);
    assert db == C.Marked(tx, p, at);
    r := ThreadChanged(db, p, at);
  }

  /** The parent a reply is stored with. */
  method ReplyTarget(tx: Db, post: Id, parent: Id) returns (r: Option<Option<Id>>)
    ensures r == C.ReplyParent(tx, post, parent)
  {
    var top: Option<Id> := None;
    if parent != 0 {
      if parent !in tx.comments || tx.comments[parent].post != post {
        return None;
      }
      top := Some(parent);
      if tx.comments[parent].parent.Some? {
        top := Some(tx.comments[parent].parent.value);
      }
    }
    return Some(top);
  }

  /** What CreateComment writes before the thread is told. */
  ghost function CommentAdded(tx: Db, id: Id, c: Comment, images: seq<Id>): Db
    requires c.post in tx.posts
  {
    C.AddCount(tx.(comments := tx.comments[id := c], side := C.WithImages(tx.side, c.post, Some(id), images)), c.post, 1)
  }

  method AddComment(tx: Db, id: Id, c: Comment, images: seq<Id>) returns (r: Option<Db>)
    requires c.post in tx.posts
    ensures r == if id in tx.comments || !C.FreshImages(tx, images) then None else Some(CommentAdded(tx, id, c, images))
  {
    FreshRowsAre(tx, images);
    hide C.WithImages, C.FreshImages;
    if id in tx.comments {
      return None;
    }
    var db := tx.(comments := tx.comments[id := c]);
    var side := InsertImages(db.side, c.post, Some(id), images);
    if side.None? {
      return None;
    }
    db := db.(side := side.value);
    db := db.(posts := db.posts[c.post := db.posts[c.post].(commentCount := db.posts[c.post].commentCount + 1)]);
    return Some(db);
  }

  method CreateComment(tx: Db, id: Id, post: Id, parent: Id, user: Id, body: string, image: Option<Id>,
                       at: int) returns (r: Option<Db>)
    ensures r == C.CreateComment(tx, id, post, parent, user, body, image, at)
  {
    hide C.ThreadChanged, Jobs.Schedule, C.IsMember, C.WithImages, C.FreshImages, C.ReplyParent, C.AddCount;
    if (body == "" && image.None?) || |body| > MAX_COMMENT {
      return None;
    }
    if !C.IsMember(tx, user) {
      return None;
    }
    if post !in tx.posts || !Shown(tx.posts[post].status) {
      return None;
    }
    if tx.posts[post].locked {
      return None;
    }
    var top := ReplyTarget(tx, post, parent);
    if top.None? {
      return None;
    }
    var images := if image.Some? then [image.value] else [];
    var added := AddComment(tx, id, Comment(post, top.value, user, body, Visible, None, 1, false, None), images);
    if added.None? {
      return None;
    }
    var changed := ThreadChanged(added.value, post, at);
    if changed.None? {
      return None;
    }
    var db := ScheduleJob(changed.value, JobKey(CheckComment, id), 1, at, at);
    return Some(db.(fts := db.fts[id := post]));
  }

  method EditComment(tx: Db, id: Id, body: string, at: int) returns (r: Option<Db>)
    ensures r == C.EditComment(tx, id, body, at)
  {
    hide C.SaveRevision, C.ThreadChanged, Jobs.Schedule;
    if body == "" || |body| > MAX_COMMENT {
      return None;
    }
    if id !in tx.comments || Gone(tx.comments[id].status) {
      return None;
    }
    var status, post := tx.comments[id].status, tx.comments[id].post;
    var saved := SaveRevision(tx, Item(AComment, id), at);
    if saved.None? || id !in saved.value.comments {
      return None;
    }
    var db := saved.value;
    var v := db.comments[id].version + 1;
    db := db.(comments := db.comments[id := db.comments[id].(body := body, version := v)]);
    db := ScheduleJob(db, JobKey(CheckComment, id), v, at, at);
    assert db == C.Rewritten(saved.value, id, body, at);
    var changed := ThreadChanged(db, post, at);
    if changed.None? {
      return None;
    }
    db := changed.value;
    if status == Visible || status == Flagged {
      db := db.(fts := db.fts[id := post]);
    }
    return Some(db);
  }

  method SetStatus(tx: Db, item: Item, status: Status, purge: Option<int>) returns (r: Db)
    requires C.Exists(tx, item)
    ensures r == C.SetStatus(tx, item, status, purge)
  {
    if item.kind == APost {
      var p := tx.posts[item.id].(status := status);
      p := p.(purgeAfter := purge);
      r := tx.(posts := tx.posts[item.id := p]);
    } else {
      var c := tx.comments[item.id].(status := status);
      c := c.(purgeAfter := purge);
      r := tx.(comments := tx.comments[item.id := c]);
    }
  }

  method SoftDelete(tx: Db, item: Item, byMod: bool, at: int) returns (r: Option<Db>)
    ensures r == C.SoftDelete(tx, item, byMod, at)
  {
    hide C.ThreadChanged, C.SetStatus;
    var status, keep := Deleted, AUTHOR_DELETE_KEEP;
    if byMod {
      status, keep := Removed, MOD_REMOVE_KEEP;
    }
    if !C.Exists(tx, item) {
      return None;
    }
    var was := C.StatusOf(tx, item);
    if was == Deleted || was == Removed {
      return Some(tx); // nothing left to do
    }
    var db := SetStatus(tx, item, status, Some(at + keep));
    db := db.(fts := tx.fts - {item.id});
    var changed := ThreadChanged(db, C.ThreadOf(tx, item), at);
    if changed.None? {
      return None;
    }
    db := changed.value;
    var post := C.ThreadOf(tx, item);
    if item.kind == AComment && (was == Visible || was == Flagged) && post in db.posts {
      db := db.(posts := db.posts[post := db.posts[post].(commentCount := db.posts[post].commentCount - 1)]);
    }
    return Some(db);
  }

  method Restore(tx: Db, item: Item, at: int) returns (r: Option<Db>)
    ensures r == C.Restore(tx, item, at)
  {
    hide C.ThreadChanged, C.SetStatus;
    if !C.Exists(tx, item) {
      return None;
    }
    var was, post := C.StatusOf(tx, item), C.ThreadOf(tx, item);
    if was == Visible {
      return Some(tx);
    }
    var db := SetStatus(tx, item, Visible, None);
    db := db.(fts := tx.fts[item.id := post]);
    var changed := ThreadChanged(db, post, at);
    if changed.None? {
      return None;
    }
    db := changed.value;
    if item.kind == AComment && was != Flagged && post in db.posts {
      db := db.(posts := db.posts[post := db.posts[post].(commentCount := db.posts[post].commentCount + 1)]);
    }
    return Some(db);
  }

  /** changeStatus. */
  method ChangeStatus(tx: Db, item: Item, to: Status, at: int) returns (r: Option<Db>)
    requires C.Exists(tx, item)
    ensures r == C.ChangeStatus(tx, item, to, at)
  {
    hide C.ThreadChanged, C.SetStatus;
    var was, post := C.StatusOf(tx, item), C.ThreadOf(tx, item);
    if was == to {
      return Some(tx);
    }
    var db := SetStatus(tx, item, to, C.PurgeOf(tx, item));
    if Shown(to) {
      db := db.(fts := tx.fts[item.id := post]);
    } else {
      db := db.(fts := tx.fts - {item.id});
    }
    if item.kind == AComment && Shown(was) != Shown(to) && post in db.posts {
      var delta := if Shown(to) then 1 else -1;
      db := db.(posts := db.posts[post := db.posts[post].(commentCount := db.posts[post].commentCount + delta)]);
    }
    r := ThreadChanged(db, post, at);
  }
}
