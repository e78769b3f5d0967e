/** A single post's page (src/pages/SingleBlog.jsx, routed as "/blog/:id"):
    the post, its approved comments, a comment form whose comments await
    moderation, and like and share counters. */
module SingleBlog {
  import opened Wrappers
  import opened Records
  import Store
  import Blog

  /** The comment query of lines 53-58: this post's comments with status
      exactly "approved". */
  function ApprovedFor(blogId: string): Fields -> bool {
    (f: Fields) => HasText(f, "blogId", blogId) && HasText(f, "status", "approved")
  }

  /** Every comment shown belongs to this post and is approved, and every
      such comment in the store is shown. */
  lemma ShownCommentsApproved(db: Store.Db, blogId: string, snap: seq<Doc>)
    requires Store.IsSnapshot(db, Store.BlogComments, ApprovedFor(blogId), snap)
    ensures forall d :: d in snap ==> HasText(d.fields, "blogId", blogId) && HasText(d.fields, "status", "approved")
    ensures forall id :: (Store.BlogComments, id) in db.docs && ApprovedFor(blogId)(db.docs[(Store.BlogComments, id)]) ==>
              Doc(id, db.docs[(Store.BlogComments, id)]) in snap
  {
    var q := Store.Query(db, Store.BlogComments, ApprovedFor(blogId));
    forall id | (Store.BlogComments, id) in db.docs && ApprovedFor(blogId)(db.docs[(Store.BlogComments, id)])
      ensures Doc(id, db.docs[(Store.BlogComments, id)]) in snap
    {
      assert id in q;
    }
  }

  /** The comment record of lines 83-90. */
  function CommentFields(blogId: string, f: Blog.CommentForm): (r: Fields)
    ensures r.Keys == {"blogId", "name", "email", "comment", "status", "createdAt"}
    ensures HasText(r, "status", "pending") && HasText(r, "blogId", blogId)
  {
    Blog.CommentFields(blogId, f)["status" := Str("pending")]
  }

  /** A new comment is not shown until a moderator approves it. */
  lemma NewCommentAwaitsApproval(blogId: string, f: Blog.CommentForm)
    ensures !ApprovedFor(blogId)(CommentFields(blogId, f))
  {
  }

  /** `{ ...prev, key: (prev.key || 0) + 1 }` */
  function Bumped(d: Doc, key: string): (r: Doc)
    ensures r.id == d.id && CounterOf(r.fields, key) == CounterOf(d.fields, key) + 1
    ensures r.fields.Keys == d.fields.Keys + {key}
    ensures forall k :: k in d.fields && k != key ==> r.fields[k] == d.fields[k]
  {
    Doc(d.id, d.fields[key := Num(CounterOf(d.fields, key) + 1)])
  }

  /** The local count and the stored one move together: a post shown as
      stored is still shown as stored after either counter is bumped. */
  lemma BumpInSync(db: Store.Db, d: Doc, key: string)
    requires (Store.Blogs, d.id) in db.docs && db.docs[(Store.Blogs, d.id)] == d.fields
    ensures var r := Store.Increment(db, Store.Blogs, d.id, key, true);
            r.Some? && r.value.docs[(Store.Blogs, d.id)] == Bumped(d, key).fields
  {
  }

  class SingleBlogPage {
    const id: string
    var db: Store.Db
    var blog: Option<Doc>
    var comments: seq<Doc>
    var commentForm: Blog.CommentForm
    var error: string
    var submitted: bool

    constructor (id: string, db: Store.Db)
      ensures this.id == id && this.db == db && blog.None? && comments == []
      ensures commentForm == Blog.EmptyComment && error == "" && !submitted
    {
      this.id := id;
      this.db := db;
      blog := None;
      comments := [];
      commentForm := Blog.EmptyComment;
      error := "";
      submitted := false;
    }

    /** The post effect: a post that does not exist leaves the page loading. */
    method LoadBlog(readOk: bool)
      modifies this`blog
      ensures readOk && (Store.Blogs, id) in db.docs ==> blog == Some(Doc(id, db.docs[(Store.Blogs, id)]))
      ensures !(readOk && (Store.Blogs, id) in db.docs) ==> blog == old(blog)
    {
      if readOk && (Store.Blogs, id) in db.docs {
        blog := Some(Doc(id, db.docs[(Store.Blogs, id)]));
      }
    }

    /** The comments effect. */
    method LoadComments(ok: bool, snap: seq<Doc>)
      requires Store.IsSnapshot(db, Store.BlogComments, ApprovedFor(id), snap)
      modifies this`comments
      ensures comments == (if ok then snap else old(comments))
    {
      if ok {
        comments := snap;
      }
    }

    /** `handleSubmitComment`; `newId` is the id the backend assigns. */
    method SubmitComment(newId: string, ok: bool)
      requires (Store.BlogComments, newId) !in db.docs
      modifies this`db, this`commentForm, this`submitted, this`error
      ensures var f := old(commentForm);
              if f.name == "" || f.email == "" || f.comment == "" then
                error == "Please fill all fields" && !submitted && db == old(db) && commentForm == f
              else if ok then
                db == Store.Add(old(db), Store.BlogComments, newId, CommentFields(id, f), true).value
                && submitted && commentForm == Blog.EmptyComment && error == ""
              else
                error == "Failed to submit comment" && !submitted && db == old(db) && commentForm == f
    {
      error := "";
      submitted := false;
      var f := commentForm;
      if f.name == "" || f.email == "" || f.comment == "" {
        error := "Please fill all fields";
        return;
      }
      var r := Store.Add(db, Store.BlogComments, newId, CommentFields(id, f), ok);
      if r.Some? {
        db := r.value;
        submitted := true;
        commentForm := Blog.EmptyComment;
      } else {
        error := "Failed to submit comment";
      }
    }

    /** `handleLike`; the buttons exist only once the post is loaded. */
    method Like(ok: bool)
      requires blog.Some?
      modifies this`db, this`blog
      ensures var r := Store.Increment(old(db), Store.Blogs, id, "likes", ok);
              if r.Some? then db == r.value && blog == Some(Bumped(old(blog).value, "likes"))
              else db == old(db) && blog == old(blog)
    {
      var r := Store.Increment(db, Store.Blogs, id, "likes", ok);
      if r.Some? {
        db := r.value;
        blog := Some(Bumped(blog.value, "likes"));
      }
    }

    /** `handleShare`: the count goes up only after the share or copy step
        completes (`shared`) and the write succeeds. */
    method Share(shared: bool, ok: bool)
      requires blog.Some?
      modifies this`db, this`blog
      ensures var r := Store.Increment(old(db), Store.Blogs, id, "shares", ok);
              if shared && r.Some? then db == r.value && blog == Some(Bumped(old(blog).value, "shares"))
              else db == old(db) && blog == old(blog)
    {
      if !shared {
        return;
      }
      var r := Store.Increment(db, Store.Blogs, id, "shares", ok);
      if r.Some? {
        db := r.value;
        blog := Some(Bumped(blog.value, "shares"));
      }
    }
  }
}
