/** The blog-management page (src/admin/pages/BlogsAdmin.jsx): posts can be
    deleted, and each post's comments moderated in a modal. */
module BlogsAdmin {
  import opened Wrappers
  import opened Records
  import Store
  import Blog
  import SingleBlog

  /** The modal's query (line 56): every comment of the post, whatever its status. */
  function ForBlog(blogId: string): Fields -> bool {
    (f: Fields) => HasText(f, "blogId", blogId)
  }

  datatype Moderation = ApproveButton | RevokeButton

  /** Lines 246-264: "Approve" for status exactly "pending", "Revoke" otherwise. */
  function ModerationFor(comment: Fields): (m: Moderation)
    ensures m == ApproveButton <==> HasText(comment, "status", "pending")
  {
    if HasText(comment, "status", "pending") then ApproveButton else RevokeButton
  }

  const ApprovePatch: Fields := map["status" := Str("approved")]
  const RevokePatch: Fields := map["status" := Str("pending")]

  /** Approving shows the comment on its post and offers "Revoke"; revoking
      hides it again and offers "Approve". */
  lemma ModerationToggles(blogId: string, comment: Fields)
    requires HasText(comment, "blogId", blogId)
    ensures SingleBlog.ApprovedFor(blogId)(comment + ApprovePatch)
    ensures ModerationFor(comment + ApprovePatch) == RevokeButton
    ensures !SingleBlog.ApprovedFor(blogId)(comment + RevokePatch)
    ensures ModerationFor(comment + RevokePatch) == ApproveButton
    ensures comment + ApprovePatch + RevokePatch == comment + RevokePatch
  {
  }

  /** As written, a comment posted from the blog list has no status: its
      post never shows it, and the moderator is offered "Revoke", not
      "Approve"; it takes a revoke and then an approve to publish it. */
  lemma BlogListCommentHidden(blogId: string, form: Blog.CommentForm)
    ensures var f := Blog.CommentFields(blogId, form);
            !SingleBlog.ApprovedFor(blogId)(f)
            && ModerationFor(f) == RevokeButton
            && !SingleBlog.ApprovedFor(blogId)(f + ApprovePatch + RevokePatch)
            && SingleBlog.ApprovedFor(blogId)(f + RevokePatch + ApprovePatch)
  {
  }

  /** A comment stored as pending, as the post page stores it, is offered
      for approval and one approval publishes it. */
  lemma PendingCommentApprovable(blogId: string, form: Blog.CommentForm)
    ensures var f := SingleBlog.CommentFields(blogId, form);
            ModerationFor(f) == ApproveButton && SingleBlog.ApprovedFor(blogId)(f + ApprovePatch)
  {
  }

  /** Deleting a post leaves its comments in the store. */
  lemma DeleteBlogKeepsComments(db: Store.Db, blogId: string, commentId: string)
    requires (Store.BlogComments, commentId) in db.docs
    ensures var r := Store.Delete(db, Store.Blogs, blogId, true);
            r.Some? && r.value.docs[(Store.BlogComments, commentId)] == db.docs[(Store.BlogComments, commentId)]
  {
  }

  /** The part of the page that decides what the blog form edits. */
  datatype Panel = Panel(showForm: bool, editBlog: Option<Doc>)

  /** `handleEdit` (lines 79-82) */
  function EditPanel(p: Panel, blog: Doc): (r: Panel)
    ensures r.showForm && r.editBlog == Some(blog)
  {
    Panel(true, Some(blog))
  }

  /** The "Add Blog"/"Close" button (line 118) as written: it flips the
      form's visibility and keeps the blog being edited. */
  function TogglePanel(p: Panel): (r: Panel)
    ensures r.showForm != p.showForm && r.editBlog == p.editBlog
  {
    p.(showForm := !p.showForm)
  }

  /** The button as evidently intended: closing the form also forgets the
      blog being edited, so "Add Blog" opens an empty form. */
  function TogglePanelClearing(p: Panel): (r: Panel)
    ensures r.showForm != p.showForm
    ensures p.showForm ==> r.editBlog.None?
    ensures !p.showForm ==> r.editBlog == p.editBlog
  {
    if p.showForm then Panel(false, None) else p.(showForm := true)
  }

  /** As written, closing an edit and pressing "Add Blog" shows the form
      still bound to the closed post. */
  lemma AddAfterClosedEditStillEdits(p: Panel, blog: Doc)
    ensures var q := TogglePanel(TogglePanel(EditPanel(p, blog)));
            q.showForm && q.editBlog == Some(blog)
  {
  }

  /** With the clearing toggle, "Add Blog" after closing an edit opens a
      form bound to no post; once closed, any number of presses keeps it so. */
  lemma {:induction false} AddAfterClosedEditIsFresh(p: Panel, blog: Doc, presses: nat)
    ensures var q := TogglePanelClearing(TogglePanelClearing(EditPanel(p, blog)));
            q.showForm && q.editBlog.None?
    ensures TogglesClearing(TogglePanelClearing(EditPanel(p, blog)), presses).editBlog.None?
    decreases presses
  {
    if presses > 0 {
      AddAfterClosedEditIsFresh(p, blog, presses - 1);
      var q := TogglesClearing(TogglePanelClearing(EditPanel(p, blog)), presses - 1);
      assert TogglesClearing(TogglePanelClearing(EditPanel(p, blog)), presses) == TogglePanelClearing(q);
    }
  }

  /** `n` presses of the clearing toggle. */
  function TogglesClearing(p: Panel, n: nat): Panel
    decreases n
  {
    if n == 0 then p else TogglePanelClearing(TogglesClearing(p, n - 1))
  }

  class BlogsAdminPage {
    var db: Store.Db
    var blogs: seq<Doc>
    var loading: bool
    var showForm: bool
    var editBlog: Option<Doc>
    var showComments: bool
    var selectedBlogId: Option<string>
    var comments: seq<Doc>
    var commentsLoading: bool

    constructor (db: Store.Db)
      ensures this.db == db && blogs == [] && loading && !showForm && editBlog.None?
      ensures !showComments && selectedBlogId.None? && comments == [] && !commentsLoading
    {
      this.db := db;
      blogs := [];
      loading := true;
      showForm := false;
      editBlog := None;
      showComments := false;
      selectedBlogId := None;
      comments := [];
      commentsLoading := false;
    }

    /** `fetchBlogs`; a failed read is only logged. */
    method FetchBlogs(ok: bool, snap: seq<Doc>)
      requires Store.IsSnapshot(db, Store.Blogs, (f: Fields) => true, snap)
      modifies this`blogs, this`loading
      ensures blogs == (if ok then snap else old(blogs)) && !loading
    {
      if ok {
        blogs := snap;
      }
      loading := false;
    }

    /** `fetchComments(blogId)` */
    method FetchComments(blogId: string, ok: bool, snap: seq<Doc>)
      requires Store.IsSnapshot(db, Store.BlogComments, ForBlog(blogId), snap)
      modifies this`comments, this`commentsLoading
      ensures comments == (if ok then snap else old(comments)) && !commentsLoading
    {
      commentsLoading := true;
      if ok {
        comments := snap;
      }
      commentsLoading := false;
    }

    /** `handleOpenComments` */
    method OpenComments(blogId: string, ok: bool, snap: seq<Doc>)
      requires Store.IsSnapshot(db, Store.BlogComments, ForBlog(blogId), snap)
      modifies this`selectedBlogId, this`showComments, this`comments, this`commentsLoading
      ensures selectedBlogId == Some(blogId) && showComments
      ensures comments == (if ok then snap else old(comments)) && !commentsLoading
    {
      selectedBlogId := Some(blogId);
      showComments := true;
      FetchComments(blogId, ok, snap);
    }

    /** `handleApprove` (with `RevokePatch`, `handleRevoke`): a failed write
        stops the handler before the refetch. */
    method SetCommentStatus(id: string, patch: Fields, ok: bool, readOk: bool, snap: seq<Doc>)
      requires patch == ApprovePatch || patch == RevokePatch
      requires selectedBlogId.Some?
      requires Store.Update(db, Store.BlogComments, id, patch, ok).Some? ==>
                 Store.IsSnapshot(Store.Update(db, Store.BlogComments, id, patch, ok).value,
                                  Store.BlogComments, ForBlog(selectedBlogId.value), snap)
      modifies this`db, this`comments, this`commentsLoading
      ensures var r := Store.Update(old(db), Store.BlogComments, id, patch, ok);
              if r.Some? then db == r.value && comments == (if readOk then snap else old(comments)) && !commentsLoading
              else db == old(db) && comments == old(comments) && commentsLoading == old(commentsLoading)
    {
      var r := Store.Update(db, Store.BlogComments, id, patch, ok);
      if r.Some? {
        db := r.value;
        FetchComments(selectedBlogId.value, readOk, snap);
      }
    }

    /** `handleDeleteComment` */
    method DeleteComment(id: string, confirmed: bool, ok: bool, readOk: bool, snap: seq<Doc>)
      requires selectedBlogId.Some?
      requires Store.IsSnapshot(Store.Delete(db, Store.BlogComments, id, true).value,
                                Store.BlogComments, ForBlog(selectedBlogId.value), snap)
      modifies this`db, this`comments, this`commentsLoading
      ensures confirmed && ok ==>
                db == Store.Delete(old(db), Store.BlogComments, id, true).value
                && comments == (if readOk then snap else old(comments)) && !commentsLoading
      ensures !(confirmed && ok) ==>
                db == old(db) && comments == old(comments) && commentsLoading == old(commentsLoading)
    {
      if confirmed {
        var r := Store.Delete(db, Store.BlogComments, id, ok);
        if r.Some? {
          db := r.value;
          FetchComments(selectedBlogId.value, readOk, snap);
        }
      }
    }

    /** `handleDeleteBlog` */
    method DeleteBlog(id: string, confirmed: bool, ok: bool, readOk: bool, snap: seq<Doc>)
      requires Store.IsSnapshot(Store.Delete(db, Store.Blogs, id, true).value, Store.Blogs, (f: Fields) => true, snap)
      modifies this`db, this`blogs, this`loading
      ensures confirmed && ok ==>
                db == Store.Delete(old(db), Store.Blogs, id, true).value
                && blogs == (if readOk then snap else old(blogs)) && !loading
      ensures !(confirmed && ok) ==> db == old(db) && blogs == old(blogs) && loading == old(loading)
    {
      if confirmed {
        var r := Store.Delete(db, Store.Blogs, id, ok);
        if r.Some? {
          db := r.value;
          FetchBlogs(readOk, snap);
        }
      }
    }

    /** `handleEdit` */
    method Edit(blog: Doc)
      modifies this`editBlog, this`showForm
      ensures Panel(showForm, editBlog) == EditPanel(old(Panel(showForm, editBlog)), blog)
    {
      editBlog := Some(blog);
      showForm := true;
    }

    /** What the blog form calls once its post is saved: `fetchBlogs()`,
        `setShowForm(false)` and `setEditBlog(null)` (BlogForm.jsx lines 92-94). */
    method Saved(written: Store.Db, readOk: bool, snap: seq<Doc>)
      requires Store.IsSnapshot(written, Store.Blogs, (f: Fields) => true, snap)
      modifies this`db, this`blogs, this`loading, this`showForm, this`editBlog
      ensures db == written && blogs == (if readOk then snap else old(blogs)) && !loading
      ensures !showForm && editBlog.None?
    {
      db := written;
      FetchBlogs(readOk, snap);
      showForm := false;
      editBlog := None;
    }

    /** The "Add Blog"/"Close" button, as written. */
    method ToggleForm()
      modifies this`showForm
      ensures Panel(showForm, editBlog) == TogglePanel(old(Panel(showForm, editBlog)))
    {
      showForm := !showForm;
    }
  }
}
