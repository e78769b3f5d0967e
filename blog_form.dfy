/** The form that creates or edits a blog post
    (src/admin/pages/BlogForm.jsx); the page that hosts it owns the store,
    the list of posts, the form's visibility and the post being edited. */
module BlogForm {
  import opened Wrappers
  import opened Records
  import Store
  import BlogsAdmin

  /** `blogData` (lines 76-84): the editor's HTML is `content`, the post's
      date is reset to the server's clock, and the counters are carried over
      from the post being edited (`editBlog?.likes || 0`). */
  function BlogData(title: string, description: string, mainImage: string, html: string,
                    editBlog: Option<Fields>): (r: Fields)
    ensures r.Keys == {"title", "description", "mainImage", "content", "createdAt", "likes", "shares"}
    ensures r["title"] == Str(title) && r["description"] == Str(description)
    ensures r["mainImage"] == Str(mainImage) && r["content"] == Str(html)
    ensures r["createdAt"] == ServerTime
    ensures editBlog.None? ==> r["likes"] == Num(0) && r["shares"] == Num(0)
  {
    var carried := (key: string) =>
      FirstTruthy([if editBlog.Some? then Get(editBlog.value, key) else None], Num(0));
    map["title" := Str(title), "description" := Str(description), "mainImage" := Str(mainImage),
        "content" := Str(html), "createdAt" := ServerTime,
        "likes" := carried("likes"), "shares" := carried("shares")]
  }

  /** Lines 86-90: an edit updates the post being edited, otherwise a new
      post is added under a fresh key. */
  function Save(db: Store.Db, data: Fields, editBlog: Option<Doc>, newId: string, ok: bool): (r: Option<Store.Db>)
    requires (Store.Blogs, newId) !in db.docs
    ensures editBlog.Some? ==> r == Store.Update(db, Store.Blogs, editBlog.value.id, data, ok)
    ensures editBlog.None? ==> r == Store.Add(db, Store.Blogs, newId, data, ok)
  {
    if editBlog.Some? then Store.Update(db, Store.Blogs, editBlog.value.id, data, ok)
    else Store.Add(db, Store.Blogs, newId, data, ok)
  }

  /** Editing a post keeps its like and share counts as they were when the
      form was opened. */
  lemma EditKeepsCounters(title: string, description: string, mainImage: string, html: string, e: Fields)
    ensures var r := BlogData(title, description, mainImage, html, Some(e));
            CounterOf(r, "likes") == CounterOf(e, "likes") && CounterOf(r, "shares") == CounterOf(e, "shares")
  {
  }

  /** Saving an edit writes the counts the form was opened with over the
      stored ones, so likes and shares received in between are lost, and it
      gives the post a new date. */
  lemma EditOverwritesLiveCounters(db: Store.Db, blog: Doc, title: string, description: string,
                                   mainImage: string, html: string, newId: string)
    requires (Store.Blogs, newId) !in db.docs
    requires (Store.Blogs, blog.id) in db.docs
    ensures var r := Save(db, BlogData(title, description, mainImage, html, Some(blog.fields)), Some(blog), newId, true);
            r.Some?
            && CounterOf(r.value.docs[(Store.Blogs, blog.id)], "likes") == CounterOf(blog.fields, "likes")
            && CounterOf(r.value.docs[(Store.Blogs, blog.id)], "shares") == CounterOf(blog.fields, "shares")
            && r.value.docs[(Store.Blogs, blog.id)]["createdAt"] == ServerTime
  {
    EditKeepsCounters(title, description, mainImage, html, blog.fields);
  }

  /** With the page's button as written, a post saved from the "Add Blog"
      form opened after closing an edit replaces the closed post instead of
      adding one. */
  lemma AddAfterClosedEditReplaces(db: Store.Db, p: BlogsAdmin.Panel, blog: Doc, data: Fields, newId: string)
    requires (Store.Blogs, newId) !in db.docs
    requires (Store.Blogs, blog.id) in db.docs
    ensures var q := BlogsAdmin.TogglePanel(BlogsAdmin.TogglePanel(BlogsAdmin.EditPanel(p, blog)));
            var r := Save(db, data, q.editBlog, newId, true);
            r.Some? && r.value.docs.Keys == db.docs.Keys
  {
    BlogsAdmin.AddAfterClosedEditStillEdits(p, blog);
  }

  /** With the clearing button, that form adds a new post and leaves the
      closed one as it was. */
  lemma AddAfterClosedEditAdds(db: Store.Db, p: BlogsAdmin.Panel, blog: Doc, data: Fields, newId: string)
    requires (Store.Blogs, newId) !in db.docs
    requires (Store.Blogs, blog.id) in db.docs
    ensures var q := BlogsAdmin.TogglePanelClearing(BlogsAdmin.TogglePanelClearing(BlogsAdmin.EditPanel(p, blog)));
            var r := Save(db, data, q.editBlog, newId, true);
            r.Some? && r.value.docs.Keys == db.docs.Keys + {(Store.Blogs, newId)}
            && r.value.docs[(Store.Blogs, blog.id)] == db.docs[(Store.Blogs, blog.id)]
  {
    BlogsAdmin.AddAfterClosedEditIsFresh(p, blog, 0);
  }

  /** What the store becomes when the form is saved (`None` when the write fails). */
  function Written(db: Store.Db, title: string, description: string, mainImage: string, html: string,
                   editBlog: Option<Doc>, newId: string, ok: bool): Option<Store.Db>
    requires (Store.Blogs, newId) !in db.docs
  {
    Save(db, BlogData(title, description, mainImage, html, if editBlog.Some? then Some(editBlog.value.fields) else None),
         editBlog, newId, ok)
  }

  class BlogFormView {
    var title: string
    var description: string
    var mainImage: string
    var error: string
    var loading: bool

    constructor ()
      ensures title == "" && description == "" && mainImage == "" && error == "" && !loading
    {
      title := "";
      description := "";
      mainImage := "";
      error := "";
      loading := false;
    }

    /** The effect at lines 57-64: the form is filled from the post being
        edited (a missing text field reads as empty). */
    method LoadEdit(editBlog: Option<Doc>)
      modifies this`title, this`description, this`mainImage
      ensures editBlog.Some? ==> title == TextOf(editBlog.value.fields, "title")
                                 && description == TextOf(editBlog.value.fields, "description")
                                 && mainImage == TextOf(editBlog.value.fields, "mainImage")
      ensures editBlog.None? ==> title == old(title) && description == old(description) && mainImage == old(mainImage)
    {
      if editBlog.Some? {
        title := TextOf(editBlog.value.fields, "title");
        description := TextOf(editBlog.value.fields, "description");
        mainImage := TextOf(editBlog.value.fields, "mainImage");
      }
    }

    /** `handleSubmit` (lines 66-105); `html` is the editor's HTML, `snap`
        what the page's refetch reads back. */
    method Submit(page: BlogsAdmin.BlogsAdminPage, html: string, newId: string, ok: bool,
                  readOk: bool, snap: seq<Doc>)
      requires (Store.Blogs, newId) !in page.db.docs
      requires var r := Written(page.db, title, description, mainImage, html, page.editBlog, newId, ok);
               r.Some? ==> Store.IsSnapshot(r.value, Store.Blogs, (f: Fields) => true, snap)
      modifies this`title, this`description, this`mainImage, this`error, this`loading
      modifies page`db, page`blogs, page`loading, page`showForm, page`editBlog
      ensures old(title) == "" || html == "" ==>
                error == "Title and content are required." && page.db == old(page.db)
                && page.showForm == old(page.showForm) && page.editBlog == old(page.editBlog)
                && page.blogs == old(page.blogs) && page.loading == old(page.loading)
                && title == old(title) && description == old(description) && mainImage == old(mainImage)
                && loading == old(loading)
      ensures var r := Written(old(page.db), old(title), old(description), old(mainImage), html,
                               old(page.editBlog), newId, ok);
              old(title) != "" && html != "" ==>
                !loading
                && (r.Some? ==> page.db == r.value && page.blogs == (if readOk then snap else old(page.blogs))
                                && !page.loading && !page.showForm && page.editBlog.None? && error == ""
                                && title == "" && description == "" && mainImage == "")
                && (r.None? ==> page.db == old(page.db) && error == "Failed to save blog. Try again."
                                && page.showForm == old(page.showForm) && page.editBlog == old(page.editBlog)
                                && page.blogs == old(page.blogs) && page.loading == old(page.loading)
                                && title == old(title) && description == old(description)
                                && mainImage == old(mainImage))
    {
      error := "";
      if title == "" || html == "" {
        error := "Title and content are required.";
        return;
      }
      Persist(page, html, newId, ok, readOk, snap);
    }

    /** The `try` block of `handleSubmit` (lines 74-104). */
    method Persist(page: BlogsAdmin.BlogsAdminPage, html: string, newId: string, ok: bool,
                   readOk: bool, snap: seq<Doc>)
      requires (Store.Blogs, newId) !in page.db.docs
      requires var r := Written(page.db, title, description, mainImage, html, page.editBlog, newId, ok);
               r.Some? ==> Store.IsSnapshot(r.value, Store.Blogs, (f: Fields) => true, snap)
      requires error == ""
      modifies this`title, this`description, this`mainImage, this`error, this`loading
      modifies page`db, page`blogs, page`loading, page`showForm, page`editBlog
      ensures var r := Written(old(page.db), old(title), old(description), old(mainImage), html,
                               old(page.editBlog), newId, ok);
              !loading
              && (r.Some? ==> page.db == r.value && page.blogs == (if readOk then snap else old(page.blogs))
                              && !page.loading && !page.showForm && page.editBlog.None? && error == ""
                              && title == "" && description == "" && mainImage == "")
              && (r.None? ==> page.db == old(page.db) && error == "Failed to save blog. Try again."
                              && page.showForm == old(page.showForm) && page.editBlog == old(page.editBlog)
                              && page.blogs == old(page.blogs) && page.loading == old(page.loading)
                              && title == old(title) && description == old(description)
                              && mainImage == old(mainImage))
    {
      loading := true;
      var r := Written(page.db, title, description, mainImage, html, page.editBlog, newId, ok);
      if r.Some? {
        page.Saved(r.value, readOk, snap);
        title := "";
        description := "";
        mainImage := "";
      } else {
        error := "Failed to save blog. Try again.";
      }
      loading := false;
    }
  }
}
