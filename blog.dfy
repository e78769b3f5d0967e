/** The blog list (src/components/Blog.jsx): previews of every post, one
    post expanded at a time with its like button and a comment form. */
module Blog {
  import opened Wrappers
  import opened Text
  import opened Records
  import opened Lists
  import Store

  /** The position of the first `c` in `s`. */
  function IndexOf(s: string, c: char): (i: nat)
    requires c in s
    ensures i < |s| && s[i] == c && c !in s[..i]
  {
    if s[0] == c then 0
    else
      assert c in s[1..];
      var k := IndexOf(s[1..], c);
      assert s[..k + 1] == [s[0]] + s[1..][..k];
      1 + k
  }

  /** `s.replace(/<[^>]*>/g, '')`: a '<' that has a '>' somewhere after it
      starts a tag running to the first such '>', and the tag is dropped. */
  function StripTags(s: string): (r: string)
    ensures |r| <= |s|
    ensures '>' !in s ==> '>' !in r
    ensures '<' !in s ==> r == s
    decreases |s|
  {
    if s == [] then []
    else if s[0] == '<' && '>' in s[1..] then
      StripTags(s[1..][IndexOf(s[1..], '>') + 1..])
    else [s[0]] + StripTags(s[1..])
  }

  /** No '<' in `r` is followed by a '>': `r` holds no complete tag. */
  predicate NoTag(r: string) {
    forall i, j :: 0 <= i < j < |r| && r[i] == '<' ==> r[j] != '>'
  }

  lemma NoTagCons(c: char, t: string)
    requires NoTag(t) && (c == '<' ==> '>' !in t)
    ensures NoTag([c] + t)
  {
    var r := [c] + t;
    forall i, j | 0 <= i < j < |r| && r[i] == '<'
      ensures r[j] != '>'
    {
      assert r[j] == t[j - 1];
      if i == 0 {
        assert t[j - 1] in t;
      } else {
        assert r[i] == t[i - 1];
      }
    }
  }

  /** What is left holds no complete tag. */
  lemma {:induction false} StripTagsLeavesNoTag(s: string)
    ensures NoTag(StripTags(s))
    decreases |s|
  {
    if s != [] {
      if s[0] == '<' && '>' in s[1..] {
        var rest := s[1..][IndexOf(s[1..], '>') + 1..];
        assert StripTags(s) == StripTags(rest);
        StripTagsLeavesNoTag(rest);
      } else {
        StripTagsLeavesNoTag(s[1..]);
        NoTagCons(s[0], StripTags(s[1..]));
      }
    }
  }

  const PreviewWords := 50

  /** `getPreview(blog)` */
  function Preview(blog: Fields): (r: string)
    ensures !Truthy(Get(blog, "content")) ==> r == ""
    ensures Truthy(Get(blog, "content")) ==>
              var t := StripTags(TextOf(blog, "content"));
              (Count(t, ' ') < PreviewWords ==> r == t)
              && (Count(t, ' ') >= PreviewWords ==> r == FirstWords(t, PreviewWords) + "...")
  {
    if !Truthy(Get(blog, "content")) then ""
    else
      var t := StripTags(TextOf(blog, "content"));
      SplitLength(t, ' ');
      var words := Split(t, ' ');
      var preview := Join(words[..if PreviewWords <= |words| then PreviewWords else |words|], ' ');
      if |words| > PreviewWords then preview + "..."
      else
        FirstWordsAll(t, PreviewWords);
        preview
  }

  /** A preview has at most 50 words and ends in "..." exactly when the
      text had more. */
  lemma PreviewBounded(blog: Fields)
    ensures |Split(Preview(blog), ' ')| <= PreviewWords
    ensures Truthy(Get(blog, "content")) ==>
              var t := StripTags(TextOf(blog, "content"));
              Count(t, ' ') >= PreviewWords <==> Preview(blog) == FirstWords(t, PreviewWords) + "..."
  {
    var r := Preview(blog);
    SplitLength(r, ' ');
    if Truthy(Get(blog, "content")) {
      var t := StripTags(TextOf(blog, "content"));
      if Count(t, ' ') >= PreviewWords {
        FirstWordsCut(t, PreviewWords);
        CountEllipsis(FirstWords(t, PreviewWords));
      } else {
        FirstWordsAll(t, PreviewWords);
        assert |FirstWords(t, PreviewWords) + "..."| == |t| + 3;
      }
    }
  }

  /** No tag survives into a preview. */
  lemma PreviewHasNoTag(blog: Fields)
    ensures NoTag(Preview(blog))
  {
    if Truthy(Get(blog, "content")) {
      var t := StripTags(TextOf(blog, "content"));
      StripTagsLeavesNoTag(TextOf(blog, "content"));
      if Count(t, ' ') >= PreviewWords {
        var p := FirstWords(t, PreviewWords);
        FirstWordsCut(t, PreviewWords);
        var r := p + "...";
        assert t[..|p|] == p;
        forall i, j | 0 <= i < j < |r| && r[i] == '<'
          ensures r[j] != '>'
        {
          assert i < |p| && r[i] == t[i];
          if j < |p| {
            assert r[j] == t[j];
          } else {
            assert r[j] == '.';
          }
        }
      }
    }
  }

  /** Line 123: with a post expanded only that post is rendered. */
  function ShownWith(expanded: Option<string>): Doc -> bool {
    (b: Doc) => expanded.None? || expanded == Some(b.id)
  }

  function Visible(blogs: seq<Doc>, expanded: Option<string>): (r: seq<Doc>)
    ensures forall b :: b in r <==> b in blogs && (expanded.None? || b.id == expanded.value)
  {
    Filter(blogs, ShownWith(expanded))
  }

  /** With nothing expanded every post is listed, in order. */
  lemma NothingExpandedShowsAll(blogs: seq<Doc>)
    ensures Visible(blogs, None) == blogs
  {
    FilterAll(blogs, ShownWith(None));
  }

  datatype CommentForm = CommentForm(name: string, email: string, comment: string)

  const EmptyComment := CommentForm("", "", "")

  /** The comment record written at lines 71-77: it has no `status`. */
  function CommentFields(blogId: string, f: CommentForm): (r: Fields)
    ensures r.Keys == {"blogId", "name", "email", "comment", "createdAt"}
    ensures r["blogId"] == Str(blogId) && r["comment"] == Str(f.comment)
  {
    map["blogId" := Str(blogId), "name" := Str(f.name), "email" := Str(f.email),
        "comment" := Str(f.comment), "createdAt" := ServerTime]
  }

  class BlogPage {
    var db: Store.Db
    var blogs: seq<Doc>
    var expanded: Option<string>
    var commentForm: CommentForm
    var submitted: bool
    var error: string

    constructor (db: Store.Db)
      ensures this.db == db && blogs == [] && expanded.None? && commentForm == EmptyComment
      ensures !submitted && error == ""
    {
      this.db := db;
      blogs := [];
      expanded := None;
      commentForm := EmptyComment;
      submitted := false;
      error := "";
    }

    /** The mount effect; a failed read is only logged. */
    method Load(ok: bool, snap: seq<Doc>)
      requires Store.IsSnapshot(db, Store.Blogs, (f: Fields) => true, snap)
      modifies this`blogs
      ensures blogs == (if ok then snap else old(blogs))
    {
      if ok {
        blogs := snap;
      }
    }

    /** "Read More" (line 261) and "Back" (line 250). */
    method SetExpanded(id: Option<string>)
      modifies this`expanded
      ensures expanded == id
    {
      expanded := id;
    }

    /** `handleCommentSubmit(blogId)`; `newId` is the id the backend assigns. */
    method CommentSubmit(blogId: string, newId: string, ok: bool)
      requires (Store.BlogComments, newId) !in db.docs
      modifies this`db, this`commentForm, this`submitted, this`error
      ensures var f := old(commentForm);
              if f.name == "" || f.email == "" || f.comment == "" then
                error == "All fields are required." && !submitted && db == old(db) && commentForm == f
              else if ok then
                db == Store.Add(old(db), Store.BlogComments, newId, CommentFields(blogId, f), true).value
                && submitted && commentForm == EmptyComment && error == ""
              else
                error == "Failed to submit comment. Please try again later." && !submitted
                && db == old(db) && commentForm == f
    {
      error := "";
      submitted := false;
      var f := commentForm;
      if f.name == "" || f.email == "" || f.comment == "" {
        error := "All fields are required.";
        return;
      }
      var r := Store.Add(db, Store.BlogComments, newId, CommentFields(blogId, f), ok);
      if r.Some? {
        db := r.value;
        submitted := true;
        commentForm := EmptyComment;
      } else {
        error := "Failed to submit comment. Please try again later.";
      }
    }

    /** `handleLike(blogId)`: the list changes only after the write succeeds. */
    method Like(blogId: string, ok: bool)
      modifies this`db, this`blogs
      ensures var r := Store.Increment(old(db), Store.Blogs, blogId, "likes", ok);
              if r.Some? then db == r.value && blogs == BumpCounter(old(blogs), blogId, "likes")
              else db == old(db) && blogs == old(blogs)
    {
      var r := Store.Increment(db, Store.Blogs, blogId, "likes", ok);
      if r.Some? {
        db := r.value;
        blogs := BumpCounter(blogs, blogId, "likes");
      }
    }
  }
}
