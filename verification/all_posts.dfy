/** The posts list controller (`AllPosts`): a cached list of posts, fetched from either the
    all-posts or the own-posts endpoint, with delete, a single in-place edit draft, and
    the render precedence loading / error / empty / list. */
module AllPosts {
  import opened JsValues
  import ListCache

  /** `createdAt` is only ever formatted for display, so it is kept as an uninterpreted
      string. */
  datatype Post = Post(id: string, title: string, authorId: string, createdAt: string, content: Option<string>)

  function PostId(p: Post): string {
    p.id
  }

  const AllBlogsUrl: string := "/api/blog/allBlogs"
  const MyBlogsUrl: string := "/api/blog/getMyBlogs"

  /** The list endpoint for the widget's scope. */
  function PostsUrl(myBlogsOnly: bool): (url: string)
    ensures url == MyBlogsUrl <==> myBlogsOnly
    ensures url == AllBlogsUrl <==> !myBlogsOnly
  {
    if myBlogsOnly then MyBlogsUrl else AllBlogsUrl
  }

  function DeleteUrl(id: string): string {
    "/api/blog/delete/" + id
  }

  function UpdateUrl(id: string): string {
    "/api/blog/update/" + id
  }

  /** The `PUT` a save issues: its URL and the draft as the body. */
  datatype UpdateRequest = UpdateRequest(url: string, title: string, content: string)

  /** The body of a successful update. */
  datatype UpdateBody = UpdateBody(post: Post)

  /** How one cached post is rendered: as the edit form holding the draft, or as an
      article, with Edit and Delete controls only in the own-posts scope. */
  datatype Row = EditForm(postId: string, title: string, content: string) | Article(post: Post, controls: bool)

  function RowFor(p: Post, editingPostId: Option<string>, editTitle: string, editContent: string,
                  myBlogsOnly: bool): (row: Row)
    ensures row.EditForm? <==> editingPostId == Some(p.id)
    ensures row.EditForm? ==> row == EditForm(p.id, editTitle, editContent)
    ensures row.Article? ==> row.post == p && row.controls == myBlogsOnly
  {
    if editingPostId == Some(p.id) then EditForm(p.id, editTitle, editContent)
    else Article(p, myBlogsOnly)
  }

  /** `posts.map(post => …)`: one row per cached post, in cache order. */
  function Rows(posts: seq<Post>, editingPostId: Option<string>, editTitle: string, editContent: string,
                myBlogsOnly: bool): (r: seq<Row>)
    ensures |r| == |posts|
    ensures forall i :: 0 <= i < |r| ==> (r[i].EditForm? <==> editingPostId == Some(posts[i].id))
    ensures forall i :: 0 <= i < |r| && r[i].EditForm? ==>
      r[i].postId == posts[i].id && r[i].title == editTitle && r[i].content == editContent
    ensures forall i :: 0 <= i < |r| && r[i].Article? ==> r[i].post == posts[i] && r[i].controls == myBlogsOnly
  {
    seq(|posts|, i requires 0 <= i < |posts| => RowFor(posts[i], editingPostId, editTitle, editContent, myBlogsOnly))
  }

  /** A single id cell means at most one post is being edited: every row shown as an edit
      form belongs to the same id and shows the same draft. */
  lemma OneDraftAtATime(posts: seq<Post>, editingPostId: Option<string>, editTitle: string, editContent: string,
                        myBlogsOnly: bool, i: nat, j: nat)
    requires i < |posts| && j < |posts|
    requires Rows(posts, editingPostId, editTitle, editContent, myBlogsOnly)[i].EditForm?
    requires Rows(posts, editingPostId, editTitle, editContent, myBlogsOnly)[j].EditForm?
    ensures posts[i].id == posts[j].id
    ensures Rows(posts, editingPostId, editTitle, editContent, myBlogsOnly)[i]
         == Rows(posts, editingPostId, editTitle, editContent, myBlogsOnly)[j]
  {
  }

  class AllPostsList {
    /** The `myBlogsOnly` prop. */
    var myBlogsOnly: bool
    var posts: seq<Post>
    var loading: bool
    var error: Option<string>
    var editingPostId: Option<string>
    var editTitle: string
    var editContent: string
    /** The scope the fetch effect last ran for (None before mount). */
    var fetchedFor: Option<bool>

    constructor (myBlogsOnly: bool)
      ensures this.myBlogsOnly == myBlogsOnly
      ensures posts == [] && loading && error == None
      ensures editingPostId == None && editTitle == "" && editContent == ""
      ensures fetchedFor == None
    {
      this.myBlogsOnly := myBlogsOnly;
      posts := [];
      loading := true;
      error := None;
      editingPostId := None;
      editTitle := "";
      editContent := "";
      fetchedFor := None;
    }

    /** The parent passes a different `myBlogsOnly`. The dashboard page never does this
        to a mounted list: its two lists sit in separate slots, so a menu switch mounts a
        fresh list with an empty cache instead. */
    method SetMyBlogsOnly(v: bool)
      modifies this`myBlogsOnly
      ensures myBlogsOnly == v
    {
      myBlogsOnly := v;
    }

    /** The fetch effect (dependencies `[myBlogsOnly]`): it starts a fetch on mount and
        whenever the scope differs from the one it last ran for. */
    method Effect() returns (url: Option<string>)
      modifies this`loading, this`fetchedFor
      ensures url.Some? <==> old(fetchedFor) != Some(myBlogsOnly)
      ensures url.Some? ==> url.value == PostsUrl(myBlogsOnly) && loading
      ensures url.None? ==> loading == old(loading)
      ensures fetchedFor == Some(myBlogsOnly)
    {
      if fetchedFor != Some(myBlogsOnly) {
        var u := BeginFetch();
        url := Some(u);
      } else {
        url := None;
      }
      fetchedFor := Some(myBlogsOnly);
    }

    /** `fetchPosts` up to its `await`: `loading` is raised and the scope picks the URL. */
    method BeginFetch() returns (url: string)
      modifies this`loading
      ensures loading
      ensures url == PostsUrl(myBlogsOnly)
    {
      loading := true;
      url := PostsUrl(myBlogsOnly);
    }

    /** `fetchPosts` after its `await`: the response replaces the cache, or the server's
        message (`??` "Failed to fetch posts") becomes the error. A success does not clear
        an earlier error. `loading` ends false. */
    method SettleFetch(outcome: Outcome<seq<Post>, Option<string>>)
      modifies this`posts, this`error, this`loading
      ensures !loading
      ensures outcome.Ok? ==> posts == outcome.value && error == old(error)
      ensures outcome.Err? ==> posts == old(posts) && error == Some(Coalesce(outcome.error, "Failed to fetch posts"))
    {
      match outcome {
        case Ok(data) =>
          posts := data;
        case Err(message) =>
          error := Some(Coalesce(message, "Failed to fetch posts"));
      }
      loading := false;
    }

    /** `handleDelete(id)`: a declined confirmation sends nothing and changes nothing; a
        successful delete drops every post with that id from the cache; a failed one leaves
        the cache as it was. */
    method HandleDelete(id: string, confirmed: bool, outcome: Outcome<(), Option<string>>)
      returns (request: Option<string>, toast: Toast)
      modifies this`posts
      ensures request.Some? <==> confirmed
      ensures request.Some? ==> request.value == DeleteUrl(id)
      ensures !confirmed ==> posts == old(posts) && toast == Quiet
      ensures confirmed && outcome.Ok? ==>
        posts == ListCache.Without(old(posts), PostId, id) && toast == Success("Post deleted successfully")
      ensures confirmed && outcome.Err? ==>
        posts == old(posts) && toast == Failure(OrElse(outcome.error, "Failed to delete post"))
    {
      if !confirmed {
        request, toast := None, Quiet;
        return;
      }
      request := Some(DeleteUrl(id));
      match outcome {
        case Ok(_) =>
          toast := Success("Post deleted successfully");
          posts := ListCache.Without(posts, PostId, id);
        case Err(message) =>
          toast := Failure(OrElse(message, "Failed to delete post"));
      }
    }

    /** `startEdit(post)`: the draft is seeded from the post, replacing any earlier draft. */
    method StartEdit(post: Post)
      modifies this`editingPostId, this`editTitle, this`editContent
      ensures editingPostId == Some(post.id)
      ensures editTitle == post.title
      ensures editContent == OrElse(post.content, "")
    {
      editingPostId := Some(post.id);
      editTitle := post.title;
      editContent := OrElse(post.content, "");
    }

    /** `cancelEdit`: the draft is discarded, with no remote call. */
    method CancelEdit()
      modifies this`editingPostId, this`editTitle, this`editContent
      ensures editingPostId == None && editTitle == "" && editContent == ""
    {
      editingPostId := None;
      editTitle := "";
      editContent := "";
    }

    /** Typing into the draft title. */
    method SetEditTitle(t: string)
      modifies this`editTitle
      ensures editTitle == t
    {
      editTitle := t;
    }

    /** Typing into the draft content. */
    method SetEditContent(c: string)
      modifies this`editContent
      ensures editContent == c
    {
      editContent := c;
    }

    /** `saveEdit(id)`: the draft is sent; on success every cached post with that id is
        replaced in place by the returned post and the draft is cleared; on failure the
        cache and the draft stay as they were. */
    method SaveEdit(id: string, outcome: Outcome<UpdateBody, Option<string>>)
      returns (request: UpdateRequest, toast: Toast)
      modifies this`posts, this`editingPostId, this`editTitle, this`editContent
      ensures request == UpdateRequest(UpdateUrl(id), old(editTitle), old(editContent))
      ensures outcome.Ok? ==>
        && posts == ListCache.ReplaceWhere(old(posts), PostId, id, outcome.value.post)
        && editingPostId == None && editTitle == "" && editContent == ""
        && toast == Success("Post updated successfully")
      ensures outcome.Err? ==>
        && posts == old(posts)
        && editingPostId == old(editingPostId) && editTitle == old(editTitle) && editContent == old(editContent)
        && toast == Failure(OrElse(outcome.error, "Failed to update post"))
    {
      request := UpdateRequest(UpdateUrl(id), editTitle, editContent);
      match outcome {
        case Ok(body) =>
          posts := ListCache.ReplaceWhere(posts, PostId, id, body.post);
          toast := Success("Post updated successfully");
          CancelEdit();
        case Err(message) =>
          toast := Failure(OrElse(message, "Failed to update post"));
      }
    }

    /** What the widget renders now: the spinner while loading, then a truthy error,
        then the empty notice, then one row per cached post. */
    function View(): (v: ListCache.Screen<Row>)
      reads this
      ensures v.Spinner? <==> loading
      ensures v.Failed? <==> !loading && Truthy(error)
      ensures v.NothingFound? <==> !loading && !Truthy(error) && posts == []
      ensures v.Listed? ==> v.rows == Rows(posts, editingPostId, editTitle, editContent, myBlogsOnly)
    {
      ListCache.ScreenFor(loading, error, Rows(posts, editingPostId, editTitle, editContent, myBlogsOnly))
    }
  }
}
