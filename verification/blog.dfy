/** The example application's store: a blog that numbers its posts as it
    creates them, finds a post by number and deletes posts, and the posts,
    which know their blog. */
module Blog {

  /** The posts of `ps` other than `x`, in their order (Array#delete). */
  function Without(ps: seq<Post>, x: Post): (r: seq<Post>)
    ensures x !in r
    ensures |r| <= |ps|
  {
    if ps == [] then []
    else Without(ps[..|ps| - 1], x) + (if ps[|ps| - 1] == x then [] else [ps[|ps| - 1]])
  }

  /** Deleting removes every occurrence of the post and keeps every other
      post as many times as it was there. */
  lemma {:induction false} WithoutContents(ps: seq<Post>, x: Post)
    ensures multiset(Without(ps, x)) == multiset(ps)[x := 0]
  {
    if ps != [] {
      var front, last := ps[..|ps| - 1], ps[|ps| - 1];
      assert ps == front + [last];
      WithoutContents(front, x);
    }
  }

  /** Deleting only drops posts equal to `x`, and those that stay are all
      the others (their order is WithoutAppend's). */
  lemma {:induction false} WithoutMembers(ps: seq<Post>, x: Post)
    ensures |Without(ps, x)| <= |ps|
    ensures forall i :: 0 <= i < |Without(ps, x)| ==> Without(ps, x)[i] in ps && Without(ps, x)[i] != x
    ensures forall i :: 0 <= i < |ps| && ps[i] != x ==> ps[i] in Without(ps, x)
  {
    if ps != [] {
      var front, last := ps[..|ps| - 1], ps[|ps| - 1];
      assert ps == front + [last];
      WithoutMembers(front, x);
      forall i | 0 <= i < |ps| && ps[i] != x
        ensures ps[i] in Without(ps, x)
      {
        if i < |front| {
          assert ps[i] == front[i];
        }
      }
    }
  }

  /** Deleting from a concatenation deletes from each part and keeps the
      parts in order; with WithoutOne this makes deletion the filter that
      keeps every other post in its original order. */
  lemma {:induction false} WithoutAppend(a: seq<Post>, b: seq<Post>, x: Post)
    ensures Without(a + b, x) == Without(a, x) + Without(b, x)
    decreases |b|
  {
    if b == [] {
      assert a + b == a;
    } else {
      assert (a + b)[..|a + b| - 1] == a + b[..|b| - 1];
      assert (a + b)[|a + b| - 1] == b[|b| - 1];
      WithoutAppend(a, b[..|b| - 1], x);
    }
  }

  /** Deleting from one post drops it iff it is `x`. */
  lemma {:induction false} WithoutOne(p: Post, x: Post)
    ensures Without([p], x) == if p == x then [] else [p]
  {
    assert [p][..0] == [];
  }

  /** Index of the first post numbered `id`, or |ps| when there is none
      (the index Array#find stops at). */
  function FirstWithId(ps: seq<Post>, id: int): (i: nat)
    ensures i <= |ps|
    ensures forall j :: 0 <= j < i ==> ps[j].id != id
    ensures i < |ps| ==> ps[i].id == id
  {
    if ps == [] then 0 else if ps[0].id == id then 0 else 1 + FirstWithId(ps[1..], id)
  }

  /** The blog's invariant: its posts belong to it, are numbered from 1 up
      to the last number handed out, and appear in creation order. */
  predicate PostsOf(b: Blog, ps: seq<Post>, lastId: nat) {
    (forall i :: 0 <= i < |ps| ==> ps[i].blog == b && 1 <= ps[i].id <= lastId) &&
    (forall i, j :: 0 <= i < j < |ps| ==> ps[i].id < ps[j].id)
  }

  class Blog {
    var posts: seq<Post>
    var postId: nat

    predicate Valid()
      reads this
    {
      PostsOf(this, posts, postId)
    }

    constructor()
      ensures posts == [] && postId == 0
      ensures Valid()
    {
      posts := [];
      postId := 0;
    }

    /** new_post: the next number, then a new post appended with it. The
        method answers the new post, which is the last of the posts Ruby's
        `<<` answers. */
    method NewPost(title: string, contents: string) returns (p: Post)
      modifies this
      ensures postId == old(postId) + 1
      ensures fresh(p) && posts == old(posts) + [p]
      ensures p.blog == this && p.id == postId && p.title == title && p.contents == contents
      ensures old(Valid()) ==> Valid()
    {
      p := new Post(this, postId + 1, title, contents);
      if Valid() {
        AppendKeepsPosts(this, posts, postId, p);
      }
      postId := postId + 1;
      posts := posts + [p];
    }

    /** find_post: the first post with the number, or nil. */
    method FindPost(id: int) returns (p: Post?)
      ensures var i := FirstWithId(posts, id);
              p == if i < |posts| then posts[i] else null
    {
      var i := 0;
      while i < |posts|
        invariant 0 <= i <= |posts|
        invariant forall j :: 0 <= j < i ==> posts[j].id != id
      {
        if posts[i].id == id {
          FirstWithIdIs(posts, id, i);
          return posts[i];
        }
        i := i + 1;
      }
      FirstWithIdIs(posts, id, |posts|);
      p := null;
    }

    /** delete_post: every occurrence of the post goes; the answer is the
        post when there was one, else nil. */
    method DeletePost(post: Post) returns (r: Post?)
      modifies this
      ensures posts == Without(old(posts), post) && postId == old(postId)
      ensures r == if post in old(posts) then post else null
      ensures old(Valid()) ==> Valid()
    {
      var ps := posts;
      var kept: seq<Post> := [];
      var found := false;
      var i := 0;
      while i < |ps|
        invariant 0 <= i <= |ps|
        invariant kept == Without(ps[..i], post)
        invariant found <==> post in ps[..i]
        invariant posts == ps && postId == old(postId)
      {
        WithoutStep(ps, i, post);
        if ps[i] != post {
          kept := kept + [ps[i]];
        } else {
          found := true;
        }
        i := i + 1;
      }
      assert ps[..i] == ps;
      if Valid() {
        WithoutKeepsPosts(this, ps, postId, post);
      }
      posts := kept;
      r := if found then post else null;
    }
  }

  class Post {
    const blog: Blog
    const id: int
    var title: string
    var contents: string

    constructor(blog: Blog, id: int, title: string, contents: string)
      ensures this.blog == blog && this.id == id && this.title == title && this.contents == contents
    {
      this.blog := blog;
      this.id := id;
      this.title := title;
      this.contents := contents;
    }

    /** title=: the title changes and the contents stay. */
    method SetTitle(t: string)
      modifies this
      ensures title == t && contents == old(contents)
    {
      title := t;
    }

    /** contents=: the contents change and the title stays. */
    method SetContents(c: string)
      modifies this
      ensures contents == c && title == old(title)
    {
      contents := c;
    }

    /** delete!: the post leaves its blog. */
    method Delete() returns (r: Post?)
      modifies blog
      ensures blog.posts == Without(old(blog.posts), this) && blog.postId == old(blog.postId)
      ensures r == if this in old(blog.posts) then this else null
      ensures old(blog.Valid()) ==> blog.Valid()
    {
      r := blog.DeletePost(this);
    }
  }

  lemma {:induction false} FirstWithIdIs(ps: seq<Post>, id: int, i: nat)
    requires i <= |ps| && (forall j :: 0 <= j < i ==> ps[j].id != id) && (i < |ps| ==> ps[i].id == id)
    ensures FirstWithId(ps, id) == i
  {
    if i > 0 {
      FirstWithIdIs(ps[1..], id, i - 1);
    }
  }

  lemma {:induction false} WithoutStep(ps: seq<Post>, i: nat, x: Post)
    requires i < |ps|
    ensures Without(ps[..i + 1], x) == Without(ps[..i], x) + (if ps[i] == x then [] else [ps[i]])
    ensures x in ps[..i + 1] <==> x in ps[..i] || ps[i] == x
  {
    assert ps[..i + 1][..i] == ps[..i];
    assert ps[..i + 1] == ps[..i] + [ps[i]];
  }

  /** A post numbered one past the last joins the end of the posts. */
  lemma {:induction false} AppendKeepsPosts(b: Blog, ps: seq<Post>, lastId: nat, p: Post)
    requires PostsOf(b, ps, lastId) && p.blog == b && p.id == lastId + 1
    ensures PostsOf(b, ps + [p], lastId + 1)
  {
    var qs := ps + [p];
    assert forall i :: 0 <= i < |ps| ==> qs[i] == ps[i];
  }

  /** Deleting keeps the posts in order and leaves the numbering alone. */
  lemma {:induction false} WithoutKeepsPosts(b: Blog, ps: seq<Post>, lastId: nat, x: Post)
    requires PostsOf(b, ps, lastId)
    ensures PostsOf(b, Without(ps, x), lastId)
  {
    if ps != [] {
      var front := ps[..|ps| - 1];
      var last := ps[|ps| - 1];
      assert forall i :: 0 <= i < |front| ==> front[i] == ps[i];
      WithoutKeepsPosts(b, front, lastId, x);
      WithoutMembers(front, x);
      var w := Without(front, x);
      assert Without(ps, x) == w + (if last == x then [] else [last]);
      if last != x {
        forall i | 0 <= i < |w|
          ensures w[i].id < last.id
        {
          assert w[i] in front;
          var k :| 0 <= k < |front| && front[k] == w[i];
        }
        AppendBelow(b, w, lastId, last);
      } else {
        assert Without(ps, x) == w;
      }
    }
  }

  lemma {:induction false} AppendBelow(b: Blog, w: seq<Post>, lastId: nat, p: Post)
    requires PostsOf(b, w, lastId) && p.blog == b && 1 <= p.id <= lastId
    requires forall i :: 0 <= i < |w| ==> w[i].id < p.id
    ensures PostsOf(b, w + [p], lastId)
  {
    var qs := w + [p];
    assert forall i :: 0 <= i < |w| ==> qs[i] == w[i];
  }

  /** In a valid blog a number names at most one post, so find_post finds
      the post with that number wherever it stands. */
  lemma {:induction false} FindsTheOnlyPost(b: Blog, ps: seq<Post>, lastId: nat, k: nat)
    requires PostsOf(b, ps, lastId) && k < |ps|
    ensures FirstWithId(ps, ps[k].id) == k
  {
    forall j | 0 <= j < k
      ensures ps[j].id != ps[k].id
    {
    }
    FirstWithIdIs(ps, ps[k].id, k);
  }

  /** The numbers handed out are new: no post of a valid blog carries the
      number new_post gives next. */
  lemma {:induction false} NextIdIsNew(b: Blog, ps: seq<Post>, lastId: nat)
    requires PostsOf(b, ps, lastId)
    ensures FirstWithId(ps, lastId + 1) == |ps|
  {
    FirstWithIdIs(ps, lastId + 1, |ps|);
  }

  /** find_post with the number new_post just handed out finds the new
      post. */
  lemma {:induction false} NewPostFound(b: Blog, ps: seq<Post>, lastId: nat, p: Post)
    requires PostsOf(b, ps, lastId) && p.blog == b && p.id == lastId + 1
    ensures FirstWithId(ps + [p], p.id) == |ps|
  {
    var qs := ps + [p];
    assert forall j :: 0 <= j < |ps| ==> qs[j] == ps[j];
    FirstWithIdIs(qs, p.id, |ps|);
  }

  /** Once a post of a valid blog is deleted, find_post with its number
      finds nothing. */
  lemma {:induction false} DeletedNotFound(b: Blog, ps: seq<Post>, lastId: nat, k: nat)
    requires PostsOf(b, ps, lastId) && k < |ps|
    ensures FirstWithId(Without(ps, ps[k]), ps[k].id) == |Without(ps, ps[k])|
  {
    var w := Without(ps, ps[k]);
    WithoutMembers(ps, ps[k]);
    forall i | 0 <= i < |w|
      ensures w[i].id != ps[k].id
    {
      var j :| 0 <= j < |ps| && ps[j] == w[i];
      assert j != k;
    }
    FirstWithIdIs(w, ps[k].id, |w|);
  }
}
