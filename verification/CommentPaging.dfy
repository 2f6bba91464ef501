/** Order comments: idempotent posting, and reading a thread backwards page by page while it grows. */
module CommentPaging {
  import opened Wrappers

  datatype Comment = Comment(id: nat, author: string, staff: bool, body: string, internal: bool)

  type Thread = seq<Comment>

  datatype Page = Page(comments: seq<Comment>, nextBefore: Option<nat>)

  const PAGE_SIZE := 50

  // ---------------------------------------------------------------- reading

  /** What a reader may see: staff everything, customers all but internal notes. */
  function Visible(thread: Thread, staff: bool): Thread {
    if thread == [] then []
    else
      var last := thread[|thread| - 1];
      Visible(thread[..|thread| - 1], staff) + if staff || !last.internal then [last] else []
  }

  function IndexOf(comments: seq<Comment>, id: nat): (i: nat)
    ensures i <= |comments|
    ensures i < |comments| ==> comments[i].id == id
  {
    if comments == [] || comments[0].id == id then 0 else 1 + IndexOf(comments[1..], id)
  }

  /** The last comments before a position. */
  function PageBefore(all: seq<Comment>, offset: nat): Page
    requires offset <= |all|
  {
    var from := if offset > PAGE_SIZE then offset - PAGE_SIZE else 0;
    Page(all[from..offset], if from > 0 then Some(all[from].id) else None)
  }

  /** One read of the thread, before a cursor if there is one; an unknown cursor is not found. */
  function Read(thread: Thread, staff: bool, before: Option<nat>): Option<Page> {
    var all := Visible(thread, staff);
    if before.None? then Some(PageBefore(all, |all|))
    else
      var offset := IndexOf(all, before.value);
      if offset == |all| then None else Some(PageBefore(all, offset))
  }

  /** A reader who follows the cursors: the thread as it is at each read, and the pages joined in order. The
      result is absent if a read fails or the reads run out. */
  function Follow(threads: seq<Thread>, staff: bool, before: Option<nat>): Option<seq<Comment>> {
    if threads == [] then None
    else
      var page := Read(threads[0], staff, before);
      if page.None? then None
      else if page.value.nextBefore.None? then Some(page.value.comments)
      else
        var older := Follow(threads[1..], staff, page.value.nextBefore);
        if older.None? then None else Some(older.value + page.value.comments)
  }

  ghost predicate DistinctIds(comments: seq<Comment>) {
    forall i, j :: 0 <= i < j < |comments| ==> comments[i].id != comments[j].id
  }

  /** The thread may grow between reads. */
  ghost predicate Growing(threads: seq<Thread>) {
    forall i :: 0 < i < |threads| ==> threads[i - 1] <= threads[i]
  }

  /** How many reads a thread of `n` visible comments takes. */
  function Reads(n: nat): nat {
    if n <= PAGE_SIZE then 1 else 1 + Reads(n - PAGE_SIZE)
  }

  lemma {:induction false} VisibleJoins(a: Thread, b: Thread, staff: bool)
    ensures Visible(a + b, staff) == Visible(a, staff) + Visible(b, staff)
  {
    if b == [] {
      assert a + b == a;
    } else {
      var n := |b| - 1;
      assert (a + b)[..|a + b| - 1] == a + b[..n];
      VisibleJoins(a, b[..n], staff);
    }
  }

  lemma VisibleGrows(a: Thread, b: Thread, staff: bool)
    requires a <= b
    ensures Visible(a, staff) <= Visible(b, staff)
  {
    assert b == a + b[|a|..];
    VisibleJoins(a, b[|a|..], staff);
  }

  lemma {:induction false} VisibleHolds(thread: Thread, staff: bool, c: Comment)
    ensures c in Visible(thread, staff) <==> c in thread && (staff || !c.internal)
  {
    if thread != [] {
      VisibleHolds(thread[..|thread| - 1], staff, c);
      assert thread == thread[..|thread| - 1] + [thread[|thread| - 1]];
    }
  }

  lemma {:induction false} VisibleDistinct(thread: Thread, staff: bool)
    requires DistinctIds(thread)
    ensures DistinctIds(Visible(thread, staff))
  {
    if thread != [] {
      var n := |thread| - 1;
      VisibleDistinct(thread[..n], staff);
      var older := Visible(thread[..n], staff);
      forall i | 0 <= i < |older| ensures older[i].id != thread[n].id {
        VisibleHolds(thread[..n], staff, older[i]);
        var k :| 0 <= k < n && thread[k] == older[i];
      }
    }
  }

  lemma {:induction false} IndexIsUnique(comments: seq<Comment>, i: nat)
    requires DistinctIds(comments) && i < |comments|
    ensures IndexOf(comments, comments[i].id) == i
  {
    if i > 0 {
      IndexIsUnique(comments[1..], i - 1);
    }
  }

  lemma {:induction false} GrowingFromFirst(threads: seq<Thread>, k: nat)
    requires Growing(threads) && k < |threads|
    ensures threads[0] <= threads[k]
  {
    if k > 0 {
      GrowingFromFirst(threads, k - 1);
    }
  }

  /** A cursor taken from a comment seen earlier still marks its place in the thread as it is now. */
  lemma ReadAt(first: seq<Comment>, thread: Thread, staff: bool, offset: nat)
    requires offset < |first| && DistinctIds(thread) && first <= Visible(thread, staff)
    ensures Read(thread, staff, Some(first[offset].id)) == Some(PageBefore(first, offset))
  {
    var all := Visible(thread, staff);
    VisibleDistinct(thread, staff);
    assert all[offset] == first[offset];
    IndexIsUnique(all, offset);
    var from := if offset > PAGE_SIZE then offset - PAGE_SIZE else 0;
    assert all[from..offset] == first[from..offset] && all[from] == first[from];
  }

  /** Following the cursors from a position of the first thread gives all that was visible before it. */
  lemma {:induction false} FollowFrom(first: seq<Comment>, threads: seq<Thread>, staff: bool, offset: nat)
    requires 0 < offset < |first| && |threads| >= Reads(offset)
    requires forall i :: 0 <= i < |threads| ==> DistinctIds(threads[i]) && first <= Visible(threads[i], staff)
    ensures Follow(threads, staff, Some(first[offset].id)) == Some(first[..offset])
    decreases offset
  {
    ReadAt(first, threads[0], staff, offset);
    if offset > PAGE_SIZE {
      var from := offset - PAGE_SIZE;
      FollowFrom(first, threads[1..], staff, from);
      assert first[..from] + first[from..offset] == first[..offset];
    } else {
      assert first[0..offset] == first[..offset];
    }
  }

  lemma AllSeeFirst(threads: seq<Thread>, staff: bool, i: nat)
    requires Growing(threads) && i < |threads|
    ensures Visible(threads[0], staff) <= Visible(threads[i], staff)
  {
    GrowingFromFirst(threads, i);
    VisibleGrows(threads[0], threads[i], staff);
  }

  /** A first page that reaches back to the beginning. */
  lemma FollowShort(first: seq<Comment>, threads: seq<Thread>, staff: bool)
    requires threads != [] && first == Visible(threads[0], staff) && |first| <= PAGE_SIZE
    ensures Follow(threads, staff, None) == Some(first)
  {
    var page := PageBefore(first, |first|);
    assert Read(threads[0], staff, None) == Some(page);
    assert page.nextBefore.None? && page.comments == first;
  }

  /** A first page that leaves older ones. */
  lemma FollowLong(first: seq<Comment>, threads: seq<Thread>, staff: bool, from: nat)
    requires threads != [] && first == Visible(threads[0], staff)
    requires from == |first| - PAGE_SIZE && from > 0
    requires Follow(threads[1..], staff, Some(first[from].id)) == Some(first[..from])
    ensures Follow(threads, staff, None) == Some(first)
  {
    var page := PageBefore(first, |first|);
    assert Read(threads[0], staff, None) == Some(page);
    assert page.nextBefore == Some(first[from].id) && page.comments == first[from..];
    assert first[..from] + first[from..] == first;
  }

  /** A first page, followed to the end. */
  lemma FollowAll(first: seq<Comment>, threads: seq<Thread>, staff: bool)
    requires threads != [] && first == Visible(threads[0], staff) && |threads| >= Reads(|first|)
    requires forall i :: 0 <= i < |threads| ==> DistinctIds(threads[i]) && first <= Visible(threads[i], staff)
    ensures Follow(threads, staff, None) == Some(first)
  {
    if |first| > PAGE_SIZE {
      var from := |first| - PAGE_SIZE;
      FollowFrom(first, threads[1..], staff, from);
      FollowLong(first, threads, staff, from);
    } else {
      FollowShort(first, threads, staff);
    }
  }

  /** Reading to the end rebuilds exactly the thread that was visible at the first read, once each and in
      order, whatever is added in between; it takes a fixed number of reads, whatever the length. */
  lemma PagesRebuildThread(threads: seq<Thread>, staff: bool)
    requires threads != [] && Growing(threads) && forall i :: 0 <= i < |threads| ==> DistinctIds(threads[i])
    requires |threads| >= Reads(|Visible(threads[0], staff)|)
    ensures Follow(threads, staff, None) == Some(Visible(threads[0], staff))
  {
    forall i | 0 <= i < |threads| ensures Visible(threads[0], staff) <= Visible(threads[i], staff) {
      AllSeeFirst(threads, staff, i);
    }
    FollowAll(Visible(threads[0], staff), threads, staff);
  }

  /** No page shows a customer an internal note, or anyone a comment that is not in the thread. */
  lemma PageShowsVisible(thread: Thread, staff: bool, before: Option<nat>, c: Comment)
    requires Read(thread, staff, before).Some? && c in Read(thread, staff, before).value.comments
    ensures c in thread && (staff || !c.internal)
    ensures |Read(thread, staff, before).value.comments| <= PAGE_SIZE
  {
    VisibleHolds(thread, staff, c);
  }

  /** A page is not found exactly if its cursor is no comment the reader can see. */
  lemma UnknownCursor(thread: Thread, staff: bool, cursor: nat)
    ensures Read(thread, staff, Some(cursor)).None? <==>
            forall c :: c in thread && (staff || !c.internal) ==> c.id != cursor
  {
    var all := Visible(thread, staff);
    forall c ensures c in all <==> c in thread && (staff || !c.internal) { VisibleHolds(thread, staff, c); }
    NotIndexed(all, cursor);
  }

  lemma {:induction false} NotIndexed(comments: seq<Comment>, id: nat)
    ensures IndexOf(comments, id) == |comments| <==> forall c :: c in comments ==> c.id != id
  {
    if comments != [] {
      NotIndexed(comments[1..], id);
      assert comments == [comments[0]] + comments[1..];
    }
  }

  // ---------------------------------------------------------------- posting

  datatype Command = Command(order: string, actor: string, key: string, body: string, internal: bool)

  datatype Board = Board(threads: map<string, Thread>, receipts: map<(string, string, string), Comment>)

  function KeyOf(command: Command): (string, string, string) {
    (command.order, command.actor, command.key)
  }

  function NewComment(board: Board, command: Command, staff: bool, electricity: bool): Comment {
    Comment(2000 + |board.receipts|, command.actor, staff, command.body, electricity && staff && command.internal)
  }

  /** Posting once for a key; repeating it gives the first comment again. */
  function Posted(board: Board, command: Command, staff: bool, electricity: bool): Board
    requires command.order in board.threads
  {
    if KeyOf(command) in board.receipts then board
    else
      var comment := NewComment(board, command, staff, electricity);
      Board(board.threads[command.order := board.threads[command.order] + [comment]],
            board.receipts[KeyOf(command) := comment])
  }

  /** Comments keep distinct identities, below the next one to be given. */
  ghost predicate Inv(board: Board) {
    forall o :: o in board.threads ==>
      && DistinctIds(board.threads[o])
      && forall i :: 0 <= i < |board.threads[o]| ==> board.threads[o][i].id < 2000 + |board.receipts|
  }

  /** A command by a person on a kind of order. */
  datatype Post = Post(command: Command, staff: bool, electricity: bool)

  ghost predicate EnabledRun(board: Board, posts: seq<Post>) {
    forall i :: 0 <= i < |posts| ==> posts[i].command.order in board.threads
  }

  lemma PostedKeeps(board: Board, post: Post)
    requires Inv(board) && post.command.order in board.threads
    ensures var board' := Posted(board, post.command, post.staff, post.electricity);
      && Inv(board') && board'.threads.Keys == board.threads.Keys
      && (forall o :: o in board.threads ==> board.threads[o] <= board'.threads[o])
      && (forall k :: k in board.receipts ==> k in board'.receipts && board'.receipts[k] == board.receipts[k])
      && KeyOf(post.command) in board'.receipts
  {
    var board' := Posted(board, post.command, post.staff, post.electricity);
    if KeyOf(post.command) !in board.receipts {
      assert board'.receipts.Keys == board.receipts.Keys + {KeyOf(post.command)};
      assert |board'.receipts| == |board.receipts| + 1;
    }
  }

  function Run(board: Board, posts: seq<Post>): Board
    requires forall i :: 0 <= i < |posts| ==> posts[i].command.order in board.threads
    decreases |posts|
  {
    if posts == [] then board
    else
      var board' := Posted(board, posts[0].command, posts[0].staff, posts[0].electricity);
      Run(board', posts[1..])
  }

  /** Threads only grow, keys keep their first comment, and identities stay distinct, over any posts. */
  lemma {:induction false} PostingTheorem(board: Board, posts: seq<Post>)
    requires Inv(board) && EnabledRun(board, posts)
    ensures var board' := Run(board, posts);
      && Inv(board')
      && (forall o :: o in board.threads ==> o in board'.threads && board.threads[o] <= board'.threads[o])
      && (forall k :: k in board.receipts ==> k in board'.receipts && board'.receipts[k] == board.receipts[k])
    decreases |posts|
  {
    if posts != [] {
      PostedKeeps(board, posts[0]);
      PostingTheorem(Posted(board, posts[0].command, posts[0].staff, posts[0].electricity), posts[1..]);
    }
  }

  /** A repeated key posts nothing, however much was posted in between and whatever the body says now. */
  lemma RepeatsPostNothing(board: Board, first: Post, between: seq<Post>, again: Post)
    requires Inv(board) && first.command.order in board.threads && EnabledRun(board, between)
    requires KeyOf(again.command) == KeyOf(first.command)
    ensures var board' := Posted(board, first.command, first.staff, first.electricity);
      && EnabledRun(board', between)
      && again.command.order in Run(board', between).threads
      && Posted(Run(board', between), again.command, again.staff, again.electricity) == Run(board', between)
  {
    PostedKeeps(board, first);
    PostingTheorem(Posted(board, first.command, first.staff, first.electricity), between);
  }

  /** A new key adds one comment at the end of its order's thread: the actor's text, internal only if staff asked
      for that on an electricity order. The key keeps it, and other threads and keys stay. */
  lemma PostAdds(board: Board, command: Command, staff: bool, electricity: bool)
    requires command.order in board.threads && KeyOf(command) !in board.receipts
    ensures var board', was := Posted(board, command, staff, electricity), board.threads[command.order];
      && KeyOf(command) in board'.receipts
      && var comment := board'.receipts[KeyOf(command)];
      && board'.threads == board.threads[command.order := was + [comment]]
      && board'.receipts == board.receipts[KeyOf(command) := comment]
      && comment.author == command.actor && comment.staff == staff && comment.body == command.body
      && (comment.internal <==> command.internal && staff && electricity)
  {}

  // ---------------------------------------------------------------- reading while others post

  /** What happens while somebody reads a thread: others post, and the reader asks for the next page. */
  datatype Move = Posting(post: Post) | Reading

  ghost predicate EnabledMoves(board: Board, moves: seq<Move>) {
    forall i :: 0 <= i < |moves| && moves[i].Posting? ==> moves[i].post.command.order in board.threads
  }

  function PostedBy(board: Board, post: Post): Board
    requires post.command.order in board.threads
  {
    Posted(board, post.command, post.staff, post.electricity)
  }

  /** The thread as it is at each of the reads. */
  ghost function ThreadsSeen(board: Board, order: string, moves: seq<Move>): seq<Thread>
    requires order in board.threads && EnabledMoves(board, moves)
    decreases |moves|
  {
    if moves == [] then []
    else
      match moves[0]
      case Reading => [board.threads[order]] + ThreadsSeen(board, order, moves[1..])
      case Posting(post) => ThreadsSeen(PostedBy(board, post), order, moves[1..])
  }

  /** Each read finds the thread grown, and its identities distinct. */
  lemma {:induction false} SeenGrows(board: Board, order: string, moves: seq<Move>)
    requires Inv(board) && order in board.threads && EnabledMoves(board, moves)
    ensures var seen := ThreadsSeen(board, order, moves);
      && Growing([board.threads[order]] + seen)
      && forall i :: 0 <= i < |seen| ==> DistinctIds(seen[i])
    decreases |moves|
  {
    if moves != [] {
      match moves[0]
      case Reading => SeenGrows(board, order, moves[1..]);
      case Posting(post) =>
        PostedKeeps(board, post);
        SeenGrows(PostedBy(board, post), order, moves[1..]);
        FirstMayBeOlder(board.threads[order], PostedBy(board, post).threads[order],
                        ThreadsSeen(board, order, moves));
    }
  }

  lemma FirstMayBeOlder(older: Thread, first: Thread, seen: seq<Thread>)
    requires older <= first && Growing([first] + seen)
    ensures Growing([older] + seen)
  {
    var before, after := [first] + seen, [older] + seen;
    forall i | 0 < i < |after| ensures after[i - 1] <= after[i] {
      assert before[i - 1] <= before[i];
    }
  }

  lemma GrowingTail(first: Thread, seen: seq<Thread>)
    requires Growing([first] + seen)
    ensures Growing(seen)
  {
    var all := [first] + seen;
    forall i | 0 < i < |seen| ensures seen[i - 1] <= seen[i] {
      assert all[i] <= all[i + 1];
    }
  }

  /** Whatever is posted between the reads, following the cursors gives exactly what was visible at the first
      read, if the reads go on for long enough. */
  lemma ReadingWhilePosting(board: Board, order: string, moves: seq<Move>, staff: bool)
    requires Inv(board) && order in board.threads && EnabledMoves(board, moves)
    requires var seen := ThreadsSeen(board, order, moves);
      seen != [] && |seen| >= Reads(|Visible(seen[0], staff)|)
    ensures var seen := ThreadsSeen(board, order, moves);
      && board.threads[order] <= seen[0]
      && Follow(seen, staff, None) == Some(Visible(seen[0], staff))
  {
    var seen := ThreadsSeen(board, order, moves);
    SeenGrows(board, order, moves);
    assert ([board.threads[order]] + seen)[0] <= ([board.threads[order]] + seen)[1];
    GrowingTail(board.threads[order], seen);
    PagesRebuildThread(seen, staff);
  }

  /** The pages found so far, behind the older ones still to be read. */
  function Behind(older: Option<seq<Comment>>, found: seq<Comment>): Option<seq<Comment>> {
    if older.None? then None else Some(older.value + found)
  }

  lemma BehindNothing(older: Option<seq<Comment>>)
    ensures Behind(older, []) == older
  {
    if older.Some? { assert older.value + [] == older.value; }
  }

  lemma BehindTwice(older: Option<seq<Comment>>, page: seq<Comment>, found: seq<Comment>)
    ensures Behind(Behind(older, page), found) == Behind(older, page + found)
  {
    if older.Some? { assert older.value + page + found == older.value + (page + found); }
  }

  /** One more page of a reader. */
  lemma FollowNext(thread: Thread, later: seq<Thread>, staff: bool, before: Option<nat>, found: seq<Comment>)
    ensures var page := Read(thread, staff, before);
      Behind(Follow([thread] + later, staff, before), found) ==
      if page.None? then None
      else if page.value.nextBefore.None? then Some(page.value.comments + found)
      else Behind(Follow(later, staff, page.value.nextBefore), page.value.comments + found)
  {
    var page := Read(thread, staff, before);
    assert ([thread] + later)[1..] == later;
    if page.Some? && page.value.nextBefore.Some? {
      BehindTwice(Follow(later, staff, page.value.nextBefore), page.value.comments, found);
    }
  }

  /** A reader that has come to `before` and found some comments is on its way to the whole. */
  ghost predicate OnTheWay(board: Board, order: string, moves: seq<Move>, staff: bool, before: Option<nat>,
                           found: seq<Comment>, whole: Option<seq<Comment>>)
  {
    && order in board.threads && EnabledMoves(board, moves)
    && Behind(Follow(ThreadsSeen(board, order, moves), staff, before), found) == whole
  }

  lemma AfterPosting(board: Board, order: string, moves: seq<Move>, staff: bool, before: Option<nat>,
                     found: seq<Comment>, whole: Option<seq<Comment>>)
    requires OnTheWay(board, order, moves, staff, before, found, whole) && moves != [] && moves[0].Posting?
    ensures OnTheWay(PostedBy(board, moves[0].post), order, moves[1..], staff, before, found, whole)
  {}

  lemma AfterReading(board: Board, order: string, moves: seq<Move>, staff: bool, before: Option<nat>,
                     found: seq<Comment>, whole: Option<seq<Comment>>)
    requires OnTheWay(board, order, moves, staff, before, found, whole) && moves != [] && moves[0].Reading?
    ensures var page := Read(board.threads[order], staff, before);
      if page.None? then whole == None
      else if page.value.nextBefore.None? then whole == Some(page.value.comments + found)
      else OnTheWay(board, order, moves[1..], staff, page.value.nextBefore, page.value.comments + found, whole)
  {
    FollowNext(board.threads[order], ThreadsSeen(board, order, moves[1..]), staff, before, found);
  }

  class Comments {
    var threads: map<string, Thread>
    var receipts: map<(string, string, string), Comment>

    constructor (threads: map<string, Thread>)
      ensures View() == Board(threads, map[])
    {
      this.threads, receipts := threads, map[];
    }

    function View(): Board
      reads this
    {
      Board(threads, receipts)
    }

    method Persist(command: Command, staff: bool, electricity: bool) returns (comment: Comment)
      requires command.order in threads
      modifies this
      ensures View() == Posted(old(View()), command, staff, electricity)
      ensures KeyOf(command) in receipts && comment == receipts[KeyOf(command)]
    {
      var key := KeyOf(command);
      if key in receipts {
        return receipts[key];
      }
      comment := Comment(2000 + |receipts|, command.actor, staff, command.body,
                         if electricity then staff && command.internal else false);
      receipts := receipts[key := comment];
      threads := threads[command.order := threads[command.order] + [comment]];
    }

    method ReadPage(order: string, staff: bool, before: Option<nat>) returns (page: Option<Page>)
      ensures page == Read(if order in threads then threads[order] else [], staff, before)
    {
      var all := Visible(if order in threads then threads[order] else [], staff);
      var offset := |all|;
      if before.Some? {
        offset := IndexOf(all, before.value);
        if offset == |all| { return None; }
      }
      var from := if offset > PAGE_SIZE then offset - PAGE_SIZE else 0;
      return Some(Page(all[from..offset], if offset > PAGE_SIZE then Some(all[from].id) else None));
    }

    /** Posts one after the other: the board does the run and keeps its identities apart. */
    method Serve(posts: seq<Post>)
      requires Inv(View()) && EnabledRun(View(), posts)
      modifies this
      ensures View() == Run(old(View()), posts) && Inv(View())
    {
      ghost var before := View();
      var k := 0;
      while k < |posts|
        invariant k <= |posts| && Inv(View()) && EnabledRun(View(), posts)
        invariant EnabledRun(View(), posts[k..]) && Run(View(), posts[k..]) == Run(before, posts)
      {
        assert posts[k..][1..] == posts[k + 1..];
        PostedKeeps(View(), posts[k]);
        var _ := Persist(posts[k].command, posts[k].staff, posts[k].electricity);
        k := k + 1;
      }
    }

    /** A reader follows the cursors while others post. Once it has reached the beginning, or a page could not be
        found, nothing more is read. */
    method Browse(order: string, staff: bool, moves: seq<Move>) returns (found: Option<seq<Comment>>)
      requires Inv(View()) && order in threads && EnabledMoves(View(), moves)
      modifies this
      ensures found == Follow(ThreadsSeen(old(View()), order, moves), staff, None)
      ensures Inv(View())
    {
      ghost var whole, rest := Follow(ThreadsSeen(View(), order, moves), staff, None), moves;
      var before: Option<nat>, comments: seq<Comment> := None, [];
      BehindNothing(whole);
      for k := 0 to |moves|
        invariant Inv(View()) && |rest| == |moves| - k && rest == moves[k..]
        invariant OnTheWay(View(), order, rest, staff, before, comments, whole)
      {
        assert rest[0] == moves[k] && rest[1..] == moves[k + 1..];
        if moves[k].Posting? {
          AfterPosting(View(), order, rest, staff, before, comments, whole);
          PostedKeeps(View(), moves[k].post);
          var _ := Persist(moves[k].post.command, moves[k].post.staff, moves[k].post.electricity);
        } else {
          AfterReading(View(), order, rest, staff, before, comments, whole);
          var page := ReadPage(order, staff, before);
          if page.None? { return None; }
          comments := page.value.comments + comments;
          if page.value.nextBefore.None? { return Some(comments); }
          before := page.value.nextBefore;
        }
        rest := rest[1..];
      }
      return None;
    }
  }
}
