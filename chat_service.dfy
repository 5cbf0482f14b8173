/**
 * A booking's chat: who may read and write it, the oldest 300 messages in time order,
 * and posting a trimmed, non-empty message.
 */
module ChatService {
  import opened Wrappers
  import opened Text
  import opened Entities
  import opened Store

  /** The signed-in user as the chat sees them: their id and their role. */
  datatype Viewer = Viewer(id: int, role: string)

  /** `can_access_booking_chat`: an admin, or the booking's farmer or owner. */
  predicate CanAccess(b: Booking, user: Viewer)
  {
    user.role == "admin" || user.id == b.farmerId || user.id == b.ownerId
  }

  /** The booking's messages, in the order they were stored. */
  function Thread(messages: seq<ChatMessage>, bookingId: nat): (thread: seq<ChatMessage>)
    ensures forall m :: m in thread <==> m in messages && m.bookingId == bookingId
    ensures |thread| <= |messages|
  {
    if messages == [] then []
    else
      var rest := Thread(messages[..|messages| - 1], bookingId);
      var last := messages[|messages| - 1];
      assert forall m :: m in messages <==> m in messages[..|messages| - 1] || m == last by {
        assert messages == messages[..|messages| - 1] + [last];
      }
      if last.bookingId == bookingId then rest + [last] else rest
  }

  /** Non-decreasing creation times. */
  predicate SortedByTime(s: seq<ChatMessage>)
  {
    forall i, j :: 0 <= i < j < |s| ==> s[i].createdAt <= s[j].createdAt
  }

  /** Insert `m` after every message no newer than it (so equal times keep their stored order). */
  function InsertByTime(m: ChatMessage, s: seq<ChatMessage>): (r: seq<ChatMessage>)
    ensures multiset(r) == multiset(s) + multiset{m}
  {
    if s == [] then [m]
    else if m.createdAt < s[0].createdAt then [m] + s
    else
      assert s == [s[0]] + s[1..];
      [s[0]] + InsertByTime(m, s[1..])
  }

  /** Inserting into a time-ordered thread keeps it time-ordered. */
  lemma {:induction false} InsertKeepsSorted(m: ChatMessage, s: seq<ChatMessage>)
    requires SortedByTime(s)
    ensures SortedByTime(InsertByTime(m, s))
  {
    if s != [] && m.createdAt >= s[0].createdAt {
      var tail := InsertByTime(m, s[1..]);
      InsertKeepsSorted(m, s[1..]);
      forall k | 0 <= k < |tail|
        ensures s[0].createdAt <= tail[k].createdAt
      {
        assert tail[k] in multiset(tail);
        assert tail[k] in multiset(s[1..]) || tail[k] == m;
      }
    }
  }

  /** `ORDER BY created_at ASC` as a stable insertion sort. */
  function SortByTime(s: seq<ChatMessage>): seq<ChatMessage>
  {
    if s == [] then [] else InsertByTime(s[|s| - 1], SortByTime(s[..|s| - 1]))
  }

  /** The sort returns the same messages, in time order. */
  lemma {:induction false} SortByTimeCorrect(s: seq<ChatMessage>)
    ensures SortedByTime(SortByTime(s))
    ensures multiset(SortByTime(s)) == multiset(s)
  {
    if s != [] {
      SortByTimeCorrect(s[..|s| - 1]);
      InsertKeepsSorted(s[|s| - 1], SortByTime(s[..|s| - 1]));
      assert s == s[..|s| - 1] + [s[|s| - 1]];
    }
  }

  /** `LIMIT 300`. */
  const PageSize: nat := 300

  /** The messages `list_messages` returns for a booking. */
  function Page(messages: seq<ChatMessage>, bookingId: nat): seq<ChatMessage>
  {
    var sorted := SortByTime(Thread(messages, bookingId));
    if |sorted| <= PageSize then sorted else sorted[..PageSize]
  }

  /** The sorted thread has exactly the thread's messages. */
  lemma SortedThread(messages: seq<ChatMessage>, bookingId: nat)
    ensures var sorted := SortByTime(Thread(messages, bookingId));
      SortedByTime(sorted) && multiset(sorted) == multiset(Thread(messages, bookingId))
      && |sorted| == |Thread(messages, bookingId)|
  {
    var thread := Thread(messages, bookingId);
    SortByTimeCorrect(thread);
    assert |multiset(SortByTime(thread))| == |multiset(thread)|;
  }

  /** The page is in time order, holds at most 300 messages, and all of them belong to the booking. */
  lemma PageInOrder(messages: seq<ChatMessage>, bookingId: nat)
    ensures var page := Page(messages, bookingId);
      && SortedByTime(page) && |page| <= PageSize
      && (forall m :: m in page ==> m in messages && m.bookingId == bookingId)
  {
    var thread := Thread(messages, bookingId);
    var sorted := SortByTime(thread);
    SortedThread(messages, bookingId);
    var page := Page(messages, bookingId);
    forall m | m in page
      ensures m in messages && m.bookingId == bookingId
    {
      assert m in sorted;
      assert m in multiset(sorted);
      assert m in multiset(thread);
    }
  }

  /** A booking with at most 300 messages gets all of them. */
  lemma PageComplete(messages: seq<ChatMessage>, bookingId: nat)
    requires |Thread(messages, bookingId)| <= PageSize
    ensures multiset(Page(messages, bookingId)) == multiset(Thread(messages, bookingId))
  {
    SortedThread(messages, bookingId);
  }

  /** In a time-ordered sequence, nothing after position `n` is older than anything before it. */
  lemma PrefixNotNewer(sorted: seq<ChatMessage>, n: nat, i: nat, m: ChatMessage)
    requires SortedByTime(sorted) && i < n <= |sorted|
    requires m in multiset(sorted[n..])
    ensures sorted[i].createdAt <= m.createdAt
  {
    var rest := sorted[n..];
    var k :| 0 <= k < |rest| && rest[k] == m;
    assert sorted[n + k] == m;
  }

  /** A prefix of a time-ordered sequence holds its oldest elements. */
  lemma PrefixHoldsOldest(sorted: seq<ChatMessage>, n: nat)
    requires SortedByTime(sorted) && n <= |sorted|
    ensures forall i, m :: 0 <= i < n && m in multiset(sorted) - multiset(sorted[..n]) ==> sorted[i].createdAt <= m.createdAt
  {
    assert sorted == sorted[..n] + sorted[n..];
    assert multiset(sorted) - multiset(sorted[..n]) == multiset(sorted[n..]);
    forall i, m | 0 <= i < n && m in multiset(sorted) - multiset(sorted[..n])
      ensures sorted[i].createdAt <= m.createdAt
    {
      PrefixNotNewer(sorted, n, i, m);
    }
  }

  /** The first (up to) 300 of a time-ordered sequence are the oldest of its elements. */
  lemma FirstPageOldest(sorted: seq<ChatMessage>, page: seq<ChatMessage>)
    requires SortedByTime(sorted)
    requires page == if |sorted| <= PageSize then sorted else sorted[..PageSize]
    ensures forall i, m :: 0 <= i < |page| && m in multiset(sorted) - multiset(page) ==> page[i].createdAt <= m.createdAt
  {
    if |sorted| > PageSize {
      PrefixHoldsOldest(sorted, PageSize);
    } else {
      PrefixHoldsOldest(sorted, |sorted|);
      assert sorted[..|sorted|] == sorted;
    }
  }

  /** No message left off the page is older than one on it: the page holds the oldest ones. */
  lemma PageHoldsOldest(messages: seq<ChatMessage>, bookingId: nat)
    ensures var page := Page(messages, bookingId);
      forall i, m :: 0 <= i < |page| && m in multiset(Thread(messages, bookingId)) - multiset(page) ==>
        page[i].createdAt <= m.createdAt
  {
    SortedThread(messages, bookingId);
    FirstPageOldest(SortByTime(Thread(messages, bookingId)), Page(messages, bookingId));
  }

  /** `list_messages`: 404 for an unknown booking, then 403 without access; otherwise the page. */
  function ListMessages(bookings: map<int, Booking>, messages: seq<ChatMessage>, bookingId: nat, user: Viewer)
    : (r: Result<seq<ChatMessage>>)
    ensures bookingId !in bookings ==> r == Failure(NotFound)
    ensures bookingId in bookings && !CanAccess(bookings[bookingId], user) ==> r == Failure(Forbidden)
    ensures r.Success? ==> bookingId in bookings && CanAccess(bookings[bookingId], user) && r.value == Page(messages, bookingId)
    ensures bookingId in bookings && CanAccess(bookings[bookingId], user) ==> r == Success(Page(messages, bookingId))
  {
    if bookingId !in bookings then Failure(NotFound)
    else if !CanAccess(bookings[bookingId], user) then Failure(Forbidden)
    else Success(Page(messages, bookingId))
  }

  /**
   * `post_message`: 404 for an unknown booking, then 403 without access, then 400 when the
   * trimmed message is empty; otherwise the trimmed text is stored, stamped `now`.
   */
  method PostMessage(db: Db, bookingId: nat, senderId: nat, sender: Viewer, message: Option<string>, now: int)
    returns (r: Result<ChatMessage>)
    modifies db`messages
    ensures bookingId !in old(db.bookings) ==> r == Failure(NotFound)
    ensures bookingId in old(db.bookings) && !CanAccess(old(db.bookings[bookingId]), sender) ==> r == Failure(Forbidden)
    ensures bookingId in old(db.bookings) && CanAccess(old(db.bookings[bookingId]), sender) && Strip(OrElse(message, "")) == []
      ==> r == Failure(BadRequest)
    ensures bookingId in old(db.bookings) && CanAccess(old(db.bookings[bookingId]), sender) && Strip(OrElse(message, "")) != []
      ==> r.Success?
    ensures r.Failure? ==> unchanged(db`messages)
    ensures r.Success? ==>
      && r.value == ChatMessage(bookingId, senderId, Strip(OrElse(message, "")), now)
      && r.value.text != [] && Strip(r.value.text) == r.value.text
      && db.messages == old(db.messages) + [r.value]
  {
    if bookingId !in db.bookings {
      return Failure(NotFound);
    }
    if !CanAccess(db.bookings[bookingId], sender) {
      return Failure(Forbidden);
    }
    var text := Strip(OrElse(message, ""));
    if text == "" {
      return Failure(BadRequest);
    }
    StripNoop(text);
    var row := ChatMessage(bookingId, senderId, text, now);
    db.messages := db.messages + [row];
    r := Success(row);
  }

  /** A posted message shows up in its booking's thread, after the ones stored before it. */
  lemma PostedJoinsThread(messages: seq<ChatMessage>, m: ChatMessage)
    ensures Thread(messages + [m], m.bookingId) == Thread(messages, m.bookingId) + [m]
    ensures forall other :: other != m.bookingId ==> Thread(messages + [m], other) == Thread(messages, other)
  {
    assert (messages + [m])[..|messages|] == messages;
  }
}
