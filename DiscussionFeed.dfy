/**
 * The discussion list (components/DiscussionFeed.tsx): how long ago a
 * thread was started, the author's display name, and the three orders the
 * list can be sorted in. The clock is a parameter: the elapsed time since
 * the thread was created comes in as whole milliseconds, and creation times
 * as millisecond timestamps.
 */
module DiscussionFeed {
  import opened Wrappers
  import opened Text

  const MinuteMs: int := 60000
  const HourMs: int := 3600000
  const DayMs: int := 86400000

  /**
   * `formatDate`: `just now` under a minute (a creation time in the future
   * included), then whole minutes, hours or days rounded down, and the
   * locale date, given as `localeDate`, from a week on.
   */
  function FormatDate(elapsed: int, localeDate: string): (r: string)
    ensures elapsed < MinuteMs ==> r == "just now"
    ensures MinuteMs <= elapsed < HourMs ==> 1 <= elapsed / MinuteMs < 60 && r == NatToString(elapsed / MinuteMs) + "m ago"
    ensures HourMs <= elapsed < DayMs ==> 1 <= elapsed / HourMs < 24 && r == NatToString(elapsed / HourMs) + "h ago"
    ensures DayMs <= elapsed < 7 * DayMs ==> 1 <= elapsed / DayMs < 7 && r == NatToString(elapsed / DayMs) + "d ago"
    ensures 7 * DayMs <= elapsed ==> r == localeDate
  {
    FloorBelow(elapsed, MinuteMs, 1);
    FloorBelow(elapsed, MinuteMs, 60);
    FloorBelow(elapsed, HourMs, 24);
    FloorBelow(elapsed, DayMs, 7);
    var minutes := elapsed / MinuteMs;
    var hours := elapsed / HourMs;
    var days := elapsed / DayMs;
    if minutes < 1 then "just now"
    else if minutes < 60 then NatToString(minutes) + "m ago"
    else if hours < 24 then NatToString(hours) + "h ago"
    else if days < 7 then NatToString(days) + "d ago"
    else localeDate
  }

  /** Rounded-down division against a bound: `x / d < n` exactly when `x < n * d`. */
  lemma FloorBelow(x: int, d: int, n: int)
    requires d > 0
    ensures x / d < n <==> x < n * d
  {
    var q := x / d;
    assert x == q * d + x % d && 0 <= x % d < d;
    if q < n {
      assert q + 1 <= n;
      assert x < (q + 1) * d;
      assert (q + 1) * d <= n * d;
    } else {
      assert q * d >= n * d;
    }
  }

  /** `value || ''` for an optional name. */
  function OrEmpty(name: Option<string>): string
  {
    if name.Some? then name.value else ""
  }

  /** `getAuthorName`: the first and last names joined by a space and trimmed when either is non-empty, else the username. */
  function AuthorName(first: Option<string>, last: Option<string>, username: string): (r: string)
  {
    if OrEmpty(first) != "" || OrEmpty(last) != "" then Trim(Js, OrEmpty(first) + " " + OrEmpty(last))
    else username
  }

  /**
   * Without names the username is shown. With a name, the shown name has no
   * whitespace at either end and keeps every other character of both names
   * in order; two names without whitespace at their ends are shown exactly
   * as `first last`.
   */
  lemma AuthorNameMeaning(first: Option<string>, last: Option<string>, username: string)
    ensures OrEmpty(first) == "" && OrEmpty(last) == "" ==> AuthorName(first, last, username) == username
    ensures OrEmpty(first) != "" || OrEmpty(last) != "" ==>
      var r := AuthorName(first, last, username);
      && NonSpace(Js, r) == NonSpace(Js, OrEmpty(first)) + NonSpace(Js, OrEmpty(last))
      && (r != [] ==> !IsSpace(Js, r[0]) && !IsSpace(Js, r[|r| - 1]))
  {
    var a, b := OrEmpty(first), OrEmpty(last);
    if a != "" || b != "" {
      var joined := a + " " + b;
      TrimShape(Js, joined);
      TrimNonSpace(Js, joined);
      NonSpaceAppend(Js, a + " ", b);
      NonSpaceAppend(Js, a, " ");
      assert NonSpace(Js, " ") == [] by { assert IsSpace(Js, ' '); }
    }
  }

  lemma FullNameShown(first: string, last: string, username: string)
    requires first != "" && last != ""
    requires !IsSpace(Js, first[0]) && !IsSpace(Js, last[|last| - 1])
    ensures AuthorName(Some(first), Some(last), username) == first + " " + last
  {
    var joined := first + " " + last;
    assert joined[0] == first[0] && joined[|joined| - 1] == last[|last| - 1];
    TrimOfTrimmed(Js, joined);
  }

  /** The author shown with a thread or a reply. */
  datatype Author = Author(id: int, username: string, firstName: Option<string>, lastName: Option<string>)

  /** The name shown for an author. */
  function DisplayName(author: Author): string
  {
    AuthorName(author.firstName, author.lastName, author.username)
  }

  /** What the list shows of a thread. */
  datatype Thread = Thread(
    id: int,
    title: string,
    author: Author,
    isPinned: bool,
    replyCount: int,
    voteCount: int,
    views: int,
    createdAt: int)

  /** The `sortBy` choices. */
  datatype Order = Recent | Popular | Unanswered

  /**
   * The comparator given to `sort`: negative when `a` goes first. Recent:
   * newer first; popular: more votes first, then more replies; unanswered:
   * fewer replies first.
   */
  function Compare(order: Order, a: Thread, b: Thread): (r: int)
    ensures order == Recent ==> (r < 0 <==> a.createdAt > b.createdAt)
    ensures order == Popular ==> (r < 0 <==> a.voteCount > b.voteCount || (a.voteCount == b.voteCount && a.replyCount > b.replyCount))
    ensures order == Unanswered ==> (r < 0 <==> a.replyCount < b.replyCount)
  {
    match order
    case Recent => b.createdAt - a.createdAt
    case Popular => if b.voteCount - a.voteCount != 0 then b.voteCount - a.voteCount else b.replyCount - a.replyCount
    case Unanswered => a.replyCount - b.replyCount
  }

  /** The comparator is consistent: swapping its arguments flips its sign, and "may go first" is transitive. */
  lemma CompareConsistent(order: Order, a: Thread, b: Thread, c: Thread)
    ensures Compare(order, a, b) == -Compare(order, b, a)
    ensures Compare(order, a, b) <= 0 && Compare(order, b, c) <= 0 ==> Compare(order, a, c) <= 0
  {
  }

  /** Every thread may go before every later one. */
  ghost predicate Sorted(order: Order, s: seq<Thread>)
  {
    forall i, j :: 0 <= i < j < |s| ==> Compare(order, s[i], s[j]) <= 0
  }

  /** `x` put in front of the first thread it may go before; ties keep `x` first. */
  function Insert(order: Order, x: Thread, s: seq<Thread>): (r: seq<Thread>)
    ensures |r| == |s| + 1
    ensures multiset(r) == multiset(s) + multiset{x}
  {
    if s == [] then [x]
    else if Compare(order, x, s[0]) <= 0 then [x] + s
    else
      var rest := Insert(order, x, s[1..]);
      assert s == [s[0]] + s[1..];
      [s[0]] + rest
  }

  /** `[...threads].sort(...)`: a new sorted list, the threads given left as they were. */
  function SortThreads(order: Order, threads: seq<Thread>): (r: seq<Thread>)
    ensures |r| == |threads|
    ensures multiset(r) == multiset(threads)
  {
    if threads == [] then []
    else
      assert threads == [threads[0]] + threads[1..];
      Insert(order, threads[0], SortThreads(order, threads[1..]))
  }

  /** A thread that may go before `x` and before every thread of `s` may go before every thread after the insertion. */
  lemma {:induction false} InsertBound(order: Order, b: Thread, x: Thread, s: seq<Thread>)
    requires Compare(order, b, x) <= 0
    requires forall k :: 0 <= k < |s| ==> Compare(order, b, s[k]) <= 0
    ensures forall k :: 0 <= k < |s| + 1 ==> Compare(order, b, Insert(order, x, s)[k]) <= 0
  {
    if s != [] && Compare(order, x, s[0]) > 0 {
      InsertBound(order, b, x, s[1..]);
    }
  }

  lemma {:induction false} InsertSorted(order: Order, x: Thread, s: seq<Thread>)
    requires Sorted(order, s)
    ensures Sorted(order, Insert(order, x, s))
  {
    if s == [] {
    } else if Compare(order, x, s[0]) > 0 {
      InsertSorted(order, x, s[1..]);
      CompareConsistent(order, x, s[0], s[0]);
      InsertBound(order, s[0], x, s[1..]);
      var rest := Insert(order, x, s[1..]);
      var r := [s[0]] + rest;
      forall i, j | 0 <= i < j < |r| ensures Compare(order, r[i], r[j]) <= 0 {
        if i > 0 {
          assert r[i] == rest[i - 1] && r[j] == rest[j - 1];
        } else {
          assert r[j] == rest[j - 1];
        }
      }
    } else {
      var r := [x] + s;
      forall i, j | 0 <= i < j < |r| ensures Compare(order, r[i], r[j]) <= 0 {
        if i == 0 && j > 1 {
          CompareConsistent(order, x, s[0], s[j - 1]);
        }
      }
    }
  }

  /** The sorted list is sorted in the chosen order and holds the same threads. */
  lemma {:induction false} SortThreadsSorted(order: Order, threads: seq<Thread>)
    ensures Sorted(order, SortThreads(order, threads))
  {
    if threads != [] {
      SortThreadsSorted(order, threads[1..]);
      InsertSorted(order, threads[0], SortThreads(order, threads[1..]));
    }
  }

  /** Each order, read off the fields it sorts by. */
  lemma SortOrders(order: Order, threads: seq<Thread>, i: nat, j: nat)
    requires i < j < |threads|
    ensures var r := SortThreads(order, threads);
      && (order == Recent ==> r[i].createdAt >= r[j].createdAt)
      && (order == Popular ==>
           (r[i].voteCount >= r[j].voteCount && (r[i].voteCount == r[j].voteCount ==> r[i].replyCount >= r[j].replyCount)))
      && (order == Unanswered ==> r[i].replyCount <= r[j].replyCount)
  {
    SortThreadsSorted(order, threads);
  }
}
