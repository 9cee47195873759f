/**
 * The study-group endpoints (backend/study_groups/views.py): creating a
 * group, joining and leaving it, posting in it, creating challenges, and a
 * challenge's leaderboard. A group's members are a set the views change in
 * place; posts and challenges are rows appended to a store.
 */
module StudyGroups {
  import opened Wrappers

  /** The most rows the leaderboard returns. */
  const LeaderboardSize: nat := 50

  /**
   * `join` on a membership set: a member is answered 200 and nothing
   * changes; a full group (as many members as `max_members` or more) is
   * answered 400; anyone else is added, 200.
   */
  function JoinResult(members: set<nat>, maxMembers: nat, user: nat): (set<nat>, int)
  {
    if user in members then (members, 200)
    else if |members| >= maxMembers then (members, 400)
    else (members + {user}, 200)
  }

  /** `leave`: 400 for a non-member; otherwise exactly that member goes, 200. */
  function LeaveResult(members: set<nat>, user: nat): (set<nat>, int)
  {
    if user !in members then (members, 400) else (members - {user}, 200)
  }

  /**
   * A join succeeds exactly when the user is a member afterwards, never
   * removes anyone, and adds at most the user; it never grows a group
   * beyond `max_members`.
   */
  lemma JoinMembership(members: set<nat>, maxMembers: nat, user: nat)
    ensures var (after, status) := JoinResult(members, maxMembers, user);
      && (status == 200 <==> user in after)
      && (status == 400 <==> user !in members && |members| >= maxMembers)
      && members <= after && after - members <= {user}
      && (|after| > |members| ==> |after| <= maxMembers)
  {
  }

  /** Joining twice is joining once. */
  lemma JoinIdempotent(members: set<nat>, maxMembers: nat, user: nat)
    ensures var once := JoinResult(members, maxMembers, user);
      JoinResult(once.0, maxMembers, user).0 == once.0
  {
  }

  /** A user who joined a group they were not in and then leaves it restores its members. */
  lemma LeaveUndoesJoin(members: set<nat>, maxMembers: nat, user: nat)
    requires user !in members
    ensures LeaveResult(JoinResult(members, maxMembers, user).0, user).0 == members
  {
  }

  /** After a leave the user is not a member, and only the user went. */
  lemma LeaveMembership(members: set<nat>, user: nat)
    ensures var (after, status) := LeaveResult(members, user);
      && user !in after && after <= members && members - after <= {user}
      && (status == 200 <==> user in members)
  {
  }

  /** A study group; its members change in place. */
  class StudyGroup {
    const id: nat
    const creator: nat
    const maxMembers: nat
    var members: set<nat>

    /** `perform_create`: the group is saved with its creator, who becomes its first member. */
    constructor (id: nat, creator: nat, maxMembers: nat)
      ensures this.id == id && this.creator == creator && this.maxMembers == maxMembers
      ensures members == {creator}
    {
      this.id := id;
      this.creator := creator;
      this.maxMembers := maxMembers;
      members := {creator};
    }

    /** `join`, as `JoinResult` says. */
    method Join(user: nat) returns (status: int)
      modifies this`members
      ensures (members, status) == JoinResult(old(members), maxMembers, user)
    {
      if user in members {
        return 200;
      }
      if |members| >= maxMembers {
        return 400;
      }
      members := members + {user};
      status := 200;
    }

    /** `leave`, as `LeaveResult` says. */
    method Leave(user: nat) returns (status: int)
      modifies this`members
      ensures (members, status) == LeaveResult(old(members), user)
    {
      if user !in members {
        return 400;
      }
      members := members - {user};
      status := 200;
    }
  }

  /** A message posted in a group. */
  datatype GroupPost = GroupPost(group: nat, author: nat, content: string)

  /** A challenge set in a group. */
  datatype Challenge = Challenge(group: nat, title: string)

  /** The groups, posts and challenges. */
  class GroupStore {
    var groups: seq<StudyGroup>
    var posts: seq<GroupPost>
    var challenges: seq<Challenge>

    /** Groups are distinct objects with distinct ids. */
    predicate Valid()
      reads this`groups
    {
      forall i, j :: 0 <= i < j < |groups| ==> groups[i] != groups[j] && groups[i].id != groups[j].id
    }

    constructor ()
      ensures Valid() && groups == [] && posts == [] && challenges == []
    {
      groups := [];
      posts := [];
      challenges := [];
    }

    /** The position of the group with this id; `None` for a missing id or no such group (a 404). */
    function GroupAt(id: Option<nat>): (r: Option<nat>)
      reads this`groups
      ensures r.Some? ==> id.Some? && r.value < |groups| && groups[r.value].id == id.value
      ensures r.None? ==> id.None? || forall i :: 0 <= i < |groups| ==> groups[i].id != id.value
    {
      if id.None? then None else GroupAtBelow(id.value, |groups|)
    }

    function GroupAtBelow(id: nat, n: nat): (r: Option<nat>)
      requires n <= |groups|
      reads this`groups
      ensures r.Some? ==> r.value < n && groups[r.value].id == id
      ensures r.None? ==> forall i :: 0 <= i < n ==> groups[i].id != id
    {
      if n == 0 then None
      else if groups[n - 1].id == id then Some(n - 1)
      else GroupAtBelow(id, n - 1)
    }

    /** `StudyGroupViewSet.perform_create`: a new group whose one member is its creator. */
    method CreateGroup(id: nat, user: nat, maxMembers: nat) returns (g: StudyGroup)
      requires Valid() && GroupAt(Some(id)).None?
      modifies this`groups
      ensures Valid() && fresh(g) && groups == old(groups) + [g]
      ensures g.id == id && g.creator == user && g.maxMembers == maxMembers && g.members == {user}
      ensures posts == old(posts) && challenges == old(challenges)
    {
      g := new StudyGroup(id, user, maxMembers);
      groups := groups + [g];
    }

    /**
     * `StudyGroupPostViewSet.perform_create`: 404 when the group does not
     * exist, 403 for a user who is not a member; otherwise the post is
     * stored, 201.
     */
    method CreatePost(user: nat, group: Option<nat>, content: string) returns (status: int)
      modifies this`posts
      ensures GroupAt(group).None? ==> status == 404 && posts == old(posts)
      ensures GroupAt(group).Some? && user !in groups[GroupAt(group).value].members ==>
        status == 403 && posts == old(posts)
      ensures GroupAt(group).Some? && user in groups[GroupAt(group).value].members ==>
        status == 201 && posts == old(posts) + [GroupPost(group.value, user, content)]
    {
      var k := GroupAt(group);
      if k.None? {
        return 404;
      }
      if user !in groups[k.value].members {
        return 403;
      }
      posts := posts + [GroupPost(group.value, user, content)];
      status := 201;
    }

    /**
     * `StudyGroupChallengeViewSet.perform_create`: 404 when the group does
     * not exist, 403 unless the user created the group or is staff;
     * otherwise the challenge is stored, 201.
     */
    method CreateChallenge(user: nat, isStaff: bool, group: Option<nat>, title: string) returns (status: int)
      modifies this`challenges
      ensures GroupAt(group).None? ==> status == 404 && challenges == old(challenges)
      ensures GroupAt(group).Some? && groups[GroupAt(group).value].creator != user && !isStaff ==>
        status == 403 && challenges == old(challenges)
      ensures GroupAt(group).Some? && (groups[GroupAt(group).value].creator == user || isStaff) ==>
        status == 201 && challenges == old(challenges) + [Challenge(group.value, title)]
    {
      var k := GroupAt(group);
      if k.None? {
        return 404;
      }
      if groups[k.value].creator != user && !isStaff {
        return 403;
      }
      challenges := challenges + [Challenge(group.value, title)];
      status := 201;
    }
  }

  /** A member's standing in a challenge. */
  datatype Participation = Participation(challenge: nat, user: nat, score: int, completed: bool, lastUpdated: int)

  /** `order_by('-score', '-last_updated')`: `a` may come before `b`. */
  predicate RanksAhead(a: Participation, b: Participation)
  {
    a.score > b.score || (a.score == b.score && a.lastUpdated >= b.lastUpdated)
  }

  predicate Ranked(s: seq<Participation>)
  {
    forall i, j :: 0 <= i < j < |s| ==> RanksAhead(s[i], s[j])
  }

  /** The participations in one challenge, in order. */
  function OfChallenge(ps: seq<Participation>, challenge: nat): (r: seq<Participation>)
    ensures forall i :: 0 <= i < |r| ==> r[i].challenge == challenge && r[i] in ps
    ensures forall i :: 0 <= i < |ps| && ps[i].challenge == challenge ==> ps[i] in r
  {
    if ps == [] then []
    else
      var last := ps[|ps| - 1];
      OfChallenge(ps[..|ps| - 1], challenge) + (if last.challenge == challenge then [last] else [])
  }

  /** Where `x` goes: after the leading rows that rank ahead of it. */
  function RankPoint(x: Participation, s: seq<Participation>): (k: nat)
    ensures k <= |s|
  {
    if s == [] || !RanksAhead(s[0], x) then 0 else RankPoint(x, s[1..]) + 1
  }

  function InsertRanked(x: Participation, s: seq<Participation>): (r: seq<Participation>)
    ensures |r| == |s| + 1
    ensures multiset(r) == multiset(s) + multiset{x}
  {
    var k := RankPoint(x, s);
    assert s == s[..k] + s[k..];
    s[..k] + [x] + s[k..]
  }

  /** The database ordering, as a stable insertion sort (its result, not its steps). */
  function Rank(s: seq<Participation>): (r: seq<Participation>)
    ensures |r| == |s|
    ensures multiset(r) == multiset(s)
  {
    if s == [] then []
    else
      assert s == s[..|s| - 1] + [s[|s| - 1]];
      InsertRanked(s[|s| - 1], Rank(s[..|s| - 1]))
  }

  /** `leaderboard`: the challenge's participations in rank order, at most 50. */
  function Leaderboard(ps: seq<Participation>, challenge: nat): (r: seq<Participation>)
    ensures |r| <= LeaderboardSize
    ensures |r| == if |OfChallenge(ps, challenge)| < LeaderboardSize then |OfChallenge(ps, challenge)| else LeaderboardSize
  {
    var ranked := Rank(OfChallenge(ps, challenge));
    if |ranked| <= LeaderboardSize then ranked else ranked[..LeaderboardSize]
  }

  lemma {:induction false} BeforeRankPoint(x: Participation, s: seq<Participation>)
    ensures forall i :: 0 <= i < RankPoint(x, s) ==> RanksAhead(s[i], x)
  {
    if s != [] && RanksAhead(s[0], x) {
      BeforeRankPoint(x, s[1..]);
      forall i | 0 < i < RankPoint(x, s) ensures RanksAhead(s[i], x) {
        assert s[i] == s[1..][i - 1];
      }
    }
  }

  lemma {:induction false} AfterRankPoint(x: Participation, s: seq<Participation>)
    requires Ranked(s)
    ensures forall i :: RankPoint(x, s) <= i < |s| ==> RanksAhead(x, s[i])
  {
    if s != [] && RanksAhead(s[0], x) {
      var t := s[1..];
      assert Ranked(t);
      AfterRankPoint(x, t);
      forall i | RankPoint(x, s) <= i < |s| ensures RanksAhead(x, s[i]) {
        assert s[i] == t[i - 1];
      }
    }
  }

  lemma InsertedAt(x: Participation, s: seq<Participation>, i: nat)
    requires i <= |s|
    ensures var k := RankPoint(x, s);
      InsertRanked(x, s)[i] == if i < k then s[i] else if i == k then x else s[i - 1]
  {
  }

  lemma InsertRankedRanked(x: Participation, s: seq<Participation>)
    requires Ranked(s)
    ensures Ranked(InsertRanked(x, s))
  {
    BeforeRankPoint(x, s);
    AfterRankPoint(x, s);
    var r := InsertRanked(x, s);
    forall i, j | 0 <= i < j < |r| ensures RanksAhead(r[i], r[j]) {
      InsertedAt(x, s, i);
      InsertedAt(x, s, j);
    }
  }

  lemma {:induction false} RankRanked(s: seq<Participation>)
    ensures Ranked(Rank(s))
  {
    if s != [] {
      RankRanked(s[..|s| - 1]);
      InsertRankedRanked(s[|s| - 1], Rank(s[..|s| - 1]));
    }
  }

  /** The leaderboard holds only the challenge's participations. */
  lemma LeaderboardMembers(ps: seq<Participation>, challenge: nat)
    ensures forall p :: p in Leaderboard(ps, challenge) ==> p in ps && p.challenge == challenge
  {
    var of := OfChallenge(ps, challenge);
    var ranked := Rank(of);
    forall p | p in Leaderboard(ps, challenge) ensures p in ps && p.challenge == challenge {
      assert p in ranked;
      assert p in multiset(of);
      var i :| 0 <= i < |of| && of[i] == p;
    }
  }

  /**
   * The leaderboard is ranked by score and then by last update, both
   * descending, and holds all of the challenge's participations when there
   * are at most 50.
   */
  lemma LeaderboardRanked(ps: seq<Participation>, challenge: nat)
    ensures Ranked(Leaderboard(ps, challenge))
    ensures |OfChallenge(ps, challenge)| <= LeaderboardSize ==>
      multiset(Leaderboard(ps, challenge)) == multiset(OfChallenge(ps, challenge))
  {
    var ranked := Rank(OfChallenge(ps, challenge));
    RankRanked(OfChallenge(ps, challenge));
    if |ranked| > LeaderboardSize {
      assert Leaderboard(ps, challenge) == ranked[..LeaderboardSize];
    }
  }

  /** Every participation left off the leaderboard ranks behind every one on it. */
  lemma LeaderboardIsTop(ps: seq<Participation>, challenge: nat, p: Participation, q: Participation)
    requires p in OfChallenge(ps, challenge) && p !in Leaderboard(ps, challenge)
    requires q in Leaderboard(ps, challenge)
    ensures RanksAhead(q, p)
  {
    var of := OfChallenge(ps, challenge);
    var ranked := Rank(of);
    RankRanked(of);
    assert p in multiset(of);
    assert p in multiset(ranked);
    var j :| 0 <= j < |ranked| && ranked[j] == p;
    var board := Leaderboard(ps, challenge);
    assert |ranked| > LeaderboardSize && board == ranked[..LeaderboardSize];
    assert j >= LeaderboardSize;
    var i :| 0 <= i < |board| && board[i] == q;
    assert ranked[i] == q;
  }
}
