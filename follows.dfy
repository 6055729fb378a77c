/** FollowServiceImpl: the follow table (tb_follow) with insert, remove of
    every matching row, and the existence query. The logged-in user, which
    the source reads from UserHolder, is a parameter. */
module Follows {
  import opened Util

  /** A tb_follow row: `userId` follows `followUserId`. The row id and
      creation time are not modelled. */
  datatype FollowRow = FollowRow(userId: int, followUserId: int)

  /** count() of the rows with the given user_id and follow_user_id. */
  function CountFollows(rows: seq<FollowRow>, userId: int, followUserId: int): (n: nat)
    ensures n == multiset(rows)[FollowRow(userId, followUserId)]
    ensures n > 0 <==> exists i :: 0 <= i < |rows| && rows[i] == FollowRow(userId, followUserId)
  {
    if rows == [] then 0
    else
      assert rows == [rows[0]] + rows[1..];
      assert forall i :: 1 <= i < |rows| ==> rows[i] == rows[1..][i - 1];
      (if rows[0] == FollowRow(userId, followUserId) then 1 else 0) + CountFollows(rows[1..], userId, followUserId)
  }

  /** remove(user_id = userId and follow_user_id = followUserId), keeping
      the other rows in their order. */
  function RemoveFollows(rows: seq<FollowRow>, userId: int, followUserId: int): (r: seq<FollowRow>)
    ensures |r| <= |rows|
  {
    if rows == [] then []
    else
      var rest := RemoveFollows(rows[1..], userId, followUserId);
      if rows[0] == FollowRow(userId, followUserId) then rest else [rows[0]] + rest
  }

  /** Every matching row goes and every other row keeps its multiplicity. */
  lemma {:induction false} RemoveFollowsSpec(rows: seq<FollowRow>, userId: int, followUserId: int)
    ensures var r := RemoveFollows(rows, userId, followUserId);
      && (forall i :: 0 <= i < |r| ==> r[i] != FollowRow(userId, followUserId))
      && multiset(r)[FollowRow(userId, followUserId)] == 0
      && (forall x :: x != FollowRow(userId, followUserId) ==> multiset(r)[x] == multiset(rows)[x])
    decreases |rows|
  {
    if rows != [] {
      var rest := RemoveFollows(rows[1..], userId, followUserId);
      RemoveFollowsSpec(rows[1..], userId, followUserId);
      assert rows == [rows[0]] + rows[1..];
      assert multiset(rows) == multiset{rows[0]} + multiset(rows[1..]);
      if rows[0] != FollowRow(userId, followUserId) {
        assert multiset([rows[0]] + rest) == multiset{rows[0]} + multiset(rest);
        assert forall i :: 1 <= i < |rest| + 1 ==> ([rows[0]] + rest)[i] == rest[i - 1];
      }
    }
  }

  /** After a follow row is added, the pair is followed. */
  lemma FollowedAfterInsert(rows: seq<FollowRow>, userId: int, followUserId: int)
    ensures CountFollows(rows + [FollowRow(userId, followUserId)], userId, followUserId) > 0
  {
    assert (rows + [FollowRow(userId, followUserId)])[|rows|] == FollowRow(userId, followUserId);
  }

  /** After the matching rows are removed, the pair is no longer followed. */
  lemma NotFollowedAfterRemove(rows: seq<FollowRow>, userId: int, followUserId: int)
    ensures CountFollows(RemoveFollows(rows, userId, followUserId), userId, followUserId) == 0
  {
    RemoveFollowsSpec(rows, userId, followUserId);
  }

  /** Following or unfollowing one pair does not change whether any other pair is followed. */
  lemma OtherPairsUnaffected(rows: seq<FollowRow>, userId: int, followUserId: int, u: int, f: int)
    requires FollowRow(u, f) != FollowRow(userId, followUserId)
    ensures CountFollows(rows + [FollowRow(userId, followUserId)], u, f) == CountFollows(rows, u, f)
    ensures CountFollows(RemoveFollows(rows, userId, followUserId), u, f) == CountFollows(rows, u, f)
  {
    assert multiset(rows + [FollowRow(userId, followUserId)]) == multiset(rows) + multiset{FollowRow(userId, followUserId)};
    RemoveFollowsSpec(rows, userId, followUserId);
  }

  class FollowService {
    /** tb_follow */
    var rows: seq<FollowRow>

    constructor (rows: seq<FollowRow>)
      ensures this.rows == rows
    {
      this.rows := rows;
    }

    /** follow: BooleanUtil.isTrue(isFollowed) inserts the row; false or
        null removes every matching row. The answer is always ok. */
    method Follow(userId: int, followUserId: int, isFollowed: Option<bool>) returns (res: Result<()>)
      modifies this
      ensures res == Ok(())
      ensures isFollowed == Some(true) ==> rows == old(rows) + [FollowRow(userId, followUserId)]
      ensures isFollowed != Some(true) ==> rows == RemoveFollows(old(rows), userId, followUserId)
    {
      if isFollowed == Some(true) {
        rows := rows + [FollowRow(userId, followUserId)];
      } else {
        rows := RemoveFollows(rows, userId, followUserId);
      }
      res := Ok(());
    }

    /** isFollow: ok(count > 0); the table is only read. */
    function IsFollow(userId: int, followUserId: int): (r: Result<bool>)
      reads this
      ensures r.Ok?
      ensures r.data <==> exists i :: 0 <= i < |rows| && rows[i] == FollowRow(userId, followUserId)
    {
      Ok(CountFollows(rows, userId, followUserId) > 0)
    }
  }

  /** Follow then query answers true; unfollow then query answers false. */
  method FollowThenUnfollow(s: FollowService, userId: int, followUserId: int)
    returns (afterFollow: Result<bool>, afterUnfollow: Result<bool>)
    modifies s
    ensures afterFollow == Ok(true) && afterUnfollow == Ok(false)
  {
    var r1 := s.Follow(userId, followUserId, Some(true));
    FollowedAfterInsert(old(s.rows), userId, followUserId);
    afterFollow := s.IsFollow(userId, followUserId);
    var r2 := s.Follow(userId, followUserId, Some(false));
    NotFollowedAfterRemove(old(s.rows) + [FollowRow(userId, followUserId)], userId, followUserId);
    afterUnfollow := s.IsFollow(userId, followUserId);
  }
}
