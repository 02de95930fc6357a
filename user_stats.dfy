/**
 * The on-device `user_stats` table: one row per user id, replaced wholesale by
 * an insert, and changed column-wise by the score and avatar updates.
 */
module UserStats {
  import opened Wrappers

  /** The default avatar, a bust-in-silhouette emoji. */
  const DefaultAvatar: string := "\U{1F464}"

  datatype UserEntity = UserEntity(
    uid: string,
    name: string,
    email: string,
    totalScore: int,
    quizzesDone: int,
    avatar: string)

  /** `UserEntity(uid, name, email)`: the three required columns, and every default. */
  function NewUserEntity(uid: string, name: string, email: string): UserEntity {
    UserEntity(uid, name, email, 0, 0, DefaultAvatar)
  }

  /** The row filed under `uid`, if any. */
  function Lookup(rows: map<string, UserEntity>, uid: string): Option<UserEntity> {
    if uid in rows then Some(rows[uid]) else None
  }

  /** The table after `updateScore(uid, points)`. */
  function WithScore(rows: map<string, UserEntity>, uid: string, points: int): map<string, UserEntity> {
    if uid in rows
    then rows[uid := rows[uid].(totalScore := rows[uid].totalScore + points, quizzesDone := rows[uid].quizzesDone + 1)]
    else rows
  }

  /** The table after `updateAvatar(uid, avatar)`. */
  function WithAvatar(rows: map<string, UserEntity>, uid: string, avatar: string): map<string, UserEntity> {
    if uid in rows then rows[uid := rows[uid].(avatar := avatar)] else rows
  }

  /** Every row is filed under its own primary key. */
  ghost predicate KeyedByUid(rows: map<string, UserEntity>) {
    forall k :: k in rows ==> rows[k].uid == k
  }

  class UserDao {
    var rows: map<string, UserEntity>

    ghost predicate Valid()
      reads this
    {
      KeyedByUid(rows)
    }

    /** A table as found on the device. */
    constructor (stored: map<string, UserEntity>)
      requires KeyedByUid(stored)
      ensures Valid() && rows == stored
    {
      rows := stored;
    }

    /** `insertUser(user)`, conflict strategy REPLACE. */
    method InsertUser(user: UserEntity)
      requires Valid()
      modifies this
      ensures Valid()
      ensures rows == old(rows)[user.uid := user]
    {
      rows := rows[user.uid := user];
    }

    /** `getUserById(uid)`, the current value of the observed row. */
    function GetUserById(uid: string): (r: Option<UserEntity>)
      requires Valid()
      reads this
      ensures r.Some? ==> r.value.uid == uid
      ensures r.None? <==> uid !in rows
    {
      Lookup(rows, uid)
    }

    /** `updateScore(uid, points)`. */
    method UpdateScore(uid: string, points: int)
      requires Valid()
      modifies this
      ensures Valid()
      ensures rows == WithScore(old(rows), uid, points)
    {
      if uid in rows {
        var row := rows[uid];
        rows := rows[uid := row.(totalScore := row.totalScore + points, quizzesDone := row.quizzesDone + 1)];
      }
    }

    /** `updateAvatar(uid, avatar)`. */
    method UpdateAvatar(uid: string, avatar: string)
      requires Valid()
      modifies this
      ensures Valid()
      ensures rows == WithAvatar(old(rows), uid, avatar)
    {
      if uid in rows {
        rows := rows[uid := rows[uid].(avatar := avatar)];
      }
    }
  }

  /** A new row starts with no score, no completed quiz and the default avatar. */
  lemma NewUserDefaults(uid: string, name: string, email: string)
    ensures var u := NewUserEntity(uid, name, email);
      u.uid == uid && u.name == name && u.email == email
      && u.totalScore == 0 && u.quizzesDone == 0 && u.avatar == DefaultAvatar
  {
  }

  /** After an insert, reading the inserted key gives exactly the inserted row; other keys read as before. */
  lemma InsertThenLookup(rows: map<string, UserEntity>, user: UserEntity, uid: string)
    ensures Lookup(rows[user.uid := user], user.uid) == Some(user)
    ensures uid != user.uid ==> Lookup(rows[user.uid := user], uid) == Lookup(rows, uid)
    ensures KeyedByUid(rows) ==> KeyedByUid(rows[user.uid := user])
  {
  }

  /**
   * A score update adds the points and one completed quiz to its own row, keeps
   * that row's other columns, leaves other rows alone and is a no-op on a missing row.
   */
  lemma ScoreUpdateEffect(rows: map<string, UserEntity>, uid: string, points: int, other: string)
    ensures uid !in rows ==> WithScore(rows, uid, points) == rows
    ensures other != uid ==> Lookup(WithScore(rows, uid, points), other) == Lookup(rows, other)
    ensures uid in rows ==>
      var before := rows[uid];
      var after := Lookup(WithScore(rows, uid, points), uid);
      && after.Some?
      && after.value.totalScore == before.totalScore + points
      && after.value.quizzesDone == before.quizzesDone + 1
      && after.value.uid == before.uid && after.value.name == before.name
      && after.value.email == before.email && after.value.avatar == before.avatar
  {
  }

  /** Two score updates on one user add up, in either order. */
  lemma ScoreUpdatesAccumulate(rows: map<string, UserEntity>, uid: string, p: int, q: int)
    ensures WithScore(WithScore(rows, uid, p), uid, q) == WithScore(WithScore(rows, uid, q), uid, p)
    ensures uid in rows ==>
      var after := WithScore(WithScore(rows, uid, p), uid, q)[uid];
      after.totalScore == rows[uid].totalScore + p + q && after.quizzesDone == rows[uid].quizzesDone + 2
  {
  }

  /** An avatar update changes only that row's avatar, and is a no-op on a missing row. */
  lemma AvatarUpdateEffect(rows: map<string, UserEntity>, uid: string, avatar: string, other: string)
    ensures uid !in rows ==> WithAvatar(rows, uid, avatar) == rows
    ensures other != uid ==> Lookup(WithAvatar(rows, uid, avatar), other) == Lookup(rows, other)
    ensures uid in rows ==>
      var after := WithAvatar(rows, uid, avatar)[uid];
      && after.avatar == avatar
      && after == rows[uid].(avatar := avatar)
      && after.totalScore == rows[uid].totalScore && after.quizzesDone == rows[uid].quizzesDone
  {
  }

  /** Score and avatar updates touch different columns, so they commute. */
  lemma ScoreAndAvatarCommute(rows: map<string, UserEntity>, u: string, points: int, v: string, avatar: string)
    ensures WithAvatar(WithScore(rows, u, points), v, avatar) == WithScore(WithAvatar(rows, v, avatar), u, points)
  {
  }
}
