/** Turning an outbox event into one notification with one recipient row for each user who wants it. */
module Notifications {
  import opened Common

  type UserId = nat
  type EventKind = nat

  datatype Preference = Preference(push: bool, inApp: bool)

  /** Preferences by user and event kind; None stands for every kind. */
  type Preferences = map<(UserId, Option<EventKind>), Preference>

  /** A recipient row; a hidden one is not shown in the inbox. */
  datatype Recipient = Recipient(user: UserId, hidden: bool)

  datatype Notification = Notification(kind: EventKind, recipients: seq<Recipient>)

  /** The preference for the kind wins over the one for every kind; without either both channels are on. */
  function Effective(preferences: Preferences, user: UserId, kind: EventKind): Preference {
    if (user, Some(kind)) in preferences then preferences[(user, Some(kind))]
    else if (user, None) in preferences then preferences[(user, None)]
    else Preference(true, true)
  }

  predicate Wants(preferences: Preferences, user: UserId, kind: EventKind) {
    Effective(preferences, user, kind).push || Effective(preferences, user, kind).inApp
  }

  predicate HasRow(rows: seq<Recipient>, user: UserId) {
    exists i :: 0 <= i < |rows| && rows[i].user == user
  }

  /** The rows written for the routed users; a second row for one user breaks the unique key and voids them all. */
  function Rows(routed: seq<UserId>, preferences: Preferences, kind: EventKind): (rows: Result<seq<Recipient>>)
    ensures rows.Err? ==> rows.error == Conflict
  {
    if routed == [] then Ok([])
    else
      var last := routed[|routed| - 1];
      var earlier :- Rows(routed[..|routed| - 1], preferences, kind);
      if !Wants(preferences, last, kind) then Ok(earlier)
      else if HasRow(earlier, last) then Err(Conflict)
      else Ok(earlier + [Recipient(last, !Effective(preferences, last, kind).inApp)])
  }

  /** The routed users who want the kind, in order. */
  function Wanting(routed: seq<UserId>, preferences: Preferences, kind: EventKind): seq<UserId> {
    if routed == [] then []
    else
      Wanting(routed[..|routed| - 1], preferences, kind)
        + if Wants(preferences, routed[|routed| - 1], kind) then [routed[|routed| - 1]] else []
  }

  ghost predicate AllDifferent(users: seq<UserId>) {
    forall i, k :: 0 <= i < k < |users| ==> users[i] != users[k]
  }

  ghost predicate DistinctUsers(rows: seq<Recipient>) {
    forall i, k :: 0 <= i < k < |rows| ==> rows[i].user != rows[k].user
  }

  lemma WantingAppend(users: seq<UserId>, user: UserId)
    ensures AllDifferent(users + [user]) <==> AllDifferent(users) && user !in users
  {
    var all := users + [user];
    assert all[|users|] == user;
    assert forall i :: 0 <= i < |users| ==> all[i] == users[i];
  }

  /**
   * Rows are written exactly when no user who wants the event is routed twice; then there is one row for
   * each of them, in order, hidden from the inbox exactly when the user switched the inbox off.
   */
  lemma {:induction false} RowsMean(routed: seq<UserId>, preferences: Preferences, kind: EventKind)
    ensures var users := Wanting(routed, preferences, kind);
      && (Rows(routed, preferences, kind).Ok? <==> AllDifferent(users))
      && (Rows(routed, preferences, kind).Ok? ==>
            var rows := Rows(routed, preferences, kind).value;
            && |rows| == |users|
            && DistinctUsers(rows)
            && (forall i :: 0 <= i < |rows| ==>
                  rows[i] == Recipient(users[i], !Effective(preferences, users[i], kind).inApp)))
  {
    if routed != [] {
      var front, last := routed[..|routed| - 1], routed[|routed| - 1];
      RowsMean(front, preferences, kind);
      assert Wanting(front, preferences, kind) + [] == Wanting(front, preferences, kind);
      WantingAppend(Wanting(front, preferences, kind), last);
      if Rows(front, preferences, kind).Ok? {
        RowsName(Rows(front, preferences, kind).value, Wanting(front, preferences, kind), last);
      }
    }
  }

  lemma RowsName(rows: seq<Recipient>, users: seq<UserId>, user: UserId)
    requires |rows| == |users| && forall i :: 0 <= i < |rows| ==> rows[i].user == users[i]
    ensures HasRow(rows, user) <==> user in users
  {
    if user in users {
      var i :| 0 <= i < |users| && users[i] == user;
      assert rows[i].user == user;
    }
  }

  class NotificationService {
    constructor () {
    }

    /** Looks up each routed user's preferences and writes a row, unless both channels are off. */
    method WriteRecipients(routed: seq<UserId>, preferences: Preferences, kind: EventKind)
      returns (result: Result<seq<Recipient>>)
      ensures result == Rows(routed, preferences, kind)
    {
      var rows: seq<Recipient> := [];
      for i := 0 to |routed|
        invariant Rows(routed[..i], preferences, kind) == Ok(rows)
      {
        assert routed[..i + 1][..i] == routed[..i];
        var user := routed[i];
        var effective := Preference(true, true);
        if (user, Some(kind)) in preferences {
          effective := preferences[(user, Some(kind))];
        } else if (user, None) in preferences {
          effective := preferences[(user, None)];
        }
        if effective.push || effective.inApp {
          if HasRow(rows, user) {
            RowsStop(routed, preferences, kind, i);
            return Err(Conflict);
          }
          rows := rows + [Recipient(user, !effective.inApp)];
        }
      }
      assert routed[..|routed|] == routed;
      return Ok(rows);
    }
  }

  lemma {:induction false} RowsStop(routed: seq<UserId>, preferences: Preferences, kind: EventKind, i: nat)
    requires i < |routed| && Rows(routed[..i + 1], preferences, kind).Err?
    ensures Rows(routed, preferences, kind) == Err(Conflict)
    decreases |routed|
  {
    if i + 1 == |routed| {
      assert routed[..i + 1] == routed;
    } else {
      assert routed[..|routed| - 1][..i + 1] == routed[..i + 1];
      RowsStop(routed[..|routed| - 1], preferences, kind, i);
    }
  }
}
