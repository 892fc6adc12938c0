/** The admin header: the notification bell, mark-all-read, logout and the account avatar. */
module AdminNavbar {
  import opened Text
  import opened Lists
  import opened Session

  datatype Notification = Notification(id: int, title: string, message: string, time: string, read: bool)

  /** The three notifications the header starts with. */
  function SeedNotifications(): (r: seq<Notification>)
    ensures |r| == 3
  {
    [ Notification(1, "New user registered", "John Doe just created an account", "5 minutes ago", false),
      Notification(2, "New support ticket", "A new support ticket requires attention", "1 hour ago", false),
      Notification(3, "System update", "System update completed successfully", "2 hours ago", true) ]
  }

  /** `unreadCount`: how many notifications are unread. */
  function UnreadCount(ns: seq<Notification>): (r: nat)
    ensures r <= |ns|
    ensures r == 0 <==> forall i :: 0 <= i < |ns| ==> ns[i].read
  {
    var unread := Filter(ns, (n: Notification) => !n.read);
    assert forall i :: 0 <= i < |ns| && !ns[i].read ==> ns[i] in unread;
    |unread|
  }

  /** Two of the seeded notifications are unread. */
  lemma {:induction false} SeedUnread()
    ensures UnreadCount(SeedNotifications()) == 2
  {
    var s := SeedNotifications();
    var p := (n: Notification) => !n.read;
    assert Filter(s[2..], p) == [] by {
      assert s[2..][1..] == [];
    }
    assert Filter(s[1..], p) == [s[1]] by {
      assert s[1..][1..] == s[2..];
    }
    assert Filter(s, p) == [s[0], s[1]] by {
      assert s[1..] == s[1..];
    }
  }

  /** The bell shows its badge only while something is unread. */
  function BadgeShown(ns: seq<Notification>): (r: bool)
    ensures r <==> exists i :: 0 <= i < |ns| && !ns[i].read
  {
    UnreadCount(ns) > 0
  }

  /** `markAllAsRead`: every notification becomes read, everything else about it and the order are kept. */
  function MarkAllAsRead(ns: seq<Notification>): (r: seq<Notification>)
    ensures |r| == |ns|
    ensures forall i :: 0 <= i < |ns| ==> r[i].read && r[i] == ns[i].(read := true)
  {
    seq(|ns|, i requires 0 <= i < |ns| => ns[i].(read := true))
  }

  /** Marking all as read twice is the same as once. */
  lemma MarkAllIdempotent(ns: seq<Notification>)
    ensures MarkAllAsRead(MarkAllAsRead(ns)) == MarkAllAsRead(ns)
  {
  }

  /** After marking all as read nothing is unread and the badge is gone. */
  lemma MarkAllClearsBadge(ns: seq<Notification>)
    ensures UnreadCount(MarkAllAsRead(ns)) == 0
    ensures !BadgeShown(MarkAllAsRead(ns))
  {
  }

  /** `user.name.charAt(0).toUpperCase()`: one upper-cased character, or nothing for an empty name. */
  function AvatarLetter(name: string): (r: string)
    ensures name == "" <==> r == ""
    ensures name != "" ==> r == [UpperChar(name[0])] && !IsLowerAscii(r[0])
  {
    if name == "" then "" else [UpperChar(name[0])]
  }

  class AdminNavbarState {
    var notifications: seq<Notification>

    constructor ()
      ensures notifications == SeedNotifications()
    {
      notifications := SeedNotifications();
    }

    /** The "Mark all as read" button. */
    method MarkAll()
      modifies this
      ensures notifications == MarkAllAsRead(old(notifications))
      ensures UnreadCount(notifications) == 0
    {
      notifications := MarkAllAsRead(notifications);
    }

    /** `handleLogout`: drops the stored account and leaves for /login. */
    method Logout(storage: Storage) returns (route: string)
      modifies storage
      ensures storage.items == old(storage.items) - {UserKey}
      ensures UserKey !in storage.items
      ensures route == "/login"
    {
      storage.RemoveItem(UserKey);
      route := "/login";
    }
  }
}
