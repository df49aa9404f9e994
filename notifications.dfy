/*
 * models/notification/notification.model.js: reading, archiving, per-channel
 * delivery updates, interaction counters, the default expiry on creation and
 * the unread query. Clock readings are the parameter `now` (ms); the save()
 * each method ends with is the state the method leaves behind.
 */
module Notifications {
  import opened Common

  const DEFAULT_EXPIRY_MS: int := 30 * DAY_MS

  datatype ChannelKind = Email | Sms | Push | InApp
  datatype ChannelStatus = ChPending | ChSent | ChFailed | ChDelivered | ChRead
  datatype Status = Pending | Sent | Delivered | Read | Archived

  datatype Channel = Channel(
    kind: ChannelKind,
    status: ChannelStatus,
    sentAt: Option<int>,
    deliveredAt: Option<int>,
    readAt: Option<int>,
    error: Option<string>)

  /** The fields of a notification the methods read and write. */
  datatype Note = Note(
    user: string,
    status: Status,
    readAt: Option<int>,
    archivedAt: Option<int>,
    channels: seq<Channel>,
    deliveryAttempts: int,
    lastAttempt: Option<int>,
    openCount: int,
    clickCount: int,
    createdAt: int,
    expiresAt: Option<int>)

  /** The per-channel map of markAsRead: a delivered channel becomes read, stamped now. */
  function ReadChannel(c: Channel, now: int): Channel
  {
    if c.status == ChDelivered then c.(status := ChRead, readAt := Some(now)) else c
  }

  function ReadChannels(cs: seq<Channel>, now: int): (r: seq<Channel>)
    ensures |r| == |cs|
    ensures forall k :: 0 <= k < |cs| ==> r[k] == ReadChannel(cs[k], now)
  {
    if cs == [] then [] else ReadChannels(cs[..|cs| - 1], now) + [ReadChannel(cs[|cs| - 1], now)]
  }

  function MarkAsReadSpec(n: Note, now: int): Note
  {
    n.(status := Read, readAt := Some(now), channels := ReadChannels(n.channels, now))
  }

  /** markAsRead: read now; delivered channels become read, every other channel is kept as it was. */
  lemma MarkAsReadEffect(n: Note, now: int)
    ensures var m := MarkAsReadSpec(n, now);
            m.status == Read && m.readAt == Some(now) && |m.channels| == |n.channels| &&
            (forall k :: 0 <= k < |n.channels| ==>
               m.channels[k].kind == n.channels[k].kind &&
               (n.channels[k].status == ChDelivered ==> m.channels[k].status == ChRead && m.channels[k].readAt == Some(now)) &&
               (n.channels[k].status != ChDelivered ==> m.channels[k] == n.channels[k])) &&
            m.(status := n.status, readAt := n.readAt, channels := n.channels) == n
  {
  }

  /** Marking as read twice at the same instant is the same as once. */
  lemma MarkAsReadIdempotent(n: Note, now: int)
    ensures MarkAsReadSpec(MarkAsReadSpec(n, now), now) == MarkAsReadSpec(n, now)
  {
    var once := ReadChannels(n.channels, now);
    assert ReadChannels(once, now) == once;
  }

  function ArchiveSpec(n: Note, now: int): Note
  {
    n.(status := Archived, archivedAt := Some(now))
  }

  /** The first channel of the kind, or -1 (findIndex). */
  function ChannelIndex(cs: seq<Channel>, kind: ChannelKind): (i: int)
    ensures -1 <= i < |cs|
    ensures 0 <= i ==> cs[i].kind == kind && forall j :: 0 <= j < i ==> cs[j].kind != kind
    ensures i < 0 ==> forall j :: 0 <= j < |cs| ==> cs[j].kind != kind
  {
    FindIndex(cs, (c: Channel) => c.kind == kind)
  }

  /** The switch on the new channel status: one timestamp, or the error for 'failed'. */
  function StampChannel(c: Channel, status: ChannelStatus, error: Option<string>, now: int): Channel
  {
    var c := c.(status := status);
    match status
    case ChSent => c.(sentAt := Some(now))
    case ChDelivered => c.(deliveredAt := Some(now))
    case ChRead => c.(readAt := Some(now))
    case ChFailed => c.(error := error)
    case ChPending => c
  }

  function UpdateDeliverySpec(n: Note, kind: ChannelKind, status: ChannelStatus, error: Option<string>, now: int): Note
  {
    var i := ChannelIndex(n.channels, kind);
    if i < 0 then n
    else
      var m := n.(channels := n.channels[i := StampChannel(n.channels[i], status, error, now)],
                  deliveryAttempts := n.deliveryAttempts + 1, lastAttempt := Some(now));
      if status == ChDelivered then m.(status := Delivered)
      else if status == ChRead then m.(status := Read, readAt := Some(now))
      else m
  }

  /**
   * updateDeliveryStatus touches only the first channel of that kind: no such
   * channel leaves the notification as it was; otherwise that channel takes
   * the status, one more attempt is counted, and the overall status moves
   * only for 'delivered' and 'read'.
   */
  lemma UpdateDeliveryFirstChannelOnly(n: Note, kind: ChannelKind, status: ChannelStatus, error: Option<string>, now: int)
    ensures var m := UpdateDeliverySpec(n, kind, status, error, now);
            var i := ChannelIndex(n.channels, kind);
            (i < 0 <==> m == n) &&
            (i >= 0 ==>
               |m.channels| == |n.channels| && m.channels[i].status == status && m.channels[i].kind == kind &&
               (forall j :: 0 <= j < |n.channels| && j != i ==> m.channels[j] == n.channels[j]) &&
               m.deliveryAttempts == n.deliveryAttempts + 1 &&
               (status == ChDelivered ==> m.status == Delivered) &&
               (status == ChRead ==> m.status == Read && m.readAt == Some(now)) &&
               (status != ChDelivered && status != ChRead ==> m.status == n.status && m.readAt == n.readAt))
  {
  }

  /** trackInteraction: 'open' and 'click' bump their counter; anything else changes nothing. */
  function TrackSpec(n: Note, interaction: string): (m: Note)
    ensures interaction == "open" ==> m == n.(openCount := n.openCount + 1)
    ensures interaction == "click" ==> m == n.(clickCount := n.clickCount + 1)
    ensures interaction != "open" && interaction != "click" ==> m == n
  {
    if interaction == "open" then n.(openCount := n.openCount + 1)
    else if interaction == "click" then n.(clickCount := n.clickCount + 1)
    else n
  }

  /** createNotification: an absent expiresAt becomes 30 days from now; a given one is kept. */
  function CreateSpec(n: Note, now: int): (m: Note)
    ensures m.expiresAt.Some?
    ensures n.expiresAt.Some? ==> m == n
    ensures n.expiresAt.None? ==> m == n.(expiresAt := Some(now + DEFAULT_EXPIRY_MS))
  {
    if n.expiresAt.None? then n.(expiresAt := Some(now + DEFAULT_EXPIRY_MS)) else n
  }

  /** The notification document. */
  class NotificationDoc {
    const user: string
    const createdAt: int
    var status: Status
    var readAt: Option<int>
    var archivedAt: Option<int>
    var channels: seq<Channel>
    var deliveryAttempts: int
    var lastAttempt: Option<int>
    var openCount: int
    var clickCount: int
    var expiresAt: Option<int>

    function State(): Note
      reads this
    {
      Note(user, status, readAt, archivedAt, channels, deliveryAttempts, lastAttempt, openCount, clickCount,
           createdAt, expiresAt)
    }

    /** createNotification on the given fields. */
    constructor (n: Note, now: int)
      ensures State() == CreateSpec(n, now)
    {
      user, createdAt := n.user, n.createdAt;
      status, readAt, archivedAt, channels := n.status, n.readAt, n.archivedAt, n.channels;
      deliveryAttempts, lastAttempt, openCount, clickCount := n.deliveryAttempts, n.lastAttempt, n.openCount, n.clickCount;
      expiresAt := n.expiresAt;
      new;
      if expiresAt.None? {
        expiresAt := Some(now + DEFAULT_EXPIRY_MS);
      }
    }

    method MarkAsRead(now: int)
      modifies this
      ensures State() == MarkAsReadSpec(old(State()), now)
    {
      status := Read;
      readAt := Some(now);
      channels := ReadChannels(channels, now);
    }

    method Archive(now: int)
      modifies this
      ensures State() == ArchiveSpec(old(State()), now)
    {
      status := Archived;
      archivedAt := Some(now);
    }

    method UpdateDeliveryStatus(kind: ChannelKind, status: ChannelStatus, error: Option<string>, now: int)
      modifies this
      ensures State() == UpdateDeliverySpec(old(State()), kind, status, error, now)
    {
      var i := ChannelIndex(channels, kind);
      if i != -1 {
        channels := channels[i := StampChannel(channels[i], status, error, now)];
        deliveryAttempts := deliveryAttempts + 1;
        lastAttempt := Some(now);
        if status == ChDelivered {
          this.status := Delivered;
        } else if status == ChRead {
          this.status := Read;
          readAt := Some(now);
        }
      }
    }

    method TrackInteraction(interaction: string)
      modifies this
      ensures State() == TrackSpec(old(State()), interaction)
    {
      if interaction == "open" {
        openCount := openCount + 1;
      } else if interaction == "click" {
        clickCount := clickCount + 1;
      }
    }
  }

  /** The unread query's filter: the user's, pending / sent / delivered, and not yet expired. */
  predicate IsUnread(n: Note, user: string, now: int)
  {
    n.user == user && (n.status == Pending || n.status == Sent || n.status == Delivered) &&
    n.expiresAt.Some? && n.expiresAt.value > now
  }

  predicate NewerFirst(a: Note, b: Note)
  {
    a.createdAt >= b.createdAt
  }

  /** getUnreadNotifications: the matching notifications, newest first. */
  function UnreadNotifications(notes: seq<Note>, user: string, now: int): seq<Note>
  {
    assert TotalPreorder(NewerFirst);
    SortBy(Filter(notes, (n: Note) => IsUnread(n, user, now)), NewerFirst)
  }

  /** The unread list holds exactly the matching notifications, each as often as stored, newest first. */
  lemma UnreadExact(notes: seq<Note>, user: string, now: int)
    ensures var r := UnreadNotifications(notes, user, now);
            (forall n :: n in r <==> n in notes && IsUnread(n, user, now)) &&
            (forall n :: multiset(r)[n] == if IsUnread(n, user, now) then multiset(notes)[n] else 0) &&
            (forall i, j :: 0 <= i < j < |r| ==> r[i].createdAt >= r[j].createdAt)
  {
    var r := UnreadNotifications(notes, user, now);
    var f := Filter(notes, (n: Note) => IsUnread(n, user, now));
    FilterMultiset(notes, (n: Note) => IsUnread(n, user, now));
    forall n ensures n in r <==> n in notes && IsUnread(n, user, now) {
      assert n in r <==> n in multiset(r);
      assert n in f <==> n in multiset(f);
      assert n in notes <==> n in multiset(notes);
    }
  }

  /** Reading a notification takes it off the unread list. */
  lemma ReadLeavesUnread(n: Note, user: string, now: int, later: int)
    ensures !IsUnread(MarkAsReadSpec(n, now), user, later)
    ensures !IsUnread(ArchiveSpec(n, now), user, later)
  {
  }
}
