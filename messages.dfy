/** The message inbox: seeded with two demo messages on first use, persisted
    under `tyler-messages`, with one selected message shown in a detail pane. */
module MessagesHub {
  import opened Common
  import opened Records
  import opened Storage

  /** The sender stamped on composed messages. */
  const ComposeSender := "Tyler Diorio"

  const WelcomeTitle := "Welcome to Tyler Command Hub"
  const WelcomeText := "This is your unified inbox for messages, reminders, and notifications. You can create new messages, categorize them, and mark them as important."
  const StandupTitle := "Daily Standup Reminder"
  const StandupText := "Don't forget your daily standup meeting at 10:00 AM"

  /** The two demo messages an empty inbox starts with, an hour and two hours
      before `now`. */
  function DemoMessages(now: int): (r: seq<Message>)
    ensures |r| == 2 && r[0].id == "1" && r[1].id == "2"
    ensures forall i | 0 <= i < |r| :: r[i].status == Unread && r[i].timestamp < now
    ensures r[0].timestamp == now - 3600000 && r[1].timestamp == now - 7200000
    ensures r[0].category == System && r[1].category == Reminder
    ensures r[0].sender == Some("System") && r[1].sender == Some("Calendar")
  {
    [ Message("1", WelcomeTitle, WelcomeText, System, Unread, now - 3600000, Some("System")),
      Message("2", StandupTitle, StandupText, Reminder, Unread, now - 7200000, Some("Calendar")) ]
  }

  /** Composing needs both a title and a content that are not blank; the new
      message is a direct, unread message placed first. */
  function MessagesAfterCreate(messages: seq<Message>, title: string, content: string, id: string, now: int): (r: seq<Message>)
    ensures Blank(title) || Blank(content) ==> r == messages
    ensures !Blank(title) && !Blank(content) ==>
      && |r| == |messages| + 1 && r[1..] == messages
      && r[0].id == id && r[0].title == title && r[0].content == content
      && r[0].category == Direct && r[0].status == Unread
      && r[0].timestamp == now && r[0].sender == Some(ComposeSender)
  {
    if Blank(title) || Blank(content) then messages
    else [Message(id, title, content, Direct, Unread, now, Some(ComposeSender))] + messages
  }

  /** Every message carrying `id` gets `status`; nothing else changes. */
  function MessagesAfterStatus(messages: seq<Message>, id: string, status: MessageStatus): (r: seq<Message>)
    ensures |r| == |messages|
    ensures forall i | 0 <= i < |r| :: r[i].status == if messages[i].id == id then status else messages[i].status
    ensures forall i | 0 <= i < |r| :: r[i].(status := messages[i].status) == messages[i]
  {
    seq(|messages|, i requires 0 <= i < |messages| =>
      if messages[i].id == id then messages[i].(status := status) else messages[i])
  }

  /** The detail pane follows a status change when it shows that message. */
  function SelectionAfterStatus(selected: Option<Message>, id: string, status: MessageStatus): (r: Option<Message>)
    ensures selected.Some? && selected.value.id == id ==> r == Some(selected.value.(status := status))
    ensures !(selected.Some? && selected.value.id == id) ==> r == selected
  {
    if selected.Some? && selected.value.id == id then Some(selected.value.(status := status)) else selected
  }

  /** When the pane shows a message of the list, list and pane stay in step. */
  lemma StatusUpdateKeepsPaneInStep(messages: seq<Message>, k: nat, id: string, status: MessageStatus)
    requires k < |messages|
    ensures SelectionAfterStatus(Some(messages[k]), id, status) == Some(MessagesAfterStatus(messages, id, status)[k])
  {
    var r := MessagesAfterStatus(messages, id, status);
    assert r[k].(status := messages[k].status) == messages[k];
  }

  function OtherMessageId(id: string): Message -> bool
  {
    (m: Message) => m.id != id
  }

  /** The messages whose id differs from `id`, in their original order. */
  function MessagesAfterDelete(messages: seq<Message>, id: string): (r: seq<Message>)
    ensures forall i | 0 <= i < |r| :: r[i].id != id && r[i] in messages
    ensures forall i | 0 <= i < |messages| :: messages[i].id != id ==> messages[i] in r
    ensures |r| <= |messages|
    ensures (forall i | 0 <= i < |messages| :: messages[i].id != id) ==> r == messages
  {
    var r := Filter(messages, OtherMessageId(id));
    assert (forall i | 0 <= i < |messages| :: messages[i].id != id) ==> r == messages by {
      if forall i | 0 <= i < |messages| :: messages[i].id != id {
        FilterKeepsAll(messages, OtherMessageId(id));
      }
    }
    r
  }

  lemma DeleteMessageKeepsOrder(a: seq<Message>, b: seq<Message>, id: string)
    ensures MessagesAfterDelete(a + b, id) == MessagesAfterDelete(a, id) + MessagesAfterDelete(b, id)
  {
    FilterConcat(a, b, OtherMessageId(id));
  }

  /** The pane is cleared exactly when it shows the deleted id. */
  function SelectionAfterDelete(selected: Option<Message>, id: string): (r: Option<Message>)
    ensures r.None? <==> selected.None? || selected.value.id == id
    ensures r.Some? ==> r == selected
  {
    if selected.Some? && selected.value.id == id then None else selected
  }

  /** The Star button: starred goes back to read, anything else to starred. */
  function StarTarget(s: MessageStatus): (r: MessageStatus)
    ensures r == Starred <==> s != Starred
    ensures r != Starred ==> r == Read
  {
    if s == Starred then Read else Starred
  }

  /** The Archive button: archived goes back to read, anything else to archived. */
  function ArchiveTarget(s: MessageStatus): (r: MessageStatus)
    ensures r == Archived <==> s != Archived
    ensures r != Archived ==> r == Read
  {
    if s == Archived then Read else Archived
  }

  /** Pressing Star twice on a starred message leaves it starred; on any
      other message it ends up read. Archive behaves the same way. */
  lemma StarArchiveTwice(s: MessageStatus)
    ensures StarTarget(StarTarget(s)) == if s == Starred then Starred else Read
    ensures ArchiveTarget(ArchiveTarget(s)) == if s == Archived then Archived else Read
  {
  }

  /** The inbox filter. `None` is the "All" choice. The search text matches
      the title or the content, ignoring case. */
  predicate Matches(m: Message, query: string, category: Option<MessageCategory>, status: Option<MessageStatus>)
  {
    && (Contains(Lower(m.title), Lower(query)) || Contains(Lower(m.content), Lower(query)))
    && (category.None? || m.category == category.value)
    && (status.None? || m.status == status.value)
  }

  function MatchesFilter(query: string, category: Option<MessageCategory>, status: Option<MessageStatus>): Message -> bool
  {
    (m: Message) => Matches(m, query, category, status)
  }

  /** The listed messages: exactly those of the inbox that pass all three
      tests, in inbox order. */
  function FilteredMessages(messages: seq<Message>, query: string, category: Option<MessageCategory>, status: Option<MessageStatus>): (r: seq<Message>)
    ensures |r| <= |messages|
    ensures forall i | 0 <= i < |r| :: r[i] in messages && Matches(r[i], query, category, status)
    ensures forall i | 0 <= i < |messages| :: Matches(messages[i], query, category, status) ==> messages[i] in r
  {
    Filter(messages, MatchesFilter(query, category, status))
  }

  lemma FilteredMessagesKeepOrder(a: seq<Message>, b: seq<Message>, query: string, category: Option<MessageCategory>, status: Option<MessageStatus>)
    ensures FilteredMessages(a + b, query, category, status)
         == FilteredMessages(a, query, category, status) + FilteredMessages(b, query, category, status)
  {
    FilterConcat(a, b, MatchesFilter(query, category, status));
  }

  /** An empty search with "All" categories and "All" statuses lists the
      whole inbox. */
  lemma UnfilteredShowsAll(messages: seq<Message>)
    ensures FilteredMessages(messages, "", None, None) == messages
  {
    forall i | 0 <= i < |messages| ensures MatchesFilter("", None, None)(messages[i]) {
      assert Lower("") == "";
      assert StartsWith(Lower(messages[i].title), "");
    }
    FilterKeepsAll(messages, MatchesFilter("", None, None));
  }

  function HasStatus(s: MessageStatus): Message -> bool
  {
    (m: Message) => m.status == s
  }

  function StatusOf(m: Message): MessageStatus
  {
    m.status
  }

  /** How many messages have status `s`: the occurrences of `s` among the
      messages' statuses. */
  function CountStatus(messages: seq<Message>, s: MessageStatus): (r: nat)
    ensures r == multiset(Map(messages, StatusOf))[s]
  {
    FilterCountsImage(messages, HasStatus(s), StatusOf, s);
    |Filter(messages, HasStatus(s))|
  }

  /** Counting peels off the first message. */
  lemma CountStatusStep(messages: seq<Message>, s: MessageStatus)
    requires messages != []
    ensures CountStatus(messages, s) == (if messages[0].status == s then 1 else 0) + CountStatus(messages[1..], s)
  {
  }

  lemma {:induction false} StatusCountsAddUp(messages: seq<Message>)
    ensures CountStatus(messages, Unread) + CountStatus(messages, Read)
          + CountStatus(messages, Starred) + CountStatus(messages, Archived) == |messages|
  {
    if messages != [] {
      StatusCountsAddUp(messages[1..]);
      CountStatusStep(messages, Unread);
      CountStatusStep(messages, Read);
      CountStatusStep(messages, Starred);
      CountStatusStep(messages, Archived);
    }
  }

  datatype InboxStats = InboxStats(total: nat, unread: nat, starred: nat, archived: nat)

  /** The header counts. Status is single-valued, so the three counts and
      the read messages together make up the total. */
  function Stats(messages: seq<Message>): (s: InboxStats)
    ensures s.total == |messages|
    ensures s.unread == CountStatus(messages, Unread)
    ensures s.starred == CountStatus(messages, Starred)
    ensures s.archived == CountStatus(messages, Archived)
    ensures s.unread + s.starred + s.archived + CountStatus(messages, Read) == s.total
  {
    StatusCountsAddUp(messages);
    InboxStats(|messages|, CountStatus(messages, Unread), CountStatus(messages, Starred), CountStatus(messages, Archived))
  }

  /** The inbox view: the message list and the message shown in the detail
      pane, over the shared store. */
  class Inbox {
    const store: LocalStorage
    var messages: seq<Message>
    var selected: Option<Message>

    constructor (store: LocalStorage)
      ensures this.store == store && messages == [] && selected.None?
    {
      this.store := store;
      messages := [];
      selected := None;
    }

    /** The save effect: an empty inbox is written only over an existing key. */
    method Persist()
      modifies store`items
      ensures store.items == PersistList(old(store.items), MessagesKey, MessageList(messages), |messages|)
    {
      if |messages| > 0 || Truthy(store.items, MessagesKey) {
        store.SetItem(MessagesKey, MessageList(messages));
      }
    }

    /** The load effect, seeding the demo messages when nothing is stored,
        followed by the save effect. */
    method Mount(now: int) returns (ok: bool)
      modifies this`messages, store`items
      ensures ok == ReadMessages(old(store.items)).Ok?
      ensures !ok ==> messages == old(messages) && store.items == old(store.items)
      ensures ok && Truthy(old(store.items), MessagesKey) ==> messages == old(store.items)[MessagesKey].messages
      ensures !Truthy(old(store.items), MessagesKey) ==> messages == DemoMessages(now)
      ensures ok ==> store.items == PersistList(old(store.items), MessagesKey, MessageList(messages), |messages|)
    {
      if Truthy(store.items, MessagesKey) {
        if !store.items[MessagesKey].MessageList? {
          return false;
        }
        messages := store.items[MessagesKey].messages;
      } else {
        messages := DemoMessages(now);
      }
      Persist();
      return true;
    }

    method CreateMessage(title: string, content: string, id: string, now: int)
      modifies this`messages, store`items
      ensures messages == MessagesAfterCreate(old(messages), title, content, id, now)
      ensures store.items == if Blank(title) || Blank(content) then old(store.items)
                             else old(store.items)[MessagesKey := MessageList(messages)]
    {
      if Blank(title) || Blank(content) {
        return;
      }
      messages := MessagesAfterCreate(messages, title, content, id, now);
      Persist();
    }

    method UpdateMessageStatus(id: string, status: MessageStatus)
      modifies this`messages, this`selected, store`items
      ensures messages == MessagesAfterStatus(old(messages), id, status)
      ensures selected == SelectionAfterStatus(old(selected), id, status)
      ensures store.items == PersistList(old(store.items), MessagesKey, MessageList(messages), |messages|)
    {
      messages := MessagesAfterStatus(messages, id, status);
      selected := SelectionAfterStatus(selected, id, status);
      Persist();
    }

    method DeleteMessage(id: string)
      modifies this`messages, this`selected, store`items
      ensures messages == MessagesAfterDelete(old(messages), id)
      ensures selected == SelectionAfterDelete(old(selected), id)
      ensures store.items == PersistList(old(store.items), MessagesKey, MessageList(messages), |messages|)
    {
      messages := MessagesAfterDelete(messages, id);
      selected := SelectionAfterDelete(selected, id);
      Persist();
    }

    /** Clicking a message in the list. The pane shows `msg`; an unread
        message becomes read in the list. The pane's copy of `msg` keeps the
        status it was clicked with, because the status update sees the
        selection from before the click: only a pane already showing the same
        id takes the new status. */
    method Open(msg: Message)
      modifies this`messages, this`selected, store`items
      ensures msg.status != Unread ==> messages == old(messages) && store.items == old(store.items)
      ensures msg.status == Unread ==>
        && messages == MessagesAfterStatus(old(messages), msg.id, Read)
        && store.items == PersistList(old(store.items), MessagesKey, MessageList(messages), |messages|)
      ensures selected == if msg.status == Unread && old(selected).Some? && old(selected).value.id == msg.id
                          then Some(old(selected).value.(status := Read)) else Some(msg)
    {
      var before := selected;
      selected := Some(msg);
      if msg.status == Unread {
        messages := MessagesAfterStatus(messages, msg.id, Read);
        if before.Some? && before.value.id == msg.id {
          selected := Some(before.value.(status := Read));
        }
        Persist();
      }
    }

    method Star()
      requires selected.Some?
      modifies this`messages, this`selected, store`items
      ensures messages == MessagesAfterStatus(old(messages), old(selected).value.id, StarTarget(old(selected).value.status))
      ensures selected == Some(old(selected).value.(status := StarTarget(old(selected).value.status)))
      ensures store.items == PersistList(old(store.items), MessagesKey, MessageList(messages), |messages|)
    {
      UpdateMessageStatus(selected.value.id, StarTarget(selected.value.status));
    }

    method Archive()
      requires selected.Some?
      modifies this`messages, this`selected, store`items
      ensures messages == MessagesAfterStatus(old(messages), old(selected).value.id, ArchiveTarget(old(selected).value.status))
      ensures selected == Some(old(selected).value.(status := ArchiveTarget(old(selected).value.status)))
      ensures store.items == PersistList(old(store.items), MessagesKey, MessageList(messages), |messages|)
    {
      UpdateMessageStatus(selected.value.id, ArchiveTarget(selected.value.status));
    }
  }
}
