/** The insights view: counts derived once, on mount, from the stored task,
    file and message lists. */
module SystemInsights {
  import opened Common
  import opened Records
  import opened Storage
  import MessagesHub

  /** The five figures on the metric cards. `hoursTenths` is the hours
      figure in tenths of an hour. `messagesProcessed` is `None` when the
      card has no value to show. */
  datatype Insights = Insights(
    tasksCompleted: nat,
    hoursTenths: nat,
    currentStreak: nat,
    filesManaged: nat,
    messagesProcessed: Option<nat>)

  /** The longest streak the view reports. */
  const StreakCap := 7

  /** A message counts as processed once it is read or archived. */
  predicate IsProcessed(m: Message)
  {
    m.status == Read || m.status == Archived
  }

  function ProcessedMessages(messages: seq<Message>): seq<Message>
  {
    Filter(messages, IsProcessed)
  }

  /** The processed messages are exactly the read ones and the archived
      ones, as the inbox counts them. */
  lemma {:induction false} ProcessedIsReadPlusArchived(messages: seq<Message>)
    ensures |ProcessedMessages(messages)| == MessagesHub.CountStatus(messages, Read) + MessagesHub.CountStatus(messages, Archived)
  {
    if messages != [] {
      ProcessedIsReadPlusArchived(messages[1..]);
    }
  }

  /** The figures the view means to show, or `Thrown` when one of the three
      lists does not parse. */
  function ComputeInsights(items: map<string, Stored>): (r: Result<Insights>)
    ensures r.Ok? <==> ReadTasks(items).Ok? && ReadFiles(items).Ok? && ReadMessages(items).Ok?
    ensures r.Ok? ==>
      var tasks := ReadTasks(items).value;
      var messages := ReadMessages(items).value;
      && r.value.tasksCompleted == |CompletedTasks(tasks)|
      && r.value.tasksCompleted + |ActiveTasks(tasks)| == |tasks|
      && r.value.hoursTenths * 2 == r.value.tasksCompleted * 10
      && r.value.currentStreak <= StreakCap && r.value.currentStreak <= r.value.tasksCompleted
      && (r.value.currentStreak == StreakCap || r.value.currentStreak == r.value.tasksCompleted)
      && r.value.filesManaged == |ReadFiles(items).value|
      && r.value.messagesProcessed == Some(MessagesHub.CountStatus(messages, Read) + MessagesHub.CountStatus(messages, Archived))
  {
    match (ReadTasks(items), ReadFiles(items), ReadMessages(items))
    case (Ok(tasks), Ok(files), Ok(messages)) =>
      ActiveCompletedPartition(tasks);
      ProcessedIsReadPlusArchived(messages);
      var completed := |CompletedTasks(tasks)|;
      Ok(Insights(completed, 5 * completed, if completed < StreakCap then completed else StreakCap,
                  |files|, Some(|ProcessedMessages(messages)|)))
    case _ => Thrown
  }

  /** The figures as the view computes them: the processed count is
      computed, but the value stored for the card is the length of that
      count, which a number does not have, so the card is left empty. */
  function ComputeInsightsAsWritten(items: map<string, Stored>): (r: Result<Insights>)
    ensures r.Ok? <==> ComputeInsights(items).Ok?
    ensures r.Ok? ==> r.value == ComputeInsights(items).value.(messagesProcessed := None)
  {
    match (ReadTasks(items), ReadFiles(items), ReadMessages(items))
    case (Ok(tasks), Ok(files), Ok(_)) =>
      var completed := |CompletedTasks(tasks)|;
      Ok(Insights(completed, 5 * completed, if completed < StreakCap then completed else StreakCap,
                  |files|, None))
    case _ => Thrown
  }

  /** With one read message stored, the view should report one processed
      message, but as written its card shows nothing. */
  lemma ProcessedCountLost(m: Message)
    requires m.status == Read
    ensures var items := map[MessagesKey := MessageList([m])];
      && ComputeInsights(items).Ok? && ComputeInsights(items).value.messagesProcessed == Some(1)
      && ComputeInsightsAsWritten(items).Ok? && ComputeInsightsAsWritten(items).value.messagesProcessed == None
  {
    var items := map[MessagesKey := MessageList([m])];
    assert Truthy(items, MessagesKey);
    assert [m][1..] == [];
    assert Filter([m], MessagesHub.HasStatus(Read)) == [m];
    assert Filter([m], MessagesHub.HasStatus(Archived)) == [];
  }
}
