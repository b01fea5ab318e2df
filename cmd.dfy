/** cmd/up.go: the consistency checks on the --chat, --topic and --to flags, made before the upload runs. */
module Cmd {
  import opened Wrappers
  import opened Errs

  /** The routing flags: --chat (empty means Saved Messages), --topic and --to. */
  datatype RoutingFlags = RoutingFlags(chat: string, thread: int, to: string)

  const TopicWithoutChat: Error := Message("error flags: --chat should be set when --topic is set")
  const ChatAndTo: Error := Message("conflicting flags: --chat and --to cannot be set at the same time")

  /**
   * The checks in order: a topic needs a chat, and a chat excludes --to. None means
   * the command goes on to run the upload.
   */
  function CheckFlags(f: RoutingFlags): (err: Option<Error>)
    ensures err.None? <==> (f.thread == 0 || f.chat != "") && (f.chat == "" || f.to == "")
    ensures err == Some(TopicWithoutChat) <==> f.thread != 0 && f.chat == ""
    ensures err == Some(ChatAndTo) <==> f.chat != "" && f.to != ""
  {
    if f.thread != 0 && f.chat == "" then Some(TopicWithoutChat)
    else if f.chat != "" && f.to != "" then Some(ChatAndTo)
    else None
  }

  /** The two rejections never both apply: one needs an empty chat, the other a non-empty one. */
  lemma RejectionsExclusive(f: RoutingFlags)
    ensures CheckFlags(f).Some? ==> (CheckFlags(f) == Some(TopicWithoutChat)) != (CheckFlags(f) == Some(ChatAndTo))
  {
  }

  /** Chat with topic and no --to, --to alone, and no flags at all (Saved Messages) are accepted. */
  lemma AcceptedCombinations(chat: string, thread: int, to: string)
    ensures chat != "" ==> CheckFlags(RoutingFlags(chat, thread, "")) == None
    ensures CheckFlags(RoutingFlags("", 0, to)) == None
    ensures CheckFlags(RoutingFlags("", 0, "")) == None
  {
  }
}
