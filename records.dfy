/** Typed versions of the dictionary records the Slack Web API returns. A key
    that may be missing from the dictionary is an `Option` field. */
module Records {
  import opened Wrappers

  /** A `conversations.list` entry: `"id"` is always read with `[]`, `"name"` with `.get`. */
  datatype Channel = Channel(id: string, name: Option<string>)

  /** A `conversations.history` or `conversations.replies` entry. `"ts"` is always
      present; the other keys may be missing. */
  datatype Message = Message(
    ts: string,
    user: Option<string>,
    text: Option<string>,
    threadTs: Option<string>,
    replyCount: Option<int>,
    subtype: Option<string>)
}
