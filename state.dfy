/** The per-channel cursor store: the latest Slack timestamp indexed for each
    channel, so that the next sync only asks for newer messages. */
module StateStore {
  import opened Wrappers

  /** What reading the state file yields. Reading it is not modelled; only the
      three outcomes are: the file is absent, it cannot be read or decoded, or
      it decodes to a map from channel id to timestamp. */
  datatype LoadResult = NoFile | Unreadable | Parsed(cursors: map<string, string>)

  /** The map a freshly constructed store holds. */
  function Initial(file: LoadResult): map<string, string> {
    if file.Parsed? then file.cursors else map[]
  }

  /** `dict.get`: the value stored under `key`, or nothing. */
  function Lookup(m: map<string, string>, key: string): (r: Option<string>)
    ensures r.Some? <==> key in m
    ensures r.Some? ==> r.value == m[key]
  {
    if key in m then Some(m[key]) else None
  }

  /** A missing or unreadable file leaves the store empty: no channel has a cursor. */
  lemma FreshStateEmpty(file: LoadResult, channelId: string)
    requires !file.Parsed?
    ensures Initial(file) == map[]
    ensures Lookup(Initial(file), channelId) == None
  {
  }

  /** A decoded file is taken as it is. */
  lemma LoadedStateKept(cursors: map<string, string>, channelId: string)
    ensures Lookup(Initial(Parsed(cursors)), channelId) == Lookup(cursors, channelId)
  {
  }

  /** Setting a cursor and reading it back gives the value set. */
  lemma SetThenGet(m: map<string, string>, channelId: string, ts: string)
    ensures Lookup(m[channelId := ts], channelId) == Some(ts)
  {
  }

  /** Setting one channel's cursor leaves every other channel's cursor alone. */
  lemma SetLeavesOthers(m: map<string, string>, channelId: string, ts: string, other: string)
    requires other != channelId
    ensures Lookup(m[channelId := ts], other) == Lookup(m, other)
  {
  }

  /** Setting overwrites unconditionally: a later set wins whatever the earlier value was. */
  lemma LastSetWins(m: map<string, string>, channelId: string, ts1: string, ts2: string)
    ensures Lookup(m[channelId := ts1][channelId := ts2], channelId) == Some(ts2)
    ensures m[channelId := ts1][channelId := ts2] == m[channelId := ts2]
  {
  }

  /** `SyncState`: the cursors held in memory. Saving them to the file after
      each update is not modelled. */
  class SyncState {
    const path: string
    var data: map<string, string>

    /** `__init__` followed by `_load`. */
    constructor (path: string, file: LoadResult)
      ensures this.path == path
      ensures data == Initial(file)
    {
      this.path := path;
      data := map[];
      if file.Parsed? {
        data := file.cursors;
      }
    }

    /** `get_cursor`: the channel's latest synced timestamp, or nothing when it was never set. */
    function GetCursor(channelId: string): (r: Option<string>)
      reads this
      ensures r.Some? <==> channelId in data
      ensures r.Some? ==> r.value == data[channelId]
    {
      Lookup(data, channelId)
    }

    /** `set_cursor`: records `ts` for the channel, with no check against the value it replaces. */
    method SetCursor(channelId: string, ts: string)
      modifies this
      ensures data == old(data)[channelId := ts]
      ensures GetCursor(channelId) == Some(ts)
      ensures forall c :: c != channelId ==> GetCursor(c) == old(GetCursor(c))
    {
      data := data[channelId := ts];
    }
  }
}
