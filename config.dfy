/** The service configuration, read from environment variables. */
module Configuration {
  import opened Wrappers
  import opened Text

  datatype Config = Config(
    slackBotToken: string,
    qdrantUrl: string,
    qdrantCollection: string,
    slackChannels: string,
    embeddingProvider: string,
    localEmbeddingModel: string,
    openaiApiKey: string,
    openaiEmbeddingModel: string,
    syncIntervalMinutes: int,
    runOnce: bool,
    stateFile: string,
    batchSize: int)

  /** Why `from_env` fails: the token is missing or empty (`EnvironmentError`), or an
      integer setting is not a decimal integer (`ValueError` from `int`). */
  datatype ConfigError = MissingToken | NotAnInteger(variable: string, value: string)

  // ------------------------------------------------------------ channel list

  /** One part as the comprehension treats it: stripped, and kept only when not blank. */
  function KeepPart(part: string): (r: seq<string>)
    ensures Strip(part) != [] ==> r == [Strip(part)]
    ensures Strip(part) == [] ==> r == []
    ensures forall k :: 0 <= k < |r| ==> r[k] != [] && Trimmed(r[k])
  {
    StripResultTrimmed(part);
    if Strip(part) == [] then [] else [Strip(part)]
  }

  /** The stripped parts, blank ones dropped, in order. */
  function CleanParts(parts: seq<string>): (r: seq<string>)
    ensures |r| <= |parts|
    ensures forall k :: 0 <= k < |r| ==> r[k] != [] && Trimmed(r[k])
  {
    if parts == [] then []
    else
      var r := KeepPart(parts[0]) + CleanParts(parts[1..]);
      assert forall k :: 0 <= k < |r| ==> r[k] != [] && Trimmed(r[k]) by {
        var a, b := KeepPart(parts[0]), CleanParts(parts[1..]);
        forall k | 0 <= k < |r| ensures r[k] != [] && Trimmed(r[k]) {
          if k < |a| {
            assert r[k] == a[k];
          } else {
            assert r[k] == b[k - |a|];
          }
        }
      }
      r
  }

  /** `Config.channel_list`: the comma-separated names or ids, each stripped, blank ones dropped. */
  function ChannelList(slackChannels: string): (r: seq<string>)
    ensures slackChannels == [] ==> r == []
    ensures forall k :: 0 <= k < |r| ==> r[k] != [] && Trimmed(r[k])
  {
    if slackChannels == [] then [] else CleanParts(Split(slackChannels, ','))
  }

  /** A character missing from a string is missing from its stripped form. */
  lemma StripKeepsOut(s: string, c: char)
    requires c !in s
    ensures c !in Strip(s)
  {
    StripIsTrimmedSlice(s);
  }

  lemma {:induction false} CleanPartsKeepOut(parts: seq<string>, c: char)
    requires forall k :: 0 <= k < |parts| ==> c !in parts[k]
    ensures forall k :: 0 <= k < |CleanParts(parts)| ==> c !in CleanParts(parts)[k]
    decreases |parts|
  {
    if parts != [] {
      StripKeepsOut(parts[0], c);
      CleanPartsKeepOut(parts[1..], c);
      var head := KeepPart(parts[0]);
      var tail := CleanParts(parts[1..]);
      assert CleanParts(parts) == head + tail;
      forall k | 0 <= k < |head + tail| ensures c !in (head + tail)[k] {
        if k >= |head| {
          assert (head + tail)[k] == tail[k - |head|];
        }
      }
    }
  }

  /** No element of the channel list contains a comma. */
  lemma ChannelListNoComma(slackChannels: string)
    ensures forall k :: 0 <= k < |ChannelList(slackChannels)| ==> ',' !in ChannelList(slackChannels)[k]
  {
    if slackChannels != [] {
      CleanPartsKeepOut(Split(slackChannels, ','), ',');
    }
  }

  /** Parts that strip to the given non-empty names are kept as those names, in order. */
  lemma {:induction false} CleanPartsOfPadded(parts: seq<string>, names: seq<string>)
    requires |parts| == |names|
    requires forall k :: 0 <= k < |parts| ==> Strip(parts[k]) == names[k] && names[k] != []
    ensures CleanParts(parts) == names
    decreases |parts|
  {
    if parts != [] {
      assert forall k :: 0 <= k < |parts[1..]| ==> parts[1..][k] == parts[k + 1] && names[1..][k] == names[k + 1];
      CleanPartsOfPadded(parts[1..], names[1..]);
      assert KeepPart(parts[0]) == [names[0]];
      assert [names[0]] + names[1..] == names;
    }
  }

  /** White space around the names does not matter: `"general, random"` lists
      `general` and `random`. Comma-free parts joined with commas are read back as
      their stripped forms, in order. */
  lemma ChannelListPadded(parts: seq<string>, names: seq<string>)
    requires |parts| == |names|
    requires forall k :: 0 <= k < |parts| ==> ',' !in parts[k] && Strip(parts[k]) == names[k] && names[k] != []
    ensures ChannelList(Join(parts, ",")) == names
  {
    if parts != [] {
      assert Strip([]) == [];
      assert parts[0] != [];
      assert Join(parts, ",") != [] by {
        if |parts| > 1 {
          assert Join(parts, ",") == parts[0] + "," + Join(parts[1..], ",");
        }
      }
      SplitJoin(parts, ',');
      CleanPartsOfPadded(parts, names);
    }
  }

  /** A name fit for the list: non-empty, trimmed and free of commas. */
  predicate CleanName(name: string) {
    name != [] && Trimmed(name) && ',' !in name
  }

  /** Order and content survive the round trip: joining clean names with commas
      and reading the list back gives the same names in the same order. */
  lemma ChannelListRoundTrip(names: seq<string>)
    requires forall k :: 0 <= k < |names| ==> CleanName(names[k])
    ensures ChannelList(Join(names, ",")) == names
  {
    forall k | 0 <= k < |names| ensures Strip(names[k]) == names[k] {
      StripTrimmed(names[k]);
    }
    ChannelListPadded(names, names);
  }

  // ----------------------------------------------------------- from_env

  /** `os.environ.get(key, default)`. */
  function Get(env: map<string, string>, key: string, default: string): (v: string)
    ensures key in env ==> v == env[key]
    ensures key !in env ==> v == default
  {
    if key in env then env[key] else default
  }

  /** `value.lower() in ("1", "true", "yes")`. */
  predicate Truthy(value: string) {
    AsciiLower(value) in ["1", "true", "yes"]
  }

  /** `v` spells `word` (lower-case letters) with any mix of letter cases. */
  predicate AnyCase(v: string, word: string) {
    |v| == |word| &&
    forall i :: 0 <= i < |v| ==> v[i] == word[i] || (v[i] as int) + 32 == word[i] as int
  }

  lemma LowerIsWord(v: string, word: string)
    requires forall i :: 0 <= i < |word| ==> 'a' <= word[i] <= 'z'
    ensures AsciiLower(v) == word <==> AnyCase(v, word)
  {
    if AnyCase(v, word) {
      assert AsciiLower(v) == word by {
        forall i | 0 <= i < |v| ensures AsciiLower(v)[i] == word[i] {
          if v[i] != word[i] {
            assert 'A' <= v[i] <= 'Z';
          }
        }
      }
    }
  }

  /** `RUN_ONCE` is on exactly for "1" and for "true" or "yes" in any letter case. */
  lemma TruthyIff(value: string)
    ensures Truthy(value) <==> value == "1" || AnyCase(value, "true") || AnyCase(value, "yes")
  {
    LowerIsWord(value, "true");
    LowerIsWord(value, "yes");
    assert AsciiLower(value) == "1" <==> value == "1" by {
      if AsciiLower(value) == "1" {
        assert value[0] == '1';
      }
    }
  }

  /** `Config.from_env`: the token is checked first; the integer settings are
      converted in the order the constructor's arguments are written. */
  function FromEnv(env: map<string, string>): (r: Result<Config, ConfigError>)
    ensures r == Err(MissingToken) <==> Get(env, "SLACK_BOT_TOKEN", "") == ""
    ensures r.Ok? <==>
      && Get(env, "SLACK_BOT_TOKEN", "") != ""
      && ParseInt(Get(env, "SYNC_INTERVAL_MINUTES", "60")).Some?
      && ParseInt(Get(env, "BATCH_SIZE", "50")).Some?
    ensures r.Ok? ==>
      && r.value.slackBotToken == env["SLACK_BOT_TOKEN"]
      && Some(r.value.syncIntervalMinutes) == ParseInt(Get(env, "SYNC_INTERVAL_MINUTES", "60"))
      && Some(r.value.batchSize) == ParseInt(Get(env, "BATCH_SIZE", "50"))
      && r.value.runOnce == Truthy(Get(env, "RUN_ONCE", "false"))
  {
    var token := Get(env, "SLACK_BOT_TOKEN", "");
    if token == [] then Err(MissingToken)
    else
      var interval := Get(env, "SYNC_INTERVAL_MINUTES", "60");
      var batch := Get(env, "BATCH_SIZE", "50");
      match ParseInt(interval)
      case None => Err(NotAnInteger("SYNC_INTERVAL_MINUTES", interval))
      case Some(minutes) =>
        match ParseInt(batch)
        case None => Err(NotAnInteger("BATCH_SIZE", batch))
        case Some(size) => Ok(Assemble(token, minutes, size, env))
  }

  /** The record `from_env` builds once the token and the integers are in hand. */
  function Assemble(token: string, minutes: int, size: int, env: map<string, string>): (c: Config)
    ensures c.slackBotToken == token && c.syncIntervalMinutes == minutes && c.batchSize == size
    ensures c.runOnce == Truthy(Get(env, "RUN_ONCE", "false"))
  {
    Config(
      token,
      Get(env, "QDRANT_URL", "http://qdrant:6333"),
      Get(env, "QDRANT_COLLECTION", "slack_messages"),
      Get(env, "SLACK_CHANNELS", ""),
      Get(env, "EMBEDDING_PROVIDER", "local"),
      Get(env, "LOCAL_EMBEDDING_MODEL", "all-MiniLM-L6-v2"),
      Get(env, "OPENAI_API_KEY", ""),
      Get(env, "OPENAI_EMBEDDING_MODEL", "text-embedding-3-small"),
      minutes,
      Truthy(Get(env, "RUN_ONCE", "false")),
      Get(env, "STATE_FILE", "/data/state.json"),
      size)
  }

  /** The default strings of the two integer settings parse to 60 and 50. */
  lemma DefaultInterval()
    ensures ParseInt("60") == Some(60)
  {
    ParsesTo(60, "60");
  }

  lemma DefaultBatchSize()
    ensures ParseInt("50") == Some(50)
  {
    ParsesTo(50, "50");
  }

  lemma ParsesTo(i: int, s: string)
    requires IntToString(i) == s
    ensures ParseInt(s) == Some(i)
  {
    ParseIntRoundTrip(i);
  }

  /** None of the optional settings is in the environment. */
  predicate NoSettings(env: map<string, string>) {
    && "QDRANT_URL" !in env && "QDRANT_COLLECTION" !in env && "SLACK_CHANNELS" !in env
    && "EMBEDDING_PROVIDER" !in env && "LOCAL_EMBEDDING_MODEL" !in env
    && "OPENAI_API_KEY" !in env && "OPENAI_EMBEDDING_MODEL" !in env
    && "SYNC_INTERVAL_MINUTES" !in env && "RUN_ONCE" !in env
    && "STATE_FILE" !in env && "BATCH_SIZE" !in env
  }

  /** With only the token set, every other setting takes its default. */
  lemma FromEnvDefaults(env: map<string, string>)
    requires NoSettings(env)
    requires Get(env, "SLACK_BOT_TOKEN", "") != ""
    ensures FromEnv(env) == Ok(Config(
      env["SLACK_BOT_TOKEN"], "http://qdrant:6333", "slack_messages", "", "local", "all-MiniLM-L6-v2", "",
      "text-embedding-3-small", 60, false, "/data/state.json", 50))
  {
    DefaultsParsed(env);
    AssembleDefaults(env["SLACK_BOT_TOKEN"], env);
  }

  lemma DefaultsParsed(env: map<string, string>)
    requires NoSettings(env)
    requires Get(env, "SLACK_BOT_TOKEN", "") != ""
    ensures FromEnv(env) == Ok(Assemble(env["SLACK_BOT_TOKEN"], 60, 50, env))
  {
    assert ParseInt(Get(env, "SYNC_INTERVAL_MINUTES", "60")) == Some(60) by {
      DefaultInterval();
    }
    assert ParseInt(Get(env, "BATCH_SIZE", "50")) == Some(50) by {
      DefaultBatchSize();
    }
  }

  lemma AssembleDefaults(token: string, env: map<string, string>)
    requires NoSettings(env)
    ensures Assemble(token, 60, 50, env) == Config(
      token, "http://qdrant:6333", "slack_messages", "", "local", "all-MiniLM-L6-v2", "",
      "text-embedding-3-small", 60, false, "/data/state.json", 50)
  {
    assert !Truthy(Get(env, "RUN_ONCE", "false")) by {
      assert AsciiLower("false")[0] == 'f';
    }
  }

  /** A bad interval is reported before a bad batch size, and only once the token is there. */
  lemma FromEnvErrorOrder(env: map<string, string>)
    requires Get(env, "SLACK_BOT_TOKEN", "") != ""
    requires ParseInt(Get(env, "SYNC_INTERVAL_MINUTES", "60")).None?
    ensures FromEnv(env) == Err(NotAnInteger("SYNC_INTERVAL_MINUTES", Get(env, "SYNC_INTERVAL_MINUTES", "60")))
  {
  }
}
