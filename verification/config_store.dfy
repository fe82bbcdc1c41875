/** The configuration store (`config/store.py`): JSON documents kept in files
    under the user's configuration directory, read whole, changed in memory and
    written back whole.

    The file system is a map from file to document; a file that is not in the
    map does not exist. Every operation is a read-modify-write of one document.
    Where the code indexes into a value of the wrong JSON type (a hand-edited
    file), Python raises and nothing is written; the model returns
    `Failure(WrongType(key))` and leaves the files unchanged. */
module ConfigStore {
  import opened Common

  datatype Json =
    | JNull
    | JBool(b: bool)
    | JNum(n: int)
    | JStr(s: string)
    | JArr(items: seq<Json>)
    | JObj(fields: map<string, Json>)

  /** A top-level JSON object, as `_read_json` returns it. */
  type Doc = map<string, Json>

  /** `config.json` and `post-history.json`. */
  datatype File = ConfigFile | PostHistoryFile

  /** The value under `key` has a type the code cannot index or append to. */
  datatype StoreError = WrongType(key: string)

  const DefaultPlatformName := "bluesky"

  // ---------------------------------------------------------------------------
  // The documents: what each getter reads and each setter writes
  // ---------------------------------------------------------------------------

  /** `d.get(key, fallback)`. */
  function Get(d: Doc, key: string, fallback: Json): Json
  {
    if key in d then d[key] else fallback
  }

  /** `config.get("platforms", {}).get(platform)`. */
  function PlatformCredentials(config: Doc, platform: string): Result<Option<Json>, StoreError>
  {
    match Get(config, "platforms", JObj(map[]))
    case JObj(m) => Success(if platform in m then Some(m[platform]) else None)
    case _ => Failure(WrongType("platforms"))
  }

  /** The configuration after `save_platform_credentials`: a missing
      "platforms" object is created first, then the platform's entry is set. */
  function WithCredentials(config: Doc, platform: string, credentials: Json): Result<Doc, StoreError>
  {
    if "platforms" !in config then
      Success(config["platforms" := JObj(map[platform := credentials])])
    else
      match config["platforms"]
      case JObj(m) => Success(config["platforms" := JObj(m[platform := credentials])])
      case _ => Failure(WrongType("platforms"))
  }

  /** `config.get("defaults", {}).get("platform", "bluesky")`. */
  function DefaultPlatform(config: Doc): Result<Json, StoreError>
  {
    match Get(config, "defaults", JObj(map[]))
    case JObj(m) => Success(if "platform" in m then m["platform"] else JStr(DefaultPlatformName))
    case _ => Failure(WrongType("defaults"))
  }

  /** The configuration after `set_default_platform`. */
  function WithDefaultPlatform(config: Doc, platform: string): Result<Doc, StoreError>
  {
    if "defaults" !in config then
      Success(config["defaults" := JObj(map["platform" := JStr(platform)])])
    else
      match config["defaults"]
      case JObj(m) => Success(config["defaults" := JObj(m["platform" := JStr(platform)])])
      case _ => Failure(WrongType("defaults"))
  }

  /** `data.get("posts", [])`. */
  function PostHistory(data: Doc): Json
  {
    Get(data, "posts", JArr([]))
  }

  /** The history document after `add_post_to_history`. */
  function WithPost(data: Doc, post: Json): Result<Doc, StoreError>
  {
    if "posts" !in data then Success(data["posts" := JArr([post])])
    else
      match data["posts"]
      case JArr(items) => Success(data["posts" := JArr(items + [post])])
      case _ => Failure(WrongType("posts"))
  }

  // ---------------------------------------------------------------------------
  // Properties of the documents
  // ---------------------------------------------------------------------------

  /** Without a "platforms" object every platform reads as absent, and an
      absent platform reads as absent. */
  lemma CredentialsAbsent(config: Doc, platform: string)
    ensures "platforms" !in config ==> PlatformCredentials(config, platform) == Success(None)
    ensures "platforms" in config && config["platforms"].JObj? && platform !in config["platforms"].fields
            ==> PlatformCredentials(config, platform) == Success(None)
  {
  }

  /** Concrete documents: an empty "platforms" object, a stored platform, and
      a "platforms" entry that is not an object. */
  lemma CredentialsExamples(c: Json)
    ensures PlatformCredentials(map["platforms" := JObj(map[])], "bluesky") == Success(None)
    ensures PlatformCredentials(map["platforms" := JObj(map["bluesky" := c])], "bluesky") == Success(Some(c))
    ensures PlatformCredentials(map["platforms" := JStr("x")], "bluesky") == Failure(WrongType("platforms"))
    ensures DefaultPlatform(map["defaults" := JObj(map[])]) == Success(JStr("bluesky"))
  {
  }

  /** Saving succeeds unless "platforms" holds something other than an object;
      afterwards the platform reads back as what was saved, every other
      platform reads as before, and every other top-level key is unchanged. */
  lemma CredentialsRoundTrip(config: Doc, platform: string, credentials: Json, other: string, key: string)
    ensures WithCredentials(config, platform, credentials).Failure?
            <==> "platforms" in config && !config["platforms"].JObj?
    ensures WithCredentials(config, platform, credentials).Success? ==>
      var updated := WithCredentials(config, platform, credentials).value;
      && PlatformCredentials(updated, platform) == Success(Some(credentials))
      && (other != platform ==> PlatformCredentials(updated, other) == PlatformCredentials(config, other))
      && (key != "platforms" ==> (key in updated <==> key in config))
      && (key != "platforms" && key in config ==> updated[key] == config[key])
      && "platforms" in updated
  {
  }

  /** The default platform is "bluesky" until one is set, and the stored value
      once one is; a "defaults" entry that is not an object cannot be read. */
  lemma DefaultIsBluesky(config: Doc)
    ensures "defaults" !in config || (config["defaults"].JObj? && "platform" !in config["defaults"].fields)
            ==> DefaultPlatform(config) == Success(JStr("bluesky"))
    ensures "defaults" in config && config["defaults"].JObj? && "platform" in config["defaults"].fields
            ==> DefaultPlatform(config) == Success(config["defaults"].fields["platform"])
    ensures DefaultPlatform(config).Failure? <==> "defaults" in config && !config["defaults"].JObj?
  {
  }

  /** Setting the default succeeds unless "defaults" holds something other
      than an object; afterwards it reads back as the platform set, and every
      other top-level key and every other entry of "defaults" is unchanged. */
  lemma DefaultPlatformRoundTrip(config: Doc, platform: string, key: string, field: string)
    ensures WithDefaultPlatform(config, platform).Failure?
            <==> "defaults" in config && !config["defaults"].JObj?
    ensures WithDefaultPlatform(config, platform).Success? ==>
      var updated := WithDefaultPlatform(config, platform).value;
      && DefaultPlatform(updated) == Success(JStr(platform))
      && (key != "defaults" ==> (key in updated <==> key in config))
      && (key != "defaults" && key in config ==> updated[key] == config[key])
      && ("defaults" in config && field != "platform" ==>
            (field in updated["defaults"].fields <==> field in config["defaults"].fields))
      && ("defaults" in config && field != "platform" && field in config["defaults"].fields ==>
            updated["defaults"].fields[field] == config["defaults"].fields[field])
  {
  }

  /** Appending a post adds exactly one entry at the end of the history and
      keeps the earlier entries in order; a history that is not a list cannot
      be appended to. Other top-level keys are unchanged. */
  lemma AppendKeepsHistory(data: Doc, post: Json, key: string)
    ensures WithPost(data, post).Failure? <==> "posts" in data && !data["posts"].JArr?
    ensures WithPost(data, post).Success? ==>
      var updated := WithPost(data, post).value;
      && PostHistory(data).JArr?
      && PostHistory(updated) == JArr(PostHistory(data).items + [post])
      && (key != "posts" ==> (key in updated <==> key in data))
      && (key != "posts" && key in data ==> updated[key] == data[key])
  {
  }

  // ---------------------------------------------------------------------------
  // The files
  // ---------------------------------------------------------------------------

  /** The configuration directory: the documents of the files that exist. */
  class Store {
    var files: map<File, Doc>

    constructor(initial: map<File, Doc>)
      ensures files == initial
    {
      files := initial;
    }

    /** `_read_json`: a missing file reads as the empty document. */
    function ReadJson(f: File): (d: Doc)
      reads this
      ensures f !in files ==> d == map[]
      ensures f in files ==> d == files[f]
    {
      if f in files then files[f] else map[]
    }

    /** `get_platform_credentials`. */
    function GetPlatformCredentials(platform: string): Result<Option<Json>, StoreError>
      reads this
    {
      PlatformCredentials(ReadJson(ConfigFile), platform)
    }

    /** `get_default_platform`. */
    function GetDefaultPlatform(): Result<Json, StoreError>
      reads this
    {
      DefaultPlatform(ReadJson(ConfigFile))
    }

    /** `get_post_history`. */
    function GetPostHistory(): Json
      reads this
    {
      PostHistory(ReadJson(PostHistoryFile))
    }

    /** `save_platform_credentials`: on success only the configuration file
        changes, and the platform reads back as saved. */
    method SavePlatformCredentials(platform: string, credentials: Json) returns (r: Result<(), StoreError>)
      modifies this
      ensures var result := WithCredentials(old(ReadJson(ConfigFile)), platform, credentials);
        && (result.Success? ==> files == old(files)[ConfigFile := result.value] && r == Success(()))
        && (result.Failure? ==> files == old(files) && r == Failure(result.error))
      ensures r.Success? ==> GetPlatformCredentials(platform) == Success(Some(credentials))
      ensures r.Success? ==> GetDefaultPlatform() == old(GetDefaultPlatform())
      ensures GetPostHistory() == old(GetPostHistory())
    {
      var config := ReadJson(ConfigFile);
      ghost var original := config;
      CredentialsRoundTrip(config, platform, credentials, platform, "defaults");
      if "platforms" !in config {
        config := config["platforms" := JObj(map[])];
      }
      match config["platforms"]
      case JObj(m) =>
        config := config["platforms" := JObj(m[platform := credentials])];
        assert config == WithCredentials(original, platform, credentials).value;
        files := files[ConfigFile := config];
        r := Success(());
      case _ =>
        r := Failure(WrongType("platforms"));
    }

    /** `set_default_platform`: on success only the configuration file changes,
        and the default reads back as the platform set. */
    method SetDefaultPlatform(platform: string) returns (r: Result<(), StoreError>)
      modifies this
      ensures var result := WithDefaultPlatform(old(ReadJson(ConfigFile)), platform);
        && (result.Success? ==> files == old(files)[ConfigFile := result.value] && r == Success(()))
        && (result.Failure? ==> files == old(files) && r == Failure(result.error))
      ensures r.Success? ==> GetDefaultPlatform() == Success(JStr(platform))
      ensures GetPostHistory() == old(GetPostHistory())
    {
      var config := ReadJson(ConfigFile);
      ghost var original := config;
      DefaultPlatformRoundTrip(config, platform, "platforms", "platform");
      if "defaults" !in config {
        config := config["defaults" := JObj(map[])];
      }
      match config["defaults"]
      case JObj(m) =>
        config := config["defaults" := JObj(m["platform" := JStr(platform)])];
        assert config == WithDefaultPlatform(original, platform).value;
        files := files[ConfigFile := config];
        r := Success(());
      case _ =>
        r := Failure(WrongType("defaults"));
    }

    /** `add_post_to_history`: on success only the history file changes, and
        the history gains exactly `post` at its end. */
    method AddPostToHistory(post: Json) returns (r: Result<(), StoreError>)
      modifies this
      ensures var result := WithPost(old(ReadJson(PostHistoryFile)), post);
        && (result.Success? ==> files == old(files)[PostHistoryFile := result.value] && r == Success(()))
        && (result.Failure? ==> files == old(files) && r == Failure(result.error))
      ensures r.Success? ==> GetPostHistory() == JArr(old(GetPostHistory()).items + [post])
      ensures GetDefaultPlatform() == old(GetDefaultPlatform())
    {
      var data := ReadJson(PostHistoryFile);
      ghost var original := data;
      AppendKeepsHistory(data, post, "posts");
      if "posts" !in data {
        data := data["posts" := JArr([])];
      }
      match data["posts"]
      case JArr(items) =>
        data := data["posts" := JArr(items + [post])];
        assert data == WithPost(original, post).value;
        files := files[PostHistoryFile := data];
        r := Success(());
      case _ =>
        r := Failure(WrongType("posts"));
    }
  }

  /** A missing history file reads as the empty history. */
  lemma MissingHistoryIsEmpty(store: Store)
    requires PostHistoryFile !in store.files
    ensures store.GetPostHistory() == JArr([])
  {
  }
}
