/**
  Client configuration: the API key and base URL checked at construction,
  the request headers and endpoints, and the per-mode table that turns a
  model's display name into the id sent on the wire.
*/
module Config {
  import opened Wrappers
  import opened Text

  /** The four generation modes; each has its own model table and default. */
  datatype Mode = TextToVideo | ImageToVideo | FirstLastFrame | ImageRefs

  /** The three wire model ids, read from the environment with built-in defaults. */
  datatype ModelIds = ModelIds(pro: string, liteT2v: string, liteI2v: string)

  const ProName := "Bytedance-Seedance-1.0-pro"
  const LiteT2vName := "Bytedance-Seedance-1.0-Lite-t2v"
  const LiteI2vName := "Bytedance-Seedance-1.0-Lite-i2v"

  const DefaultIds := ModelIds("seedance-1-0-pro-250528", "seedance-1-0-lite-t2v-250428", "seedance-1-0-lite-i2v-250428")

  /** `os.getenv(name, default)`: a variable that is set wins, even when it is empty. */
  function ModelIdsFromEnv(pro: Option<string>, liteT2v: Option<string>, liteI2v: Option<string>): (ids: ModelIds)
    ensures pro.None? ==> ids.pro == DefaultIds.pro
    ensures liteT2v.None? ==> ids.liteT2v == DefaultIds.liteT2v
    ensures liteI2v.None? ==> ids.liteI2v == DefaultIds.liteI2v
    ensures pro.Some? ==> ids.pro == pro.value
    ensures liteT2v.Some? ==> ids.liteT2v == liteT2v.value
    ensures liteI2v.Some? ==> ids.liteI2v == liteI2v.value
  {
    ModelIds(
      if pro.Some? then pro.value else DefaultIds.pro,
      if liteT2v.Some? then liteT2v.value else DefaultIds.liteT2v,
      if liteI2v.Some? then liteI2v.value else DefaultIds.liteI2v)
  }

  /** A constructed client: fields set once and only read afterwards. */
  datatype Client = Client(apiKey: string, baseUrl: string, ids: ModelIds)

  /** The constructor: both the key and the base URL must be given and non-empty. */
  function NewClient(apiKey: Option<string>, baseUrl: Option<string>, ids: ModelIds): (r: Result<Client>)
    ensures r.Success? <==> Present(apiKey) && Present(baseUrl)
    ensures r.Success? ==> r.value == Client(apiKey.value, baseUrl.value, ids)
    ensures r.Failure? ==> StartsWith(r.error, "API key and base URL are required.")
  {
    if !Present(apiKey) || !Present(baseUrl) then
      var msg := "API key and base URL are required. Current: API_KEY="
        + (if Present(apiKey) then "PROVIDED" else "MISSING")
        + ", BASE_URL=" + (if Present(baseUrl) then baseUrl.value else "MISSING");
      assert msg[..|"API key and base URL are required."|] == "API key and base URL are required.";
      Failure(msg)
    else
      Success(Client(apiKey.value, baseUrl.value, ids))
  }

  /** Headers sent with every request. */
  function Headers(c: Client): seq<(string, string)>
  {
    [("Content-Type", "application/json"), ("Authorization", "Bearer " + c.apiKey)]
  }

  /** The task-creation endpoint. */
  function TasksUrl(c: Client): string
  {
    c.baseUrl + "/contents/generations/tasks"
  }

  /** The status endpoint of one task. */
  function TaskUrl(c: Client, taskId: string): string
  {
    TasksUrl(c) + "/" + taskId
  }

  /** The display-name table of one mode, in the source's order. */
  function ModelTable(ids: ModelIds, mode: Mode): seq<(string, string)>
  {
    match mode
    case TextToVideo => [(ProName, ids.pro), (LiteT2vName, ids.liteT2v)]
    case ImageToVideo => [(ProName, ids.pro), (LiteI2vName, ids.liteI2v)]
    case FirstLastFrame => [(LiteI2vName, ids.liteI2v)]
    case ImageRefs => [(LiteI2vName, ids.liteI2v)]
  }

  /** `table.get(name, default)`. */
  function TableGet(table: seq<(string, string)>, name: string, default: string): string
  {
    if table == [] then default
    else if table[0].0 == name then table[0].1
    else TableGet(table[1..], name, default)
  }

  /** The fallback id of each mode when the name is not in its table. */
  function DefaultModel(ids: ModelIds, mode: Mode): string
  {
    if mode == TextToVideo then ids.liteT2v else ids.liteI2v
  }

  /**
    The wire id for a display name. Only text-to-video and image-to-video
    know the pro model; the two frame modes always send the Lite i2v id.
  */
  function ResolveModel(ids: ModelIds, mode: Mode, name: string): (id: string)
    ensures mode == TextToVideo ==> id == (if name == ProName then ids.pro else ids.liteT2v)
    ensures mode == ImageToVideo ==> id == (if name == ProName then ids.pro else ids.liteI2v)
    ensures mode == FirstLastFrame || mode == ImageRefs ==> id == ids.liteI2v
  {
    var table := ModelTable(ids, mode);
    var d := DefaultModel(ids, mode);
    assert ProName != LiteT2vName && ProName != LiteI2vName;
    if |table| == 2 then
      assert TableGet(table[1..], name, d) == if name == table[1].0 then table[1].1 else d by {
        assert table[1..][0] == table[1] && table[1..][1..] == [];
      }
      TableGet(table, name, d)
    else
      assert TableGet(table[1..], name, d) == d by { assert table[1..] == []; }
      TableGet(table, name, d)
  }
}
