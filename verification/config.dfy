/**
 The proxy's per-container configuration (config.go): the upgrade policy,
 the process arguments, and how the configured image is found, imported
 or pulled.
 */
module ProxyConfig {
  import opened Runtime
  import Paths

  /** Container label holding the scope a container was deployed with. */
  const ScopeLabel: string := "com.crosbymichael/containerd-proxy.scope"
  /** Scope that matches every other scope. */
  const AnyScope: string := "*"

  /** `Config`; `id` is not read from the file but set from the binary name. */
  datatype Config = Config(
    id: string,
    namespace: string,
    image: string,
    imagePath: string,
    args: seq<string>,
    scope: string)

  /** The directory holding one `<id>.json` configuration per container. */
  const ConfigDir: string := "/etc/containerd-proxy"

  /** The file `loadConfig` reads for a container. */
  function ConfigPath(id: string): string {
    ConfigDir + [Paths.Separator] + id + ".json"
  }

  /** A container's configuration file is named after the container. */
  lemma ConfigFileNamedAfterId(id: string)
    requires Paths.Separator !in id
    ensures Paths.Base(ConfigPath(id)) == id + ".json"
    ensures ConfigPath(id)[..|ConfigDir| + 1] == ConfigDir + [Paths.Separator]
  {
    assert ConfigPath(id) == ConfigDir + [Paths.Separator] + (id + ".json");
    Paths.BaseOfJoin(ConfigDir, id + ".json");
  }

  /** `loadConfig(id)`: `open` is the reply of opening `ConfigPath(id)` and
      `decoded` the configuration the JSON decoder read from it. Either
      failure is the result; otherwise the decoded configuration with its
      id set to `id`, whatever the file held. */
  function LoadConfig(id: string, open: Option<Error>, decoded: Result<Config>): (r: Result<Config>)
    ensures r.Ok? <==> open.None? && decoded.Ok?
    ensures open.Some? ==> r == Err(open.value)
    ensures open.None? && decoded.Err? ==> r == Err(decoded.error)
    ensures r.Ok? ==> r.value.id == id && r.value.(id := decoded.value.id) == decoded.value
  {
    if open.Some? then Err(open.value)
    else match decoded
      case Err(e) => Err(e)
      case Ok(c) => Ok(c.(id := id))
  }

  /** `Config.ShouldUpgrade`: may this configuration replace the image of a
      container that runs `containerImage` under `containerScope`? The image
      test comes first; then an unscoped or wildcard container, a wildcard
      configuration, or equal scopes authorize the upgrade. */
  function ShouldUpgrade(c: Config, containerImage: string, containerScope: string): (r: bool)
    ensures c.image == containerImage ==> !r
    ensures c.image != containerImage && containerScope == "" ==> r
    ensures c.image != containerImage && containerScope == AnyScope ==> r
    ensures c.image != containerImage && c.scope == AnyScope ==> r
    ensures c.image != containerImage && containerScope == c.scope ==> r
    ensures && c.image != containerImage
            && containerScope != "" && containerScope != AnyScope
            && c.scope != AnyScope && containerScope != c.scope
            ==> !r
  {
    if c.image != containerImage then
      if containerScope == "" then true
      else if containerScope == AnyScope then true
      else if c.scope == AnyScope then true
      else if containerScope == c.scope then true
      else false
    else false
  }

  /** An upgrade is refused exactly when the image is unchanged or both
      scopes are named and differ; an unscoped configuration is a named
      scope here and does not authorize anything by itself. */
  lemma UpgradeDeniedIff(c: Config, containerImage: string, containerScope: string)
    ensures !ShouldUpgrade(c, containerImage, containerScope) <==>
      (|| c.image == containerImage
       || (containerScope !in {"", AnyScope} && c.scope != AnyScope && containerScope != c.scope))
  {
  }

  /** The six cases of the upgrade test table. */
  lemma UpgradeTable()
    ensures !ShouldUpgrade(Config("", "", "ee01", "", [], "ee"), "ce01", "ce")
    ensures ShouldUpgrade(Config("", "", "ee01", "", [], AnyScope), "ce01", "ce")
    ensures ShouldUpgrade(Config("", "", "ee02", "", [], AnyScope), "ee03", "ee")
    ensures !ShouldUpgrade(Config("", "", "ee02", "", [], AnyScope), "ee02", "ee")
    ensures !ShouldUpgrade(Config("", "", "ce01", "", [], "ce"), "ee02", "ee")
    ensures ShouldUpgrade(Config("", "", "ce01", "", [], "ce"), "ee02", AnyScope)
  {
  }

  /** `Config.GetArgs`: the base name of the binary, then the configured
      arguments, then the proxy's own command-line arguments, in order. */
  function GetArgs(c: Config, argv: seq<string>): (r: seq<string>)
    requires |argv| > 0
    ensures |r| == |c.args| + |argv|
    ensures r[0] == Paths.Base(argv[0])
    ensures r[1..1 + |c.args|] == c.args
    ensures r[1 + |c.args|..] == argv[1..]
  {
    [Paths.Base(argv[0])] + c.args + argv[1..]
  }

  /** The proxy's own arguments are forwarded last and in order: more
      command-line arguments only extend the process arguments. */
  lemma GetArgsForwardsAppended(c: Config, argv: seq<string>, more: seq<string>)
    requires |argv| > 0
    ensures GetArgs(c, argv + more) == GetArgs(c, argv) + more
  {
    assert (argv + more)[1..] == argv[1..] + more;
  }

  /** Replies of the runtime and the file system to the image calls:
      `client.GetImage`, `os.Open(ImagePath)`, `client.Import`,
      `image.Unpack` and `client.Pull`. */
  datatype ImageReplies = ImageReplies(
    local: Result<Image>,
    open: Option<Error>,
    imported: Result<seq<Image>>,
    unpack: Option<Error>,
    pulled: Result<Image>)

  const NoImageImported: Error := Other("no image imported")

  /** Every call of the trace is an image lookup, a bundle read, an import,
      an unpack or a pull. */
  predicate OnlyImageCalls(calls: seq<Call>) {
    Count(calls, NonImage) == 0
  }

  /** A trace of image calls creates, deletes, dials and kills nothing. */
  lemma {:induction false} ImageCallsTouchNoTask(calls: seq<Call>)
    requires OnlyImageCalls(calls)
    ensures NoNewTasks(calls) && NoDeletes(calls) && NoReconnects(calls)
    ensures Count(calls, ContainerCreation) == 0 && Kills(calls) == 0
    decreases |calls|
  {
    if |calls| > 0 {
      ImageCallsTouchNoTask(calls[..|calls| - 1]);
    }
  }

  /** The image a bundle yields, or its error: it must open and hold exactly
      one image, which is unpacked first when `unpackImported`. */
  function BundleChoice(replies: ImageReplies, unpackImported: bool): (r: Result<Image>)
    ensures r.Ok? <==>
      && replies.open.None? && replies.imported.Ok? && |replies.imported.value| == 1
      && (unpackImported ==> replies.unpack.None?)
    ensures r.Ok? ==> replies.imported == Ok([r.value])
    ensures replies.open.None? && replies.imported.Ok? && |replies.imported.value| != 1 ==> r == Err(NoImageImported)
    // open, import and unpack errors are returned unchanged
    ensures replies.open.Some? ==> r == Err(replies.open.value)
    ensures replies.open.None? && replies.imported.Err? ==> r == Err(replies.imported.error)
    ensures && replies.open.None? && replies.imported.Ok? && |replies.imported.value| == 1
            && unpackImported && replies.unpack.Some?
            ==> r == Err(replies.unpack.value)
  {
    if replies.open.Some? then Err(replies.open.value)
    else
      match replies.imported
      case Err(ie) => Err(ie)
      case Ok(images) =>
        if |images| != 1 then Err(NoImageImported)
        else if unpackImported && replies.unpack.Some? then Err(replies.unpack.value)
        else
          assert images == [images[0]];
          Ok(images[0])
  }

  /** The image the resolution settles on, or its error: the local image;
      else, with a bundle path, the one the bundle yields; else the pulled
      one. */
  function ImageChoice(c: Config, replies: ImageReplies, unpackImported: bool): (r: Result<Image>)
    // a local image wins, and a lookup failure other than "not found" is final
    ensures replies.local.Ok? || !IsNotFound(replies.local.error) ==> r == replies.local
    // the chosen image is one the runtime handed out
    ensures r.Ok? ==> r == replies.local || r == replies.pulled || replies.imported == Ok([r.value])
    // an image that is not found is pulled without a bundle path, and taken
    // from the bundle with one
    ensures replies.local.Err? && IsNotFound(replies.local.error) && c.imagePath == "" ==> r == replies.pulled
    ensures replies.local.Err? && IsNotFound(replies.local.error) && c.imagePath != "" ==>
      r == BundleChoice(replies, unpackImported)
  {
    match replies.local
    case Ok(image) => Ok(image)
    case Err(e) =>
      if !IsNotFound(e) then Err(e)
      else if c.imagePath == "" then replies.pulled
      else BundleChoice(replies, unpackImported)
  }

  /** Importing the bundle at `imagePath`: open it, import its images,
      insist on exactly one, and unpack it when asked to. */
  method ImportBundle(c: Config, replies: ImageReplies, unpackImported: bool) returns (r: Traced<Result<Image>>)
    ensures r.value == BundleChoice(replies, unpackImported)
    ensures |r.calls| > 0 && r.calls[0] == OpenBundle(c.imagePath)
    // an opened bundle has its images imported next
    ensures replies.open.None? ==> |r.calls| > 1 && r.calls[1] == ImportImages(c.image)
    // an imported image is unpacked, as the last call, before it is returned, when asked to
    ensures unpackImported && r.value.Ok? ==> r.calls[|r.calls| - 1] == UnpackImage(r.value.value)
    ensures !unpackImported ==> Count(r.calls, Unpack) == 0
    // nothing is pulled, and only the image store is called
    ensures Count(r.calls, Pull) == 0 && OnlyImageCalls(r.calls)
  {
    var open := [OpenBundle(c.imagePath)];
    CountSnoc([], OpenBundle(c.imagePath));
    assert [] + open == open;
    assert Count(open, Pull) == 0 && OnlyImageCalls(open);
    if replies.open.Some? {
      return Traced(Err(replies.open.value), open);
    }
    CountSnoc(open, ImportImages(c.image));
    var imported := open + [ImportImages(c.image)];
    assert Count(imported, Pull) == 0 && OnlyImageCalls(imported) && Count(imported, Unpack) == 0;
    if replies.imported.Err? {
      return Traced(Err(replies.imported.error), imported);
    }
    var images := replies.imported.value;
    if |images| != 1 {
      return Traced(Err(NoImageImported), imported);
    }
    if !unpackImported {
      return Traced(Ok(images[0]), imported);
    }
    CountSnoc(imported, UnpackImage(images[0]));
    var unpacked := imported + [UnpackImage(images[0])];
    assert Count(unpacked, Pull) == 0 && OnlyImageCalls(unpacked);
    if replies.unpack.Some? {
      return Traced(Err(replies.unpack.value), unpacked);
    }
    return Traced(Ok(images[0]), unpacked);
  }

  /** The image resolution shared by `Config.GetImage` and main.go's
      `create`: look the image up; else import the bundle at `imagePath`;
      else pull. `unpackImported` says whether an imported image is unpacked
      (GetImage does, create does not). */
  method ResolveImage(c: Config, replies: ImageReplies, unpackImported: bool) returns (r: Traced<Result<Image>>)
    ensures r.value == ImageChoice(c, replies, unpackImported)
    ensures |r.calls| > 0 && r.calls[0] == LookupImage(c.image)
    // a local image, or a lookup failure other than "not found", ends the resolution
    ensures replies.local.Ok? || !IsNotFound(replies.local.error) ==> r.calls == [LookupImage(c.image)]
    // without a bundle path the image is pulled, and nothing is imported
    ensures replies.local.Err? && IsNotFound(replies.local.error) && c.imagePath == "" ==>
      r.calls == [LookupImage(c.image), PullImage(c.image)]
    // with a bundle path it is opened next, and nothing is pulled
    ensures replies.local.Err? && IsNotFound(replies.local.error) && c.imagePath != "" ==>
      |r.calls| > 1 && r.calls[1] == OpenBundle(c.imagePath) && Count(r.calls, Pull) == 0
    // an imported image is unpacked, as the last call, before it is returned, when asked to
    ensures replies.local.Err? && c.imagePath != "" && unpackImported && r.value.Ok? ==>
      r.calls[|r.calls| - 1] == UnpackImage(r.value.value)
    ensures !unpackImported ==> Count(r.calls, Unpack) == 0
    // only the image store is called
    ensures OnlyImageCalls(r.calls)
  {
    var looked := [LookupImage(c.image)];
    if replies.local.Ok? || !IsNotFound(replies.local.error) {
      return Traced(replies.local, looked);
    }
    if c.imagePath == "" {
      return Traced(replies.pulled, looked + [PullImage(c.image)]);
    }
    var bundle := ImportBundle(c, replies, unpackImported);
    CountAppend(looked, bundle.calls);
    r := Traced(bundle.value, looked + bundle.calls);
    assert r.calls[|r.calls| - 1] == bundle.calls[|bundle.calls| - 1];
  }

  /** `Config.GetImage`: image resolution that unpacks an imported image. */
  method GetImage(c: Config, replies: ImageReplies) returns (r: Traced<Result<Image>>)
    ensures r.value == ImageChoice(c, replies, true)
    ensures replies.local.Ok? ==> r.value == replies.local && |r.calls| == 1
    ensures replies.local.Err? && IsNotFound(replies.local.error) && c.imagePath == "" ==> r.value == replies.pulled
    ensures replies.local.Err? && IsNotFound(replies.local.error) && c.imagePath != "" ==>
      r.value == BundleChoice(replies, true)
    ensures r.value.Ok? ==>
      || r.value == replies.local
      || r.value == replies.pulled
      || (replies.imported == Ok([r.value.value]) && |r.calls| > 0 && r.calls[|r.calls| - 1] == UnpackImage(r.value.value))
  {
    r := ResolveImage(c, replies, true);
  }

  /** Not unpacking an imported image changes the choice only by the unpack's
      own failure: without one, both resolutions pick the same image. */
  lemma UnpackOnlyAddsFailure(c: Config, replies: ImageReplies)
    ensures ImageChoice(c, replies, false) == ImageChoice(c, replies.(unpack := None), true)
    ensures ImageChoice(c, replies, true).Ok? ==> ImageChoice(c, replies, false) == ImageChoice(c, replies, true)
  {
  }
}
