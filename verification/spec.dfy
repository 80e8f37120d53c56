/**
 Container update options (spec.go): `WithCurrentSpec` regenerates the
 execution spec from the configuration, `WithScope` records the scope label.
 Both act on the container record the runtime hands to an option.
 */
module Spec {
  import opened Runtime
  import ProxyConfig
  import Paths

  /** The parts of a generated OCI spec the proxy touches; `rest` stands for
      everything else the generator produced. */
  datatype OciSpec = OciSpec(processArgs: seq<string>, devices: Option<seq<string>>, rest: string)

  /** `containers.Container` as an update option sees it; a nil label map
      is `None`. */
  datatype ContainerRecord = ContainerRecord(
    id: string,
    labels: Option<map<string, string>>,
    image: string,
    spec: Option<OciSpec>)

  /** The record after an option ran, and the error the option returned. */
  datatype Applied = Applied(container: ContainerRecord, err: Option<Error>)

  /** The labels of a record; a nil map reads as empty. */
  function Labels(c: ContainerRecord): map<string, string> {
    if c.labels.Some? then c.labels.value else map[]
  }

  /** `WithScope(scope)`: set the scope label, allocating the label map if it
      is nil. Every other label and field is kept, and no error is returned. */
  function WithScope(scope: string, c: ContainerRecord): (r: Applied)
    ensures r.err.None?
    ensures r.container.labels.Some?
    ensures ProxyConfig.ScopeLabel in Labels(r.container) && Labels(r.container)[ProxyConfig.ScopeLabel] == scope
    ensures forall k | k != ProxyConfig.ScopeLabel :: k in Labels(r.container) <==> k in Labels(c)
    ensures forall k | k in Labels(c) && k != ProxyConfig.ScopeLabel :: Labels(r.container)[k] == Labels(c)[k]
    ensures r.container.(labels := c.labels) == c
  {
    var labels := if c.labels.None? then map[] else c.labels.value;
    Applied(c.(labels := Some(labels[ProxyConfig.ScopeLabel := scope])), None)
  }

  /** A nil label map becomes a map holding only the scope label. */
  lemma WithScopeOnNilLabels(scope: string, c: ContainerRecord)
    requires c.labels.None?
    ensures WithScope(scope, c).container.labels == Some(map[ProxyConfig.ScopeLabel := scope])
  {
  }

  /** Applying the same scope twice is applying it once. */
  lemma WithScopeIdempotent(scope: string, c: ContainerRecord)
    ensures WithScope(scope, WithScope(scope, c).container) == WithScope(scope, c)
  {
    var once := Labels(c)[ProxyConfig.ScopeLabel := scope];
    assert once[ProxyConfig.ScopeLabel := scope] == once;
  }

  /** A later scope replaces an earlier one. */
  lemma WithScopeLastWins(a: string, b: string, c: ContainerRecord)
    ensures WithScope(b, WithScope(a, c).container) == WithScope(b, c)
  {
    var labels := Labels(c);
    assert labels[ProxyConfig.ScopeLabel := a][ProxyConfig.ScopeLabel := b] == labels[ProxyConfig.ScopeLabel := b];
  }

  /** `WithCurrentSpec(config)`: generate a spec whose process arguments are
      the binary's base name, the configured arguments and the forwarded
      command line; clear its device list and store it in the record.
      `generated` is the generator's reply and `marshal` the reply of
      encoding the spec. A generator failure leaves the record untouched; an
      encoding failure leaves it without a spec. */
  function WithCurrentSpec(config: ProxyConfig.Config, argv: seq<string>, generated: Result<OciSpec>,
                           marshal: Option<Error>, c: ContainerRecord): (r: Applied)
    requires |argv| > 0
    ensures generated.Err? ==> r == Applied(c, Some(generated.error))
    ensures generated.Ok? ==> r.err == marshal
    ensures generated.Ok? && marshal.None? ==>
      && r.container.spec.Some?
      && r.container.spec.value.processArgs == [Paths.Base(argv[0])] + config.args + argv[1..]
      && r.container.spec.value.devices.None?
      && r.container.spec.value.rest == generated.value.rest
    ensures generated.Ok? && marshal.Some? ==> r.container.spec.None?
    ensures r.container.(spec := c.spec) == c
  {
    var args := [Paths.Base(argv[0])] + config.args;
    var args := args + argv[1..];
    match generated
    case Err(e) => Applied(c, Some(e))
    case Ok(s) =>
      var s := s.(processArgs := args, devices := None);
      if marshal.Some? then Applied(c.(spec := None), marshal)
      else Applied(c.(spec := Some(s)), None)
  }

  /** The spec's process arguments are exactly `Config.GetArgs`. */
  lemma CurrentSpecUsesGetArgs(config: ProxyConfig.Config, argv: seq<string>, generated: Result<OciSpec>, c: ContainerRecord)
    requires |argv| > 0
    requires generated.Ok?
    ensures WithCurrentSpec(config, argv, generated, None, c).container.spec.value.processArgs
         == ProxyConfig.GetArgs(config, argv)
  {
  }
}
