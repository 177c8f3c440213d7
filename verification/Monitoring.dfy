/** The PodMonitor the operator wants, its hand-written drift check and its updater. */
module Monitoring {
  import opened Objects
  import opened Drift

  const NAME_LABEL := "rpc.runelabs.xyz/name"
  const NETWORK_LABEL := "runelabs.xyz/network"
  const TYPE_LABEL := "rpc.runelabs.xyz/type"

  function GetPodMonitorSpec(n: Name): MonitorSpec {
    MonitorSpec(
      [Endpoint(Some("monitoring"), "/metrics")],
      map[NAME_LABEL := n.name],
      [],
      [n.namespace],
      [NETWORK_LABEL, NAME_LABEL])
  }

  function DefaultLabels(n: Name, spec: Spec): map<string, string> {
    map[TYPE_LABEL := "starknet",
        NAME_LABEL := n.name,
        NETWORK_LABEL := spec.network,
        "app.kubernetes.io/name" := "starknet-rpc",
        "app.kubernetes.io/instance" := n.name,
        "app.kubernetes.io/managed-by" := "starknet-operator"]
  }

  function CustomLabels(spec: Spec): map<string, string> {
    if spec.podMonitor.Some? then spec.podMonitor.value.labels else map[]
  }

  function GetPodMonitorLabels(n: Name, spec: Spec): map<string, string> {
    DefaultLabels(n, spec) + CustomLabels(spec)
  }

  function GetWantedPodMonitor(n: Name, spec: Spec): PodMonitor {
    PodMonitor(GetPodMonitorLabels(n, spec), GetPodMonitorSpec(n))
  }

  // ---- What a monitor must have been written with ----

  /** The custom label of the resource, or else the standard one. */
  function Label(spec: Spec, k: string, standard: string): string {
    if spec.podMonitor.Some? && k in spec.podMonitor.value.labels then spec.podMonitor.value.labels[k] else standard
  }

  predicate Labelled(labels: map<string, string>, spec: Spec, k: string, standard: string) {
    k in labels && labels[k] == Label(spec, k, standard)
  }

  predicate WrittenLabels(labels: map<string, string>, n: Name, spec: Spec) {
    && Labelled(labels, spec, "rpc.runelabs.xyz/type", "starknet")
    && Labelled(labels, spec, "rpc.runelabs.xyz/name", n.name)
    && Labelled(labels, spec, "runelabs.xyz/network", spec.network)
    && Labelled(labels, spec, "app.kubernetes.io/name", "starknet-rpc")
    && Labelled(labels, spec, "app.kubernetes.io/instance", n.name)
    && Labelled(labels, spec, "app.kubernetes.io/managed-by", "starknet-operator")
    && (spec.podMonitor.Some? ==> forall k :: k in spec.podMonitor.value.labels ==> Labelled(labels, spec, k, ""))
  }

  /** It scrapes the metrics of the pods of the resource, in its own namespace. */
  predicate WrittenMonitor(m: PodMonitor, n: Name, spec: Spec) {
    && WrittenLabels(m.labels, n, spec)
    && m.spec.endpoints == [Endpoint(Some("monitoring"), "/metrics")]
    && m.spec.matchLabels == map["rpc.runelabs.xyz/name" := n.name]
    && m.spec.matchExpressions == []
    && m.spec.namespaces == [n.namespace]
    && m.spec.targetLabels == ["runelabs.xyz/network", "rpc.runelabs.xyz/name"]
  }

  lemma WantedMonitorIsWritten(n: Name, spec: Spec)
    ensures WrittenMonitor(GetWantedPodMonitor(n, spec), n, spec)
  {
  }

  lemma RefreshWrites(m: PodMonitor, n: Name, spec: Spec)
    ensures WrittenMonitor(Refresh(m, n, spec), n, spec)
  {
  }

  /** Reading a Go map: a missing key reads as the empty string. */
  function Read(m: map<string, string>, k: string): string {
    if k in m then m[k] else ""
  }

  predicate Covers(current: map<string, string>, expected: map<string, string>) {
    forall k :: k in expected ==> Read(current, k) == expected[k]
  }

  /** What the check answers. */
  function Inspect(m: PodMonitor, n: Name, spec: Spec): Verdict {
    var expected := GetPodMonitorSpec(n);
    if !Covers(m.labels, GetPodMonitorLabels(n, spec)) then Drifted
    else if |m.spec.endpoints| != |expected.endpoints| then Drifted
    else if m.spec.endpoints[0].port.None? then Panics
    else if m.spec.endpoints[0] != expected.endpoints[0] then Drifted
    else if |m.spec.matchLabels| != |expected.matchLabels| then Drifted
    else if !Covers(m.spec.matchLabels, expected.matchLabels) then Drifted
    else if |m.spec.matchExpressions| != |expected.matchExpressions| then Drifted
    else UpToDate
  }

  function Refresh(m: PodMonitor, n: Name, spec: Spec): PodMonitor {
    PodMonitor(m.labels + GetPodMonitorLabels(n, spec), GetPodMonitorSpec(n))
  }

  function PodMonitorSpecReconciler(n: Name, spec: Spec): ObjectReconciler {
    ObjectReconciler(
      "PodMonitorSpecReconciler",
      (o: Object) => if o.MonitorObject? then Inspect(o.monitor, n, spec) else UpToDate,
      (o: Object) => if o.MonitorObject? then Some(MonitorObject(Refresh(o.monitor, n, spec))) else Some(o))
  }

  lemma WantedMonitorIsRight(n: Name, spec: Spec)
    ensures Inspect(GetWantedPodMonitor(n, spec), n, spec).UpToDate?
  {
  }

  // ---- The loops of the check ----

  /** A range over a Go map visits the keys in an unspecified order and stops at the first mismatch. */
  method MatchLabels(current: map<string, string>, expected: map<string, string>) returns (ok: bool)
    ensures ok <==> Covers(current, expected)
  {
    var left := expected.Keys;
    while left != {}
      invariant left <= expected.Keys
      invariant forall k :: k in expected && k !in left ==> Read(current, k) == expected[k]
      decreases left
    {
      var k :| k in left;
      if Read(current, k) != expected[k] {
        return false;
      }
      left := left - {k};
    }
    return true;
  }

  method IsUpToDate(m: PodMonitor, n: Name, spec: Spec) returns (v: Verdict)
    ensures v == Inspect(m, n, spec)
  {
    var expected := GetPodMonitorSpec(n);
    var labelled := MatchLabels(m.labels, GetPodMonitorLabels(n, spec));
    if !labelled {
      return Drifted;
    }
    if |m.spec.endpoints| != |expected.endpoints| {
      return Drifted;
    }
    if |m.spec.endpoints| > 0 && |expected.endpoints| > 0 {
      var current, want := m.spec.endpoints[0], expected.endpoints[0];
      if current.port.None? {
        return Panics;
      }
      if current.port.value != want.port.value || current.path != want.path {
        return Drifted;
      }
    }
    if |m.spec.matchLabels| != |expected.matchLabels| {
      return Drifted;
    }
    var selected := MatchLabels(m.spec.matchLabels, expected.matchLabels);
    if !selected {
      return Drifted;
    }
    if |m.spec.matchExpressions| != |expected.matchExpressions| {
      return Drifted;
    }
    return UpToDate;
  }

  // ---- Checker and updater agree ----

  lemma SingletonMap(m: map<string, string>, k: string)
    requires |m| == 1 && k in m
    ensures m == map[k := m[k]]
  {
    assert m.Keys == {k} by {
      assert |m.Keys - {k}| == 0;
    }
  }

  lemma RefreshSettles(m: PodMonitor, n: Name, spec: Spec)
    ensures Inspect(Refresh(m, n, spec), n, spec) == UpToDate
    ensures Refresh(Refresh(m, n, spec), n, spec) == Refresh(m, n, spec)
  {
    var labels := GetPodMonitorLabels(n, spec);
    assert m.labels + labels + labels == m.labels + labels;
    assert Covers(m.labels + labels, labels);
  }

  /** The labels after an update, key by key: the custom label, else the default one, else the one already there. */
  lemma RefreshMergesLabels(m: PodMonitor, n: Name, spec: Spec, k: string)
    ensures var labels := Refresh(m, n, spec).labels;
            && (k in CustomLabels(spec) ==> k in labels && labels[k] == CustomLabels(spec)[k])
            && (k !in CustomLabels(spec) && k in DefaultLabels(n, spec) ==>
                  k in labels && labels[k] == DefaultLabels(n, spec)[k])
            && (k !in CustomLabels(spec) && k !in DefaultLabels(n, spec) ==>
                  (k in labels <==> k in m.labels) && (k in labels ==> labels[k] == m.labels[k]))
  {
  }

  /** The label is there with this value, or it is absent and the value is the empty one. */
  predicate Carries(labels: map<string, string>, k: string, value: string) {
    (k in labels && labels[k] == value) || (k !in labels && value == "")
  }

  lemma CoversMeans(current: map<string, string>, expected: map<string, string>)
    ensures Covers(current, expected) <==> forall k :: k in expected ==> Carries(current, k, expected[k])
  {
  }

  /** The labels are there, each with its value or absent and wanted empty. */
  predicate CarriesLabels(labels: map<string, string>, n: Name, spec: Spec) {
    && Carries(labels, "rpc.runelabs.xyz/type", Label(spec, "rpc.runelabs.xyz/type", "starknet"))
    && Carries(labels, "rpc.runelabs.xyz/name", Label(spec, "rpc.runelabs.xyz/name", n.name))
    && Carries(labels, "runelabs.xyz/network", Label(spec, "runelabs.xyz/network", spec.network))
    && Carries(labels, "app.kubernetes.io/name", Label(spec, "app.kubernetes.io/name", "starknet-rpc"))
    && Carries(labels, "app.kubernetes.io/instance", Label(spec, "app.kubernetes.io/instance", n.name))
    && Carries(labels, "app.kubernetes.io/managed-by", Label(spec, "app.kubernetes.io/managed-by", "starknet-operator"))
    && (spec.podMonitor.Some? ==>
          forall k :: k in spec.podMonitor.value.labels ==> Carries(labels, k, spec.podMonitor.value.labels[k]))
  }

  lemma LabelsAreWanted(n: Name, spec: Spec)
    ensures WrittenLabels(GetPodMonitorLabels(n, spec), n, spec)
    ensures forall k :: k in GetPodMonitorLabels(n, spec) ==>
                          || k == "rpc.runelabs.xyz/type" || k == "rpc.runelabs.xyz/name" || k == "runelabs.xyz/network"
                          || k == "app.kubernetes.io/name" || k == "app.kubernetes.io/instance"
                          || k == "app.kubernetes.io/managed-by"
                          || (spec.podMonitor.Some? && k in spec.podMonitor.value.labels)
  {
  }

  lemma CarryingMeans(labels: map<string, string>, n: Name, spec: Spec)
    ensures CarriesLabels(labels, n, spec) <==>
            forall k :: k in GetPodMonitorLabels(n, spec) ==> Carries(labels, k, GetPodMonitorLabels(n, spec)[k])
  {
    LabelsAreWanted(n, spec);
    hide GetPodMonitorLabels, Carries;
  }

  /** What a passed check means. A label that is wanted empty may be absent, and under an empty resource name the weak
      comparison of the selector accepts any one-entry selector without the name label as well. */
  predicate LooksRight(m: PodMonitor, n: Name, spec: Spec) {
    && CarriesLabels(m.labels, n, spec)
    && m.spec.endpoints == [Endpoint(Some("monitoring"), "/metrics")]
    && m.spec.matchExpressions == []
    && (|| m.spec.matchLabels == map["rpc.runelabs.xyz/name" := n.name]
        || (n.name == "" && |m.spec.matchLabels| == 1 && "rpc.runelabs.xyz/name" !in m.spec.matchLabels))
  }

  /** The labels match, and the one endpoint has no port name. */
  predicate HitsNilPort(m: PodMonitor, n: Name, spec: Spec) {
    CarriesLabels(m.labels, n, spec) && |m.spec.endpoints| == 1 && m.spec.endpoints[0].port == None
  }

  lemma UpToDateMeans(m: PodMonitor, n: Name, spec: Spec)
    ensures Inspect(m, n, spec) == UpToDate <==> LooksRight(m, n, spec)
  {
    CarryingMeans(m.labels, n, spec);
    hide GetPodMonitorLabels, Carries, CarriesLabels;
    CoversMeans(m.labels, GetPodMonitorLabels(n, spec));
    var selector := m.spec.matchLabels;
    assert |map[NAME_LABEL := n.name]| == 1;
    assert Covers(selector, GetPodMonitorSpec(n).matchLabels) <==> Read(selector, NAME_LABEL) == n.name;
    if |selector| == 1 && NAME_LABEL in selector {
      SingletonMap(selector, NAME_LABEL);
    }
  }

  /** The nil dereference is reached exactly on a monitor whose labels match and whose one endpoint has no port name. */
  lemma PanicsExactly(m: PodMonitor, n: Name, spec: Spec)
    ensures Inspect(m, n, spec) == Panics <==> HitsNilPort(m, n, spec)
  {
    CarryingMeans(m.labels, n, spec);
    CoversMeans(m.labels, GetPodMonitorLabels(n, spec));
    hide GetPodMonitorLabels, Carries, CarriesLabels;
  }

  /** The check never looks at two of the fields the updater writes, so drift in them goes unrepaired. */
  lemma BlindSpots(m: PodMonitor, n: Name, spec: Spec, namespaces: seq<string>, targetLabels: seq<string>)
    ensures Inspect(m.(spec := m.spec.(namespaces := namespaces, targetLabels := targetLabels)), n, spec) ==
            Inspect(m, n, spec)
  {
  }
}
