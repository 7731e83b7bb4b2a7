/** The patch builder of vault.go: one shared `vault-creds` volume, a mount of it in every
    existing container for each matched credential, and per credential one fetching sidecar
    and one init sidecar, emitted as JSON Patch operations. */
module Vault {
  import opened Types
  import opened JsonPatch

  /** The name of the shared volume the sidecars write credentials into. */
  const VaultCredsName := "vault-creds"

  /** Owner kinds whose Pods run to completion; their sidecar is told to exit after one fetch. */
  const JobLikeKinds: set<string> := {"Job", "Workflow"}

  /** The Pod being admitted; createPatch and addVault rewrite its container lists in place. */
  class Pod {
    var serviceAccountName: string
    var ownerKinds: seq<string>
    var volumes: seq<Volume>
    var containers: seq<Container>
    var initContainers: seq<Container>

    constructor (p: PodValue)
      ensures Value() == p
    {
      serviceAccountName := p.serviceAccountName;
      ownerKinds := p.ownerKinds;
      volumes := p.volumes;
      containers := p.containers;
      initContainers := p.initContainers;
    }

    function Value(): PodValue
      reads this
    {
      PodValue(serviceAccountName, ownerKinds, volumes, containers, initContainers)
    }
  }

  function VaultCredsVolume(): Volume {
    Volume(VaultCredsName, EmptyDir)
  }

  // ----- addVolume -----

  /** A single "add" of the shared volume: a fresh one-element array when the Pod has no
      volumes, an append with "/-" otherwise. */
  function AddVolume(volumes: seq<Volume>): (patch: seq<PatchOp>)
    ensures |patch| == 1 && patch[0].op == "add"
    ensures patch[0].path == (if volumes == [] then "/spec/volumes" else "/spec/volumes/-")
  {
    if |volumes| != 0 then [PatchOp("add", "/spec/volumes/-", SingleVolume(VaultCredsVolume()))]
    else [PatchOp("add", "/spec/volumes", VolumeList([VaultCredsVolume()]))]
  }

  /** Whether or not the Pod has volumes, the operation applies and leaves the Pod's volumes
      followed by the shared one. */
  lemma AddVolumeApplies(p: PodValue)
    ensures ApplyPatch(DocOf(p), AddVolume(p.volumes)) ==
            Ok(DocOf(p).(volumes := Some(p.volumes + [VaultCredsVolume()])))
  {
    ApplyPatchSingle(DocOf(p), AddVolume(p.volumes)[0]);
    if p.volumes == [] {
      assert p.volumes + [VaultCredsVolume()] == [VaultCredsVolume()];
    }
  }

  // ----- addVolumeMount / appendVolumeMountIfMissing -----

  /** The mount of the shared volume at a credential's output path. */
  function CredsMount(d: Database): VolumeMount {
    VolumeMount(VaultCredsName, d.outputPath, PlainMount)
  }

  function CredsMounts(databases: seq<Database>): set<VolumeMount> {
    set d | d in databases :: CredsMount(d)
  }

  /** `mounts` with `v` appended unless an equal mount is already there. */
  function AppendVolumeMountIfMissing(mounts: seq<VolumeMount>, v: VolumeMount): (r: seq<VolumeMount>)
    ensures mounts <= r && v in r
    ensures forall m :: m in r <==> m in mounts || m == v
    ensures v in mounts ==> r == mounts
    ensures |r| <= |mounts| + 1
  {
    if v in mounts then mounts else mounts + [v]
  }

  /** The mounts of one container after the mount of each credential has been added in turn. */
  function MountsFor(mounts: seq<VolumeMount>, databases: seq<Database>): (r: seq<VolumeMount>)
    ensures mounts <= r
    ensures forall m :: m in r <==> m in mounts || m in CredsMounts(databases)
    ensures forall i, j :: |mounts| <= i < j < |r| ==> r[i] != r[j]
    ensures forall i :: |mounts| <= i < |r| ==> r[i] !in mounts
    decreases |databases|
  {
    if databases == [] then mounts
    else
      var prefix := databases[..|databases| - 1];
      var last := databases[|databases| - 1];
      assert databases == prefix + [last];
      assert CredsMounts(databases) == CredsMounts(prefix) + {CredsMount(last)};
      AppendVolumeMountIfMissing(MountsFor(mounts, prefix), CredsMount(last))
  }

  /** Adding mounts that are all present already changes nothing. */
  lemma {:induction false} MountsForPresent(mounts: seq<VolumeMount>, databases: seq<Database>)
    requires CredsMounts(databases) <= set m | m in mounts
    ensures MountsFor(mounts, databases) == mounts
    decreases |databases|
  {
    if databases != [] {
      var prefix := databases[..|databases| - 1];
      assert CredsMounts(prefix) <= CredsMounts(databases);
      MountsForPresent(mounts, prefix);
      assert CredsMount(databases[|databases| - 1]) in CredsMounts(databases);
    }
  }

  /** Adding the same credentials' mounts twice is adding them once. */
  lemma MountsForIdempotent(mounts: seq<VolumeMount>, databases: seq<Database>)
    ensures MountsFor(MountsFor(mounts, databases), databases) == MountsFor(mounts, databases)
  {
    MountsForPresent(MountsFor(mounts, databases), databases);
  }

  function WithCredsMounts(c: Container, databases: seq<Database>): Container {
    c.(volumeMounts := MountsFor(c.volumeMounts, databases))
  }

  /** Every container, in order, with the credentials' mounts added. */
  function MountedContainers(containers: seq<Container>, databases: seq<Database>): (r: seq<Container>)
    ensures |r| == |containers|
  {
    seq(|containers|, i requires 0 <= i < |containers| => WithCredsMounts(containers[i], databases))
  }

  /** Mount injection keeps the containers and their order, touches only their mounts, keeps
      the existing mounts first, and leaves each credential's mount in every container. */
  lemma MountedContainersShape(containers: seq<Container>, databases: seq<Database>, i: int)
    requires 0 <= i < |containers|
    ensures MountedContainers(containers, databases)[i].(volumeMounts := containers[i].volumeMounts) == containers[i]
    ensures containers[i].volumeMounts <= MountedContainers(containers, databases)[i].volumeMounts
    ensures forall d :: d in databases ==> CredsMount(d) in MountedContainers(containers, databases)[i].volumeMounts
  {
    var r := MountedContainers(containers, databases);
    forall d | d in databases ensures CredsMount(d) in r[i].volumeMounts {
      assert CredsMount(d) in CredsMounts(databases);
    }
  }

  /** Injecting the mounts a second time changes nothing. */
  lemma MountedContainersIdempotent(containers: seq<Container>, databases: seq<Database>)
    ensures MountedContainers(MountedContainers(containers, databases), databases) ==
            MountedContainers(containers, databases)
  {
    var once := MountedContainers(containers, databases);
    forall i | 0 <= i < |containers|
      ensures MountedContainers(once, databases)[i] == once[i]
    {
      MountsForIdempotent(containers[i].volumeMounts, databases);
    }
  }

  /** Credentials sharing an output path give a container without mounts a single mount. */
  lemma SharedOutputPathMountedOnce(c: Container, first: Database, second: Database)
    requires c.volumeMounts == [] && first.outputPath == second.outputPath
    ensures WithCredsMounts(c, [first, second]).volumeMounts == [CredsMount(first)]
  {
    assert [first, second][..1] == [first];
    assert [first][..0] == [];
    assert MountsFor([], [first]) == [CredsMount(first)];
  }

  /** Credentials with different output paths give a container without mounts one mount
      each, in the credentials' order. */
  lemma DistinctOutputPathsMountedInOrder(c: Container, first: Database, second: Database)
    requires c.volumeMounts == [] && first.outputPath != second.outputPath
    ensures WithCredsMounts(c, [first, second]).volumeMounts == [CredsMount(first), CredsMount(second)]
  {
    assert [first, second][..1] == [first];
    assert [first][..0] == [];
    assert MountsFor([], [first]) == [CredsMount(first)];
  }

  /** Mounts are compared whole: a mount at the credential's output path that differs in
      name or options (read-only, say) does not stop the shared volume being mounted there too. */
  lemma DifferentMountAtSamePathKept(c: Container, d: Database, m: VolumeMount)
    requires c.volumeMounts == [m] && m.mountPath == d.outputPath && m != CredsMount(d)
    ensures WithCredsMounts(c, [d]).volumeMounts == [m, CredsMount(d)]
  {
    assert [d][..0] == [];
    assert MountsFor([m], [d]) == AppendVolumeMountIfMissing([m], CredsMount(d));
  }

  /** addVolumeMount: for each container, add each credential's mount unless present. */
  method AddVolumeMount(containers: seq<Container>, databases: seq<Database>) returns (modified: seq<Container>)
    ensures modified == MountedContainers(containers, databases)
  {
    modified := [];
    for i := 0 to |containers|
      invariant |modified| == i
      invariant forall k :: 0 <= k < i ==> modified[k] == WithCredsMounts(containers[k], databases)
    {
      var container := containers[i];
      for j := 0 to |databases|
        invariant container == containers[i].(volumeMounts := MountsFor(containers[i].volumeMounts, databases[..j]))
      {
        assert databases[..j + 1][..j] == databases[..j];
        var volumeMount := VolumeMount(VaultCredsName, databases[j].outputPath, PlainMount);
        container := container.(volumeMounts := AppendVolumeMountIfMissing(container.volumeMounts, volumeMount));
      }
      assert databases[..|databases|] == databases;
      modified := modified + [container];
    }
  }

  // ----- the sidecars of addVault -----

  /** Every underscore replaced by a hyphen. */
  function HyphenatedName(s: string): (r: string)
    ensures |r| == |s|
    ensures forall i :: 0 <= i < |s| ==> r[i] == (if s[i] == '_' then '-' else s[i])
  {
    if s == [] then [] else [if s[0] == '_' then '-' else s[0]] + HyphenatedName(s[1..])
  }

  /** The sidecar's container name: the database with hyphens for underscores, then the role
      as it is. */
  function SidecarName(d: Database): string {
    "vault-creds-" + HyphenatedName(d.database) + "-" + d.role
  }

  /** The role the sidecar logs in to the secret store with. */
  function AuthRole(d: Database, namespace: string, serviceAccount: string): string {
    d.database + "_" + namespace + "_" + serviceAccount
  }

  /** The file the sidecar writes the credentials to. */
  function OutputFilePath(d: Database): string {
    if d.outputFile == "" then "/creds/output/" + d.database + "-" + d.role
    else "/creds/output/" + d.outputFile
  }

  function SidecarArgs(d: Database, namespace: string, serviceAccount: string, cfg: Config): seq<string> {
    [ "--vault-addr=" + cfg.vaultAddr,
      "--gateway-addr=" + cfg.gatewayAddr,
      "--ca-cert=" + cfg.vaultCaPath,
      "--secret-path=" + cfg.secretPath(d.database, d.role),
      "--login-path=" + cfg.loginPath,
      "--auth-role=" + AuthRole(d, namespace, serviceAccount),
      "--template=/creds/template/" + d.database + "-" + d.role,
      "--out=" + OutputFilePath(d),
      "--completed-path=/creds/output/completed",
      "--renew-interval=1h",
      "--lease-duration=12h",
      "--json-log" ]
  }

  /** The two mounts every sidecar carries: the template volume and the shared volume. */
  function SidecarMounts(): seq<VolumeMount> {
    [VolumeMount("vault-template", "/creds/template", PlainMount), VolumeMount(VaultCredsName, "/creds/output", PlainMount)]
  }

  /** The sidecar before the job flag and the init variant are applied. */
  function BaseSidecar(d: Database, namespace: string, serviceAccount: string, cfg: Config): Container {
    Container(
      SidecarName(d),
      cfg.sidecarImage,
      "Always",
      SidecarArgs(d, namespace, serviceAccount, cfg),
      [EnvVar("POD_NAME", "metadata.name"), EnvVar("NAMESPACE", "metadata.namespace")],
      Resources(map["cpu" := "10m", "memory" := "20Mi"], map["cpu" := "30m", "memory" := "50Mi"]),
      SidecarMounts())
  }

  /** The Pod's first owner, if it has one, is a Job or a Workflow. */
  predicate IsJobLike(ownerKinds: seq<string>) {
    |ownerKinds| != 0 && ownerKinds[0] in JobLikeKinds
  }

  /** The sidecar that keeps the credentials fresh, told to exit after one fetch in a job. */
  function VaultSidecar(d: Database, namespace: string, serviceAccount: string,
                        ownerKinds: seq<string>, cfg: Config): (r: Container)
    ensures r.(args := SidecarArgs(d, namespace, serviceAccount, cfg)) == BaseSidecar(d, namespace, serviceAccount, cfg)
    ensures SidecarArgs(d, namespace, serviceAccount, cfg) <= r.args
    ensures |r.args| == |SidecarArgs(d, namespace, serviceAccount, cfg)| + (if IsJobLike(ownerKinds) then 1 else 0)
    ensures IsJobLike(ownerKinds) ==> r.args[|r.args| - 1] == "--job"
  {
    var c := BaseSidecar(d, namespace, serviceAccount, cfg);
    if IsJobLike(ownerKinds) then c.(args := c.args + ["--job"]) else c
  }

  /** The init sidecar that fetches the credentials once before the Pod's containers start. */
  function InitSidecar(d: Database, namespace: string, serviceAccount: string, cfg: Config): (r: Container)
    ensures r.(name := SidecarName(d), args := SidecarArgs(d, namespace, serviceAccount, cfg)) ==
            BaseSidecar(d, namespace, serviceAccount, cfg)
    ensures r.name == SidecarName(d) + "-init"
    ensures SidecarArgs(d, namespace, serviceAccount, cfg) <= r.args
    ensures r.args[|r.args| - 1] == "--init" && |r.args| == |SidecarArgs(d, namespace, serviceAccount, cfg)| + 1
  {
    var c := BaseSidecar(d, namespace, serviceAccount, cfg);
    c.(name := c.name + "-init", args := c.args + ["--init"])
  }

  /** No fixed sidecar argument is the job flag or the init flag. */
  lemma SidecarArgsHaveNoFlags(d: Database, namespace: string, serviceAccount: string, cfg: Config)
    ensures "--job" !in SidecarArgs(d, namespace, serviceAccount, cfg)
    ensures "--init" !in SidecarArgs(d, namespace, serviceAccount, cfg)
  {
    var args := SidecarArgs(d, namespace, serviceAccount, cfg);
    forall k | 0 <= k < |args| ensures args[k] != "--job" && args[k] != "--init" {
      assert |args[k]| > 3 && args[k][2] != 'i';
      assert args[k][2] == 'j' ==> args[k][3] == 's';
    }
  }

  /** The sidecar's name, arguments and mounts, and the job flag exactly for Job or Workflow
      owners; it never gets the init flag. */
  lemma VaultSidecarShape(d: Database, namespace: string, serviceAccount: string,
                          ownerKinds: seq<string>, cfg: Config)
    ensures VaultSidecar(d, namespace, serviceAccount, ownerKinds, cfg).name ==
            "vault-creds-" + HyphenatedName(d.database) + "-" + d.role
    ensures "--auth-role=" + d.database + "_" + namespace + "_" + serviceAccount
            in VaultSidecar(d, namespace, serviceAccount, ownerKinds, cfg).args
    ensures "--out=" + OutputFilePath(d) in VaultSidecar(d, namespace, serviceAccount, ownerKinds, cfg).args
    ensures VaultSidecar(d, namespace, serviceAccount, ownerKinds, cfg).volumeMounts == SidecarMounts()
    ensures ("--job" in VaultSidecar(d, namespace, serviceAccount, ownerKinds, cfg).args) <==>
            |ownerKinds| != 0 && (ownerKinds[0] == "Job" || ownerKinds[0] == "Workflow")
    ensures "--init" !in VaultSidecar(d, namespace, serviceAccount, ownerKinds, cfg).args
  {
    SidecarArgsHaveNoFlags(d, namespace, serviceAccount, cfg);
    var c := VaultSidecar(d, namespace, serviceAccount, ownerKinds, cfg);
    assert SidecarArgs(d, namespace, serviceAccount, cfg) <= c.args;
    assert SidecarArgs(d, namespace, serviceAccount, cfg)[5] in c.args;
    assert "--auth-role=" + AuthRole(d, namespace, serviceAccount) ==
           "--auth-role=" + d.database + "_" + namespace + "_" + serviceAccount;
    assert SidecarArgs(d, namespace, serviceAccount, cfg)[7] in c.args;
  }

  /** The init sidecar: the sidecar's name with "-init", the same arguments with "--init"
      last and never the job flag, the same mounts. */
  lemma InitSidecarShape(d: Database, namespace: string, serviceAccount: string, cfg: Config)
    ensures InitSidecar(d, namespace, serviceAccount, cfg).name ==
            "vault-creds-" + HyphenatedName(d.database) + "-" + d.role + "-init"
    ensures InitSidecar(d, namespace, serviceAccount, cfg).args ==
            BaseSidecar(d, namespace, serviceAccount, cfg).args + ["--init"]
    ensures "--job" !in InitSidecar(d, namespace, serviceAccount, cfg).args
    ensures InitSidecar(d, namespace, serviceAccount, cfg).volumeMounts == SidecarMounts()
  {
    SidecarArgsHaveNoFlags(d, namespace, serviceAccount, cfg);
  }

  /** The sidecar names for database "foo" and role "bar". */
  lemma FooBarSidecarNames(d: Database, namespace: string, serviceAccount: string,
                           ownerKinds: seq<string>, cfg: Config)
    requires d.database == "foo" && d.role == "bar"
    ensures VaultSidecar(d, namespace, serviceAccount, ownerKinds, cfg).name == "vault-creds-foo-bar"
    ensures InitSidecar(d, namespace, serviceAccount, cfg).name == "vault-creds-foo-bar-init"
    ensures "--init" in InitSidecar(d, namespace, serviceAccount, cfg).args
  {
    assert HyphenatedName("foo") == "foo";
    VaultSidecarShape(d, namespace, serviceAccount, ownerKinds, cfg);
    InitSidecarShape(d, namespace, serviceAccount, cfg);
    var init := InitSidecar(d, namespace, serviceAccount, cfg);
    assert init.args[|init.args| - 1] == "--init";
  }

  /** No sidecar name contains an underscore coming from the database name. */
  lemma HyphenatedNameHasNoUnderscore(s: string)
    ensures '_' !in HyphenatedName(s)
  {
    var r := HyphenatedName(s);
    forall i | 0 <= i < |r| ensures r[i] != '_' { }
  }

  /** One sidecar per credential, in the credentials' order. */
  function VaultSidecars(databases: seq<Database>, namespace: string, serviceAccount: string,
                         ownerKinds: seq<string>, cfg: Config): (r: seq<Container>)
    ensures |r| == |databases|
  {
    seq(|databases|, i requires 0 <= i < |databases| =>
      VaultSidecar(databases[i], namespace, serviceAccount, ownerKinds, cfg))
  }

  /** One init sidecar per credential, in the credentials' order. */
  function InitSidecars(databases: seq<Database>, namespace: string, serviceAccount: string,
                        cfg: Config): (r: seq<Container>)
    ensures |r| == |databases|
  {
    seq(|databases|, i requires 0 <= i < |databases| => InitSidecar(databases[i], namespace, serviceAccount, cfg))
  }

  /** The two operations of addVault: the containers followed by the sidecars replace the
      container list; the init sidecars followed by the existing init containers replace the
      init-container list when it exists and are added as a new one otherwise. */
  function VaultOps(p: PodValue, namespace: string, databases: seq<Database>, cfg: Config): (ops: seq<PatchOp>)
    ensures |ops| == 2
    ensures ops[0].op == "replace" && ops[0].path == "/spec/containers" && ops[0].value.ContainerList?
    ensures p.containers <= ops[0].value.containers
    ensures |ops[0].value.containers| == |p.containers| + |databases|
    ensures ops[1].op == (if p.initContainers != [] then "replace" else "add")
    ensures ops[1].path == "/spec/initContainers" && ops[1].value.ContainerList?
    ensures |ops[1].value.containers| == |databases| + |p.initContainers|
    ensures ops[1].value.containers[|databases|..] == p.initContainers
  {
    [ PatchOp("replace", "/spec/containers",
              ContainerList(p.containers + VaultSidecars(databases, namespace, p.serviceAccountName, p.ownerKinds, cfg))),
      PatchOp(if p.initContainers != [] then "replace" else "add", "/spec/initContainers",
              ContainerList(InitSidecars(databases, namespace, p.serviceAccountName, cfg) + p.initContainers)) ]
  }

  /** The sidecars of one more credential are those of the prefix followed by its own. */
  lemma SidecarsExtend(databases: seq<Database>, i: int, namespace: string, serviceAccount: string,
                       ownerKinds: seq<string>, cfg: Config)
    requires 0 <= i < |databases|
    ensures VaultSidecars(databases[..i + 1], namespace, serviceAccount, ownerKinds, cfg) ==
            VaultSidecars(databases[..i], namespace, serviceAccount, ownerKinds, cfg) +
            [VaultSidecar(databases[i], namespace, serviceAccount, ownerKinds, cfg)]
    ensures InitSidecars(databases[..i + 1], namespace, serviceAccount, cfg) ==
            InitSidecars(databases[..i], namespace, serviceAccount, cfg) +
            [InitSidecar(databases[i], namespace, serviceAccount, cfg)]
  {
    assert databases[..i + 1] == databases[..i] + [databases[i]];
  }

  /** addVault: per credential, append its sidecar to the Pod's containers and collect its
      init sidecar; then emit the two container-list operations. */
  method AddVault(pod: Pod, namespace: string, databases: seq<Database>, cfg: Config) returns (patch: seq<PatchOp>)
    modifies pod`containers
    ensures pod.containers ==
            old(pod.containers) + VaultSidecars(databases, namespace, pod.serviceAccountName, pod.ownerKinds, cfg)
    ensures patch == VaultOps(old(pod.Value()), namespace, databases, cfg)
  {
    ghost var before := pod.Value();
    var serviceAccount, ownerKinds := pod.serviceAccountName, pod.ownerKinds;
    var initContainers: seq<Container> := [];
    for i := 0 to |databases|
      invariant pod.containers ==
                old(pod.containers) + VaultSidecars(databases[..i], namespace, serviceAccount, ownerKinds, cfg)
      invariant initContainers == InitSidecars(databases[..i], namespace, serviceAccount, cfg)
    {
      var vaultContainer := BaseSidecar(databases[i], namespace, serviceAccount, cfg);
      var initContainer := vaultContainer;
      if |ownerKinds| != 0 {
        var ownerKind := ownerKinds[0];
        if ownerKind in JobLikeKinds {
          vaultContainer := vaultContainer.(args := vaultContainer.args + ["--job"]);
        }
      }
      assert vaultContainer == VaultSidecar(databases[i], namespace, serviceAccount, ownerKinds, cfg);
      ghost var sidecars := VaultSidecars(databases[..i], namespace, serviceAccount, ownerKinds, cfg);
      pod.containers := pod.containers + [vaultContainer];
      assert pod.containers == old(pod.containers) + (sidecars + [vaultContainer]);
      initContainer := initContainer.(args := initContainer.args + ["--init"]);
      initContainer := initContainer.(name := initContainer.name + "-init");
      assert initContainer == InitSidecar(databases[i], namespace, serviceAccount, cfg);
      initContainers := initContainers + [initContainer];
      SidecarsExtend(databases, i, namespace, serviceAccount, ownerKinds, cfg);
    }
    assert databases[..|databases|] == databases;
    var initOp: string;
    if |pod.initContainers| != 0 {
      initContainers := initContainers + pod.initContainers;
      initOp := "replace";
    } else {
      assert initContainers + pod.initContainers == initContainers;
      initOp := "add";
    }
    patch := [PatchOp("replace", "/spec/containers", ContainerList(pod.containers)),
              PatchOp(initOp, "/spec/initContainers", ContainerList(initContainers))];
    assert patch == VaultOps(before, namespace, databases, cfg) by {
      assert before.containers == old(pod.containers) && before.initContainers == pod.initContainers;
      assert before.serviceAccountName == serviceAccount && before.ownerKinds == ownerKinds;
      assert patch[0] == VaultOps(before, namespace, databases, cfg)[0];
      assert patch[1] == VaultOps(before, namespace, databases, cfg)[1];
    }
  }

  // ----- createPatch -----

  /** The Pod after mount injection into its containers and init containers. */
  function WithMountsInjected(p: PodValue, databases: seq<Database>): PodValue {
    p.(containers := MountedContainers(p.containers, databases),
       initContainers := MountedContainers(p.initContainers, databases))
  }

  /** The whole patch createPatch builds for a Pod. */
  function PatchFor(p: PodValue, namespace: string, databases: seq<Database>, cfg: Config): (ops: seq<PatchOp>)
    ensures |ops| == 3
    ensures ops[0] == AddVolume(p.volumes)[0]
    ensures ops[1].path == "/spec/containers" && ops[1].value.ContainerList?
    ensures |ops[1].value.containers| == |p.containers| + |databases|
    ensures ops[2].path == "/spec/initContainers" && ops[2].value.ContainerList?
    ensures |ops[2].value.containers| == |databases| + |p.initContainers|
    ensures ops[1].value.containers[..|p.containers|] == MountedContainers(p.containers, databases)
    ensures ops[1].value.containers[|p.containers|..] ==
            VaultSidecars(databases, namespace, p.serviceAccountName, p.ownerKinds, cfg)
    ensures ops[2].value.containers[..|databases|] == InitSidecars(databases, namespace, p.serviceAccountName, cfg)
    ensures ops[2].value.containers[|databases|..] == MountedContainers(p.initContainers, databases)
  {
    AddVolume(p.volumes) + VaultOps(WithMountsInjected(p, databases), namespace, databases, cfg)
  }

  /** createPatch: the volume operation, then mount injection into the Pod's containers (and
      init containers, if any), then the sidecar operations. */
  method CreatePatch(pod: Pod, namespace: string, databases: seq<Database>, cfg: Config) returns (patch: seq<PatchOp>)
    modifies pod`containers, pod`initContainers
    ensures patch == PatchFor(old(pod.Value()), namespace, databases, cfg)
    ensures pod.containers == MountedContainers(old(pod.containers), databases) +
                              VaultSidecars(databases, namespace, pod.serviceAccountName, pod.ownerKinds, cfg)
    ensures pod.initContainers == MountedContainers(old(pod.initContainers), databases)
  {
    patch := [];
    patch := patch + AddVolume(pod.volumes);
    pod.containers := AddVolumeMount(pod.containers, databases);
    if |pod.initContainers| != 0 {
      pod.initContainers := AddVolumeMount(pod.initContainers, databases);
    }
    var vaultPatch := AddVault(pod, namespace, databases, cfg);
    patch := patch + vaultPatch;
  }

  /** The Pod the patch is meant to produce: the shared volume after the existing ones, every
      container with its mounts followed by the sidecars, and the init sidecars ahead of the
      existing init containers (with their mounts). */
  function IntendedPod(p: PodValue, namespace: string, databases: seq<Database>, cfg: Config): PodDoc {
    PodDoc(
      Some(p.volumes + [VaultCredsVolume()]),
      Some(MountedContainers(p.containers, databases) +
           VaultSidecars(databases, namespace, p.serviceAccountName, p.ownerKinds, cfg)),
      Some(InitSidecars(databases, namespace, p.serviceAccountName, cfg) +
           MountedContainers(p.initContainers, databases)))
  }

  /** The patch applies to the Pod as the API server holds it and produces the intended Pod:
      "/-" is used only when the volume array exists, "replace" only on members that exist. */
  lemma PatchApplies(p: PodValue, namespace: string, databases: seq<Database>, cfg: Config)
    ensures ApplyPatch(DocOf(p), PatchFor(p, namespace, databases, cfg)) == Ok(IntendedPod(p, namespace, databases, cfg))
  {
    var q := WithMountsInjected(p, databases);
    AddVolumeApplies(p);
    var ops := VaultOps(q, namespace, databases, cfg);
    ApplyPatchConcat(DocOf(p), AddVolume(p.volumes), ops);
    var mid := DocOf(p).(volumes := Some(p.volumes + [VaultCredsVolume()]));
    assert ops == [ops[0]] + [ops[1]];
    ApplyPatchConcat(mid, [ops[0]], [ops[1]]);
    ApplyPatchSingle(mid, ops[0]);
    var mid2 := mid.(containers := Some(q.containers + VaultSidecars(databases, namespace, p.serviceAccountName, p.ownerKinds, cfg)));
    assert ApplyOp(mid, ops[0]) == Ok(mid2);
    ApplyPatchSingle(mid2, ops[1]);
    assert (q.initContainers != []) == (p.initContainers != []);
  }

  /** The patch has three operations on three different paths: an "add" of the volume, a
      "replace" of the containers, and an "add" or "replace" of the init containers that is a
      "replace" exactly when the Pod already has init containers. */
  lemma PatchShape(p: PodValue, namespace: string, databases: seq<Database>, cfg: Config)
    ensures |PatchFor(p, namespace, databases, cfg)| == 3
    ensures PatchFor(p, namespace, databases, cfg)[0].op == "add"
    ensures PatchFor(p, namespace, databases, cfg)[1].op == "replace" &&
            PatchFor(p, namespace, databases, cfg)[1].path == "/spec/containers"
    ensures PatchFor(p, namespace, databases, cfg)[2].path == "/spec/initContainers"
    ensures PatchFor(p, namespace, databases, cfg)[2].op == (if p.initContainers == [] then "add" else "replace")
    ensures forall i, j :: 0 <= i < j < 3 ==>
              PatchFor(p, namespace, databases, cfg)[i].path != PatchFor(p, namespace, databases, cfg)[j].path
  {
    var ops := PatchFor(p, namespace, databases, cfg);
    assert |MountedContainers(p.initContainers, databases)| == |p.initContainers|;
    assert ops[0].path[..13] == "/spec/volumes";
  }

  /** The patch for one credential and a Pod with no volumes, containers or init containers. */
  lemma OneCredentialEmptyPodPatch(d: Database, namespace: string, serviceAccount: string, cfg: Config)
    ensures var ops := PatchFor(PodValue(serviceAccount, [], [], [], []), namespace, [d], cfg);
            |ops| == 3 &&
            ops[0] == PatchOp("add", "/spec/volumes", VolumeList([VaultCredsVolume()])) &&
            ops[1] == PatchOp("replace", "/spec/containers",
                              ContainerList([VaultSidecar(d, namespace, serviceAccount, [], cfg)])) &&
            ops[2] == PatchOp("add", "/spec/initContainers",
                              ContainerList([InitSidecar(d, namespace, serviceAccount, cfg)]))
  {
    var pod := PodValue(serviceAccount, [], [], [], []);
    assert MountedContainers([], [d]) == [];
    assert WithMountsInjected(pod, [d]) == pod;
    assert VaultSidecars([d], namespace, serviceAccount, [], cfg) == [VaultSidecar(d, namespace, serviceAccount, [], cfg)];
    assert InitSidecars([d], namespace, serviceAccount, cfg) == [InitSidecar(d, namespace, serviceAccount, cfg)];
    var ops := PatchFor(pod, namespace, [d], cfg);
    var vaultOps := VaultOps(pod, namespace, [d], cfg);
    assert ops[1] == vaultOps[0] && ops[2] == vaultOps[1];
    assert [] + VaultSidecars([d], namespace, serviceAccount, [], cfg) == VaultSidecars([d], namespace, serviceAccount, [], cfg);
    assert InitSidecars([d], namespace, serviceAccount, cfg) + [] == InitSidecars([d], namespace, serviceAccount, cfg);
  }

  // ----- lifecycle hooks -----

  /** A preStop hook that is completely specified: an exec action with a non-empty command,
      or else a sleep action of a positive number of seconds. */
  predicate PreStopValid(lc: Lifecycle)
    ensures PreStopValid(lc) ==> lc.preStop.Some?
    ensures lc.preStop.Some? && lc.preStop.value.exec.None? && lc.preStop.value.sleep.None? ==> !PreStopValid(lc)
  {
    lc.preStop.Some? &&
    ((lc.preStop.value.exec.Some? && |lc.preStop.value.exec.value.command| > 0) ||
     (lc.preStop.value.sleep.Some? && lc.preStop.value.sleep.value.seconds > 0))
  }

  /** The five hooks the sidecar-lifecycle tests check. */
  lemma PreStopValidCases()
    ensures PreStopValid(Lifecycle(Some(LifecycleHandler(Some(ExecAction(["echo", "hello"])), None))))
    ensures !PreStopValid(Lifecycle(Some(LifecycleHandler(None, None))))
    ensures !PreStopValid(Lifecycle(None))
    ensures PreStopValid(Lifecycle(Some(LifecycleHandler(None, Some(SleepAction(10))))))
    ensures !PreStopValid(Lifecycle(Some(LifecycleHandler(None, Some(SleepAction(-10))))))
  {
  }
}
