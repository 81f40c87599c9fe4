// The strings whose hashes name a request: fields joined by NUL.
module Identity {
  import opened Records
  import opened Quantity
  import opened Selection
  import opened Text

  const NUL := "\0"

  // The first NUL ends the first field, so nothing else can spell the same text.
  lemma FirstFieldAgrees(a: string, restA: string, b: string, restB: string)
    requires NulFree(a) && NulFree(b) && a + NUL + restA == b + NUL + restB
    ensures a == b && restA == restB
  {
    var s, t := a + NUL + restA, b + NUL + restB;
    assert s[|a|] == '\0' && t[|b|] == '\0';
    assert forall i :: 0 <= i < |b| ==> t[i] == b[i] != '\0';
    assert forall i :: 0 <= i < |a| ==> s[i] == a[i] != '\0';
    assert s[..|a|] == a && t[..|b|] == b;
    assert s[|a| + 1..] == restA && t[|b| + 1..] == restB;
  }

  // Joining by NUL is injective in the fields, whatever the last one holds.
  lemma {:induction false} JoinIsInjective(a: seq<string>, b: seq<string>)
    requires |a| == |b| > 0 && Join(a, NUL) == Join(b, NUL)
    requires forall i :: 0 <= i < |a| - 1 ==> NulFree(a[i]) && NulFree(b[i])
    ensures a == b
    decreases |a|
  {
    if |a| == 1 {
      assert a == [a[0]] && b == [b[0]];
    } else {
      FirstFieldAgrees(a[0], Join(a[1..], NUL), b[0], Join(b[1..], NUL));
      JoinIsInjective(a[1..], b[1..]);
      assert a == [a[0]] + a[1..] && b == [b[0]] + b[1..];
    }
  }

  lemma {:induction false} JoinAppend(a: seq<string>, b: seq<string>)
    requires a != [] && b != []
    ensures Join(a + b, NUL) == Join(a, NUL) + NUL + Join(b, NUL)
    decreases |a|
  {
    if |a| == 1 {
      assert (a + b)[1..] == b;
    } else {
      assert (a + b)[1..] == a[1..] + b;
      JoinAppend(a[1..], b);
      assert a[0] + NUL + (Join(a[1..], NUL) + NUL + Join(b, NUL)) == (a[0] + NUL + Join(a[1..], NUL)) + NUL + Join(b, NUL);
    }
  }

  // Only the last field may hold a NUL: an earlier one that does can give it
  // up to its neighbour unnoticed.
  lemma EarlierFieldsMustBeNulFree(before: seq<string>, x: string, y: string, z: string, after: seq<string>)
    ensures
      var a, b := before + [x + NUL + y, z] + after, before + [x, y + NUL + z] + after;
      |a| == |b| && a[|before|] != b[|before|] && Join(a, NUL) == Join(b, NUL)
  {
    var u, v := [x + NUL + y, z], [x, y + NUL + z];
    assert u[1..] == [z] && v[1..] == [y + NUL + z];
    assert x + NUL + y + NUL + z == x + NUL + (y + NUL + z);
    assert Join(u, NUL) == Join(v, NUL);
    assert |x + NUL + y| > |x|;
    if after != [] {
      JoinAppend(u, after);
      JoinAppend(v, after);
    } else {
      assert u + after == u && v + after == v;
    }
    assert before + u + after == before + (u + after) && before + v + after == before + (v + after);
    if before != [] {
      JoinAppend(before, u + after);
      JoinAppend(before, v + after);
    } else {
      assert before + (u + after) == u + after && before + (v + after) == v + after;
    }
  }

  // ---- What is validated before a request is named -----------------------------

  datatype Sandbox = Sandbox(id: string, name: string, namespace: string, workspace: string, token: string)

  // The text checks of validateSandbox, the same in both drivers.
  predicate ValidSandbox(s: Sandbox) {
    && ValidText(s.id, true, 256) && ValidText(s.name, true, 246)
    && ValidText(s.namespace, false, 256) && ValidText(s.workspace, false, 256)
    && ValidText(s.token, false, 16 * 1024)
  }

  predicate ValidGateway(gatewayId: string) {
    gatewayId != "" && |gatewayId| <= 256 && !HasLineControl(gatewayId)
  }

  datatype KubeConfig = KubeConfig(
    gatewayId: string, defaultInstanceType: string, bootSource: string, bootSourceNamespace: string,
    defaultPreference: string, storageClass: string, diskSize: string)

  // The control-character check over the configured fields.
  predicate ValidKubeConfig(c: KubeConfig) {
    && ValidGateway(c.gatewayId) && c.defaultInstanceType != ""
    && !HasLineControl(c.defaultInstanceType) && !HasLineControl(c.bootSource) && !HasLineControl(c.bootSourceNamespace)
    && !HasLineControl(c.defaultPreference) && !HasLineControl(c.storageClass) && !HasLineControl(c.diskSize)
  }

  function ClientTokenPreimage(gatewayId: string, s: Sandbox): string {
    gatewayId + NUL + s.id + NUL + s.token
  }

  function ResourceKeyPreimage(gatewayId: string, s: Sandbox): string {
    gatewayId + NUL + s.id
  }

  function DigestFields(c: KubeConfig, s: Sandbox, instanceType: string, cloudInit: string): seq<string> {
    [c.gatewayId, s.id, s.name, s.namespace, s.workspace, instanceType, c.bootSource, c.bootSourceNamespace,
     c.defaultPreference, c.storageClass, c.diskSize, cloudInit]
  }

  function DigestPreimage(c: KubeConfig, s: Sandbox, instanceType: string, cloudInit: string): string {
    Join(DigestFields(c, s, instanceType, cloudInit), NUL)
  }

  lemma SandboxIsNulFree(s: Sandbox)
    requires ValidSandbox(s)
    ensures NulFree(s.id) && NulFree(s.name) && NulFree(s.namespace) && NulFree(s.workspace) && NulFree(s.token)
  {
    hide ValidText, NulFree;
    ValidTextIsNulFree(s.id, true, 256);
    ValidTextIsNulFree(s.name, true, 246);
    ValidTextIsNulFree(s.namespace, false, 256);
    ValidTextIsNulFree(s.workspace, false, 256);
    ValidTextIsNulFree(s.token, false, 16 * 1024);
  }

  // Two EC2 creates share a client token preimage exactly if they come from the
  // same gateway for the same sandbox with the same token.
  lemma ClientTokenIsInjective(g1: string, s1: Sandbox, g2: string, s2: Sandbox)
    requires ValidGateway(g1) && ValidGateway(g2) && ValidSandbox(s1) && ValidSandbox(s2)
    ensures ClientTokenPreimage(g1, s1) == ClientTokenPreimage(g2, s2) <==>
              g1 == g2 && s1.id == s2.id && s1.token == s2.token
  {
    hide NulFree, ValidSandbox;
    SandboxIsNulFree(s1);
    SandboxIsNulFree(s2);
    LineSafeIsNulFree(g1);
    LineSafeIsNulFree(g2);
    assert g1 + NUL + s1.id + NUL + s1.token == g1 + NUL + (s1.id + NUL + s1.token);
    assert g2 + NUL + s2.id + NUL + s2.token == g2 + NUL + (s2.id + NUL + s2.token);
    if ClientTokenPreimage(g1, s1) == ClientTokenPreimage(g2, s2) {
      FirstFieldAgrees(g1, s1.id + NUL + s1.token, g2, s2.id + NUL + s2.token);
      FirstFieldAgrees(s1.id, s1.token, s2.id, s2.token);
    }
  }

  // One KubeVirt resource key for each gateway and sandbox id.
  lemma ResourceKeyIsInjective(g1: string, s1: Sandbox, g2: string, s2: Sandbox)
    requires ValidGateway(g1) && ValidGateway(g2)
    ensures ResourceKeyPreimage(g1, s1) == ResourceKeyPreimage(g2, s2) <==> g1 == g2 && s1.id == s2.id
  {
    LineSafeIsNulFree(g1);
    LineSafeIsNulFree(g2);
    if ResourceKeyPreimage(g1, s1) == ResourceKeyPreimage(g2, s2) {
      FirstFieldAgrees(g1, s1.id, g2, s2.id);
    }
  }

  // What instance selection puts into the digest is free of NULs too.
  lemma SelectedTypeIsNulFree(c: KubeConfig, lib: Library, resources: Option<Requirements>, name: string)
    requires ValidKubeConfig(c)
    requires Selects(KUBEVIRT_TYPES, lib, resources, Selected(c.defaultInstanceType), Selected(name))
    ensures NulFree(name)
  {
    hide CpuDemand, MemoryDemand;
    if resources.None? || Empty(resources.value) {
      LineSafeIsNulFree(c.defaultInstanceType);
    } else {
      var e :| e in KUBEVIRT_TYPES && e.name == name;
      CatalogueIsNulFree(e);
    }
  }

  lemma NamesAreNulFree()
    ensures NulFree("cx1.medium") && NulFree("cx1.large") && NulFree("cx1.xlarge")
    ensures NulFree("cx1.2xlarge") && NulFree("cx1.4xlarge") && NulFree("cx1.8xlarge")
    ensures NulFree("d1.micro") && NulFree("d1.small") && NulFree("d1.medium") && NulFree("d1.large")
    ensures NulFree("d1.xlarge") && NulFree("d1.2xlarge") && NulFree("d1.4xlarge") && NulFree("d1.8xlarge")
  {
  }

  lemma CatalogueIsNulFree(e: InstanceSpec)
    requires e in KUBEVIRT_TYPES
    ensures NulFree(e.name)
  {
    hide NulFree;
    NamesAreNulFree();
  }

  lemma ConfigIsNulFree(c: KubeConfig)
    requires ValidKubeConfig(c)
    ensures NulFree(c.gatewayId) && NulFree(c.bootSource) && NulFree(c.bootSourceNamespace)
    ensures NulFree(c.defaultPreference) && NulFree(c.storageClass) && NulFree(c.diskSize)
  {
    hide HasLineControl, NulFree;
    LineSafeIsNulFree(c.gatewayId);
    LineSafeIsNulFree(c.bootSource);
    LineSafeIsNulFree(c.bootSourceNamespace);
    LineSafeIsNulFree(c.defaultPreference);
    LineSafeIsNulFree(c.storageClass);
    LineSafeIsNulFree(c.diskSize);
  }

  lemma FieldsAreNulFree(c: KubeConfig, s: Sandbox, instanceType: string, cloudInit: string)
    requires ValidKubeConfig(c) && ValidSandbox(s) && NulFree(instanceType)
    ensures forall i :: 0 <= i < 11 ==> NulFree(DigestFields(c, s, instanceType, cloudInit)[i])
  {
    hide NulFree, ValidSandbox, ValidKubeConfig;
    ConfigIsNulFree(c);
    SandboxIsNulFree(s);
  }

  lemma SameFields(
    c1: KubeConfig, s1: Sandbox, type1: string, cloud1: string, c2: KubeConfig, s2: Sandbox, type2: string, cloud2: string)
    requires DigestFields(c1, s1, type1, cloud1) == DigestFields(c2, s2, type2, cloud2)
    ensures c1.gatewayId == c2.gatewayId && s1.id == s2.id && s1.name == s2.name && s1.namespace == s2.namespace
    ensures s1.workspace == s2.workspace && type1 == type2 && c1.bootSource == c2.bootSource
    ensures c1.bootSourceNamespace == c2.bootSourceNamespace && c1.defaultPreference == c2.defaultPreference
    ensures c1.storageClass == c2.storageClass && c1.diskSize == c2.diskSize && cloud1 == cloud2
  {
    var a, b := DigestFields(c1, s1, type1, cloud1), DigestFields(c2, s2, type2, cloud2);
    forall i | 0 <= i < 12 ensures a[i] == b[i] {}
    assert a[0] == b[0] && a[1] == b[1] && a[2] == b[2] && a[3] == b[3] && a[4] == b[4] && a[5] == b[5];
    assert a[6] == b[6] && a[7] == b[7] && a[8] == b[8] && a[9] == b[9] && a[10] == b[10] && a[11] == b[11];
  }

  // Two KubeVirt creates share a request digest preimage exactly if all twelve
  // fields agree; the rendered cloud-init may hold anything.
  lemma DigestIsInjective(
    c1: KubeConfig, s1: Sandbox, type1: string, cloud1: string, c2: KubeConfig, s2: Sandbox, type2: string, cloud2: string)
    requires ValidKubeConfig(c1) && ValidKubeConfig(c2) && ValidSandbox(s1) && ValidSandbox(s2)
    requires NulFree(type1) && NulFree(type2)
    ensures DigestPreimage(c1, s1, type1, cloud1) == DigestPreimage(c2, s2, type2, cloud2) <==>
              && c1.gatewayId == c2.gatewayId
              && s1.id == s2.id && s1.name == s2.name && s1.namespace == s2.namespace && s1.workspace == s2.workspace
              && type1 == type2
              && c1.bootSource == c2.bootSource && c1.bootSourceNamespace == c2.bootSourceNamespace
              && c1.defaultPreference == c2.defaultPreference && c1.storageClass == c2.storageClass
              && c1.diskSize == c2.diskSize
              && cloud1 == cloud2
  {
    hide NulFree, ValidSandbox, ValidKubeConfig, Join;
    FieldsAreNulFree(c1, s1, type1, cloud1);
    FieldsAreNulFree(c2, s2, type2, cloud2);
    if DigestPreimage(c1, s1, type1, cloud1) == DigestPreimage(c2, s2, type2, cloud2) {
      JoinIsInjective(DigestFields(c1, s1, type1, cloud1), DigestFields(c2, s2, type2, cloud2));
      SameFields(c1, s1, type1, cloud1, c2, s2, type2, cloud2);
    }
  }
}
